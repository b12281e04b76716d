# Blackjack rule engine and round state machine, in Dafny

This project models the rules of a browser blackjack game and proves properties
of the model. The game's rules live in `core/game.ts`, which covers drawing a
card, rendering its label, computing a hand's total with soft aces, detecting a
natural blackjack, settling a round and the dealer's draw-to-17 policy. The
rules are driven by the round state machine inside the `GameTable` component
(`components/GameTable.tsx`). That component holds the player's and dealer's
hands, the bet, the phase (bet, player, dealer, result), the outcome and a
local chip balance, and its `reset`, `start`, `hit`, `stand` and `finish`
handlers move a round forward. The bet field's clamp in the file-local
`BetControls` is modelled too.

Files:

- `wrappers.dfy`: module `Wrappers`, an `Option` type for values that may be
  `null` (the bet, the outcome) or not a number (the bet field's input).
- `game.dfy`: module `Game`, for `core/game.ts`. It defines cards, suits and
  outcomes as datatypes and hands as sequences. `cardLabel`, `isBlackjack` and
  `settle` become functions. `handTotal` and `dealerPlay` become methods with
  the source's loops, proved against the specification functions `Total` and
  `DealerDone`.
- `table.dfy`: module `Table`, for `components/GameTable.tsx`. It has a
  `GameTable` class whose fields are the component's state variables. Each
  handler is a method that assigns the fields its setters set, with the same
  guards as the source.

Randomness is injected. A double `x` in [0, 1) is represented as `u / Scale`
with `Scale = 2^53` and the integer `u` in [0, 2^53). `DrawCardAsWritten`
computes the program's `Math.ceil(13 * x)` and `Math.floor(4 * y)` exactly over
these fractions. The card source `DrawCard` picks `u` and `v` without any other
constraint and applies the corrected draw `DrawCardFrom` (see Findings).
`dealerPlay` copies its argument, and Dafny sequences are values, so the
caller's hand is never changed.

Where the program's comments and its code disagree, the model follows the
code:

- The comment beside `settle` (core/game.ts:60) says a natural pays 3:2. But
  the table's chip logic (components/GameTable.tsx:65) pays 0 for `blackjack`,
  as for a push. `ChipDelta` follows the code.
- `start` and `stand` have no phase guard in the code. Only the rendering
  (components/GameTable.tsx:96-107) offers them in the bet and player phases.
  The model keeps them unguarded, so `Stand` is specified for any phase.
  `Start` does not clear a previous outcome, and neither does the model.
- `bet!` with a `null` bet becomes 0 in JavaScript arithmetic, so a round
  settled without a bet changes no chips (`Stake`).

## Model

| member | source | states |
|---|---|---|
| `Game.DrawCardAsWritten` | core/game.ts:4-9 | the program's rank is the least integer at or above 13·x, so it lies in 0..13 and is 0 exactly when the random value is 0; the suit is `Suits[floor(4·y)]` |
| `Game.DrawCardAsWrittenZeroRank` | core/game.ts:5 | a random value of exactly 0 gives a card of rank 0, which is not a valid card |
| `Game.DrawCardFrom` | core/game.ts:4-9 | the corrected draw `floor(13·x) + 1` always gives a valid rank 1..13, namely the r with r − 1 ≤ 13·x < r, and the program's suit |
| `Game.DrawCardFromCloseToAsWritten` | core/game.ts:5-7 | the corrected and as-written draws agree on the suit, and the corrected rank is the as-written rank or one more |
| `Game.DrawCard` | core/game.ts:4-9 | the injected card source yields only valid cards |
| `Game.FloorTimes` | core/game.ts:7 | `Math.floor(n·x)` is the k < n with k ≤ n·x < k + 1 |
| `Game.CeilTimes` | core/game.ts:5 | `Math.ceil(n·x)` is the k ≤ n with k − 1 < n·x ≤ k |
| `Game.CardLabel` | core/game.ts:12-15 | the label ends with the suit symbol; it starts with A, J, Q or K exactly for ranks 1, 11, 12 and 13; otherwise the text before the suit reads back as the rank's decimal number. The rank part `map[c.rank] ?? c.rank` is the helper `RankText`, the suit symbol the helper `SuitSymbol` |
| `Game.LabelRoundTrip` | core/game.ts:12-15 | reading a label back gives the card it was made from, for every integer rank and suit |
| `Game.CardLabelInjective` | core/game.ts:12-15 | two cards with the same label are the same card |
| `Game.ParseLabel` | core/game.ts:12-15 | the reference inverse of `cardLabel`: the last character must be one of the four suit symbols and the text before it a rank text; no contract of its own, its meaning is `LabelRoundTrip` |
| `Game.ParseRank` | core/game.ts:13-14 | reads A, J, Q and K as 1, 11, 12 and 13 and any other rank from its decimal text, refusing the decimal texts of 1, 11, 12 and 13 that a label never shows; no contract of its own, used by `LabelRoundTrip` |
| `Game.NatTextRoundTrip` | core/game.ts:14 | the decimal digits of a natural number read back as that number |
| `Game.NatText` | core/game.ts:14 | the decimal digits of a natural number are canonical: only digits, and a leading 0 only for the number 0 itself |
| `Game.NumberText` | core/game.ts:14 | an integer's text (for magnitudes below 10^21, where JavaScript does not switch to exponent notation; ranks lie in 0..13) is canonical (digits without a leading zero, minus sign only for negative numbers) |
| `Game.NumberTextRoundTrip` | core/game.ts:14 | an integer rendered in a template literal (with a minus sign when negative) reads back as that integer |
| `Game.HandTotal` | core/game.ts:18-37 | the source's two loops (sum with aces as 1 and face cards as 10, then the upgrade loop) compute `Total`: the upgrade loop applied to the hard total and the ace count |
| `Game.RankPoints` | core/game.ts:22-29 | an ace adds 1 before the upgrade; every other rank adds min(rank, 10); a valid rank adds 1 to 10 |
| `Game.HardTotal` | core/game.ts:19-30 | the total after the first loop: the sum of `RankPoints` over the ranks, computed by the helpers `RankSum` over `Ranks`; no contract of its own, its properties are `HardTotalAppend`, `HardTotalAtLeast` and `RankSumPermutation` |
| `Game.AceCount` | core/game.ts:20-24 | the `aces` counter after the first loop: the number of rank-1 cards; no contract of its own, its step is `HardTotalAppend` |
| `Game.Upgrade` | core/game.ts:32-35 | the upgrade loop adds 10 a whole number of times, at most once per ace, never pushes a total above 21, and stops only when every ace is upgraded or one more 10 would pass 21 |
| `Game.Total` | core/game.ts:18-37 | `handTotal` as a function: at least the hard total, at most 10 more per ace, and either the hard total or at most 21 |
| `Game.HardTotalAppend` | core/game.ts:21-30 | one more card adds its points (1 for an ace, 10 for 11..13, the rank otherwise) to the hard total and adds 1 to the ace count exactly when it is an ace |
| `Game.HardTotalPrefix` | core/game.ts:21-30 | the scan step of the first loop: the first i+1 cards total the first i cards plus card i's points |
| `Game.HardTotalAtLeast` | core/game.ts:21-30 | in a hand of valid cards the hard total is at least the number of cards and at least the number of aces |
| `Game.TotalHardOrSoft` | core/game.ts:18-37 | for valid cards the total is the hard total H, or H + 10 exactly when the hand holds an ace and H ≤ 11, so at most one ace counts as 11 |
| `Game.TotalBounds` | core/game.ts:18-37 | for valid cards, number of cards ≤ H ≤ total ≤ H + 10, so the total is never negative |
| `Game.TotalWithoutAces` | core/game.ts:21-30 | a hand without aces totals the sum of its ranks capped at 10 |
| `Game.RankSumConcat` | core/game.ts:21-30 | the hard total of two runs of ranks joined is the sum of their hard totals |
| `Game.RankSumPermutation` | core/game.ts:21-30 | the hard total depends only on the multiset of ranks |
| `Game.RanksConcat` | core/game.ts:21 | the ranks of two hands joined are the two rank sequences joined |
| `Game.RanksMultiset` | core/game.ts:21 | hands that are permutations of each other have permutations of each other's ranks |
| `Game.TotalRankMultiset` | core/game.ts:18-37 | the total depends only on the multiset of ranks, not on card order or suits |
| `Game.TotalPermutation` | core/game.ts:18-37 | reordering a hand's cards keeps its total |
| `Game.TwoCardTotal` | core/game.ts:21-30 | the hard total and ace count of a two-card hand, card by card |
| `Game.ThreeCardTotal` | core/game.ts:21-30 | the hard total and ace count of a three-card hand, card by card |
| `Game.SoftAceExamples` | core/game.ts:32-35 | two aces total 12 and an ace with a king totals 21 |
| `Game.BlackjackIsAceAndTen` | core/game.ts:40-42 | a valid hand is a natural blackjack exactly when it has two cards, one an ace and the other of rank 10 or more, in either order; no hand of another size is one |
| `Game.IsBlackjack` | core/game.ts:40-42 | exactly two cards totalling 21; no contract of its own, its meaning for valid hands is `BlackjackIsAceAndTen` |
| `Game.Settle` | core/game.ts:48-70 | the first-match-wins chain of `settle`; no contract of its own, each outcome is characterised by `SettleCases` |
| `Game.SettleCases` | core/game.ts:48-70 | the first-match-wins rules, as one if-and-only-if per outcome: loss when the player busts (even if the dealer busts too) or is not natural, the dealer is not bust and the player's total is lower; blackjack when only the player is natural; win when the player is neither bust nor natural and the dealer busts or has a lower total; push on two naturals or equal unbusted totals without a player natural |
| `Game.SettleSwap` | core/game.ts:64-69 | between two hands that are neither bust nor natural, one wins exactly when, the other way round, it would lose, and pushes are symmetric |
| `Game.DealerNaturalAgainstThreeCardTwentyOne` | core/game.ts:58-69 | a player's 21 of three or more cards against a dealer's natural is a push |
| `Game.SettleExamplePlayerBust` | core/game.ts:55 | a player's 22 against a dealer's 18 is a loss |
| `Game.SettleExampleNatural` | core/game.ts:61 | ace and king against 9 and 8 is a blackjack |
| `Game.SettleExampleBothNatural` | core/game.ts:58 | ace and king against ace and queen is a push |
| `Game.SettleExampleDealerBust` | core/game.ts:64 | 20 against a dealer's 23 is a win |
| `Game.SettleExampleTie` | core/game.ts:69 | 18 against 18 is a push |
| `Game.DealerPlay` | core/game.ts:73-79 | the result keeps the starting hand as a prefix, every card it adds is a valid drawn card, its total is at least 17, and every hand on the way had a total below 17, so drawing stopped at the first total of 17 or more; termination uses the hard total, which rises by at least 1 per card |
| `Game.DealerDrawing` | core/game.ts:74-77 | the loop invariant of `dealerPlay`: the starting hand is a prefix, the drawn cards are valid and every total on the way was below 17; no contract of its own |
| `Game.DealerDone` | core/game.ts:73-79 | what `dealerPlay` returns: a drawing state whose total has reached 17; no contract of its own, see `DealerPlay` and `DealerPlayIdempotent` |
| `Game.DealerDraw` | core/game.ts:75-76 | a draw below 17 keeps the drawing invariant and strictly raises the hard total, which was below 17 |
| `Game.DealerDrawKeepsPrefix` | core/game.ts:74-76 | appending a drawn card keeps the copied starting hand as a prefix and the drawn part valid |
| `Game.DealerDrawBelow17` | core/game.ts:75 | after a draw from a total below 17, every proper prefix back to the start was below 17 |
| `Game.DealerDoneStandsAt17` | core/game.ts:75 | for a hand already at 17 or more, the only finished result is the hand itself |
| `Game.DealerPlayIdempotent` | core/game.ts:73-79 | playing the dealer again on a finished hand adds nothing |
| `Game.DealerDoneValid` | core/game.ts:73-79 | a finished dealer hand built on valid cards holds only valid cards |
| `Table.SettledChips` | components/GameTable.tsx:65-66 | the new balance is the old one plus the round's chip delta, floored at 0, so it is never negative |
| `Table.ChipDelta` | components/GameTable.tsx:65 | the chip change of a round: nonzero only for a win or a loss, never more than the stake either way; a push and a natural blackjack pay 0 |
| `Table.Stake` | components/GameTable.tsx:65 | `bet!` as a number: the bet, or 0 for a `null` bet; no contract of its own |
| `Table.SettledChipsWithinStake` | components/GameTable.tsx:65-66 | with a stake between 1 and the balance the floor never applies: a win adds the stake, a loss subtracts it, and a push or a natural blackjack pays 0 |
| `Table.ClampBet` | components/GameTable.tsx:143 | with a balance of at least 1 the bet lies in 1..balance; an entered amount in range is kept, one above the balance becomes the balance, and a number below 1 or no number becomes 1; with a balance below 1 the bet is 1 |
| `Table.ClampedBetAccepted` | components/GameTable.tsx:143-148 | the clamped bet passes the start guard (and the button is enabled) exactly when the balance is at least 1 |
| `Table.BetAccepted` | components/GameTable.tsx:37 | the start guard, which is also the bet button's enabled condition (components/GameTable.tsx:148); no contract of its own |
| `Table.GameTable.Valid` | components/GameTable.tsx:15-21 | the table invariant every handler keeps: chips never negative, every card valid, and in the player phase a bet between 1 and the balance with two or more player cards and one dealer card; no contract of its own |
| `Table.GameTable.constructor` | components/GameTable.tsx:15-21 | a new table has empty hands, no bet or outcome, the bet phase and 1000 chips |
| `Table.GameTable.Reset` | components/GameTable.tsx:27-33 | both hands empty, bet and outcome cleared, bet phase, chips unchanged |
| `Table.GameTable.Start` | components/GameTable.tsx:36-42 | an amount below 1 or above the balance changes nothing; otherwise the bet is the amount, the player holds two drawn cards, the dealer one, the phase is player, and chips and outcome are unchanged |
| `Table.GameTable.Hit` | components/GameTable.tsx:45-48 | outside the player phase or at a total of 21 or more nothing changes; otherwise exactly one valid card is appended to the player's hand and nothing else changes |
| `Table.GameTable.Stand` | components/GameTable.tsx:51-56 | the dealer hand becomes a finished dealer-play of the old one, the outcome is the settlement of the player's hand against it, the phase is result and chips are settled; from the player phase the floor never applies |
| `Table.GameTable.Finish` | components/GameTable.tsx:59-67 | the outcome is the settlement of the given hands, the phase is result, the balance is the floored settled balance, and hands and bet are unchanged |

The class invariant `GameTable.Valid` holds for every method. It says the
balance is never negative and every card is valid. In the player phase it also
says the bet lies between 1 and the balance, the player holds at least two
cards and the dealer exactly one.

## Findings

| source | as written | input that shows it | evidently intended | confidence | as-written member | corrected member |
|---|---|---|---|---|---|---|
| core/game.ts:5 | `Math.ceil(Math.random() * 13)` yields 0 when `Math.random()` returns 0, which its range [0, 1) allows | `Math.random()` returning exactly 0 gives a card of rank 0, which contributes 0 points and renders as "0" | a rank from 1 to 13, as the comment on the line says, e.g. `Math.floor(Math.random() * 13) + 1` | not executed; follows from the documented range of `Math.random`, and the input has probability about 2^-53 per draw | `Game.DrawCardAsWritten`, `Game.DrawCardAsWrittenZeroRank` | `Game.DrawCardFrom` (used by `Game.DrawCard`) |

## Left out

- Floating point: `Math.random()` is represented as an exact fraction `u / 2^53`, and the rounding of the product `Math.random() * 13` is not modelled.
- Fractional and out-of-range numbers: ranks, bets and chips are integers. A bet such as 2.5 typed into the bet field, and the parsing of that field's text by `Number(...)`, are not modelled. `ClampBet` takes the parsed number, or `None` for `NaN`.
- React scheduling: setters are applied immediately and in program order. The batching of state updates, `useMemo` and the stale-closure behaviour of React state are not modelled. In `stand` and `finish` the closure's values equal the current fields, so this makes no difference there.
- Rendering and JSX in components/GameTable.tsx (lines 69-128 and 135-154) are left out, except the clamp at line 143 (`ClampBet`) and the bet button's enabled condition at line 148 (`BetAccepted`).
- The bet field's starting amount: `useState(10)` (components/GameTable.tsx:133) is never clamped. With a balance of 1 to 9 the field opens above the maximum, and "Place Bet" starts disabled. `ClampBet`'s range guarantee holds only once the player has edited the field.
- `dealerPlay`'s copy of its argument: sequences are values in Dafny, so there is no aliasing to model.
- The corrected card source `DrawCard` is nondeterministic. Uniformity and independence of draws are not modelled. Only the range of each draw is.
- The other files of the repository (authentication, the hosted database, buying chips, history, the text-suggestion endpoint, the shared card and bet components) are not part of this model.
