/** The round state machine of the blackjack table: the state the table keeps
    between renders (both hands, the bet, the phase, the outcome and the chip
    balance) and the handlers that move a round from betting through the
    player's turn and the dealer's turn to the result. Each state setter is an
    assignment to the field it sets. */
module Table {
  import opened Wrappers
  import opened Game

  datatype Phase = BetPhase | PlayerPhase | DealerPhase | ResultPhase

  /** The chip balance a new table starts with. */
  const InitialChips: int := 1000

  /** The stake as a number: a missing bet reads as 0 in arithmetic. */
  function Stake(bet: Option<int>): int {
    if bet.Some? then bet.value else 0
  }

  /** The chip change of a settled round: the stake is won or lost; a push and
      a natural blackjack change nothing. */
  function ChipDelta(o: Outcome, bet: Option<int>): (d: int)
    ensures d != 0 ==> o == Win || o == Loss
    ensures -Stake(bet) <= d <= Stake(bet) || Stake(bet) < 0
  {
    match o
    case Win => Stake(bet)
    case Loss => -Stake(bet)
    case Push => 0
    case Blackjack => 0
  }

  /** The balance after a settled round, never below zero. */
  function SettledChips(chips: int, o: Outcome, bet: Option<int>): (r: int)
    ensures r >= 0
    ensures chips + ChipDelta(o, bet) >= 0 ==> r == chips + ChipDelta(o, bet)
    ensures chips + ChipDelta(o, bet) < 0 ==> r == 0
  {
    Max(0, chips + ChipDelta(o, bet))
  }

  /** A stake of at most the balance is settled exactly: the floor at zero
      never cuts in, a loss costs the stake, a win adds it and a push or a
      natural leaves the balance as it was. */
  lemma SettledChipsWithinStake(chips: int, o: Outcome, b: int)
    requires 1 <= b <= chips
    ensures SettledChips(chips, o, Some(b)) == chips + ChipDelta(o, Some(b))
    ensures o == Win ==> SettledChips(chips, o, Some(b)) == chips + b
    ensures o == Loss ==> SettledChips(chips, o, Some(b)) == chips - b
    ensures o == Push || o == Blackjack ==> SettledChips(chips, o, Some(b)) == chips
  {
  }

  /** The bet field's input handler: the entered number (None when it is not a
      number) falls back to 1 when it is missing or zero, and is then clamped
      to the range from 1 to the balance. */
  function ClampBet(entered: Option<int>, max: int): (amt: int)
    ensures max >= 1 ==> 1 <= amt <= max
    ensures max < 1 ==> amt == 1
    ensures entered.Some? && 1 <= entered.value <= max ==> amt == entered.value
    ensures entered.Some? && entered.value > max >= 1 ==> amt == max
    ensures (entered.None? || entered.value < 1) ==> amt == 1
  {
    var n := if entered.None? || entered.value == 0 then 1 else entered.value;
    Max(1, Min(max, n))
  }

  /** Whether the start handler accepts this amount. */
  predicate BetAccepted(amt: int, chips: int) {
    !(amt < 1 || amt > chips)
  }

  /** With a positive balance, whatever is typed into the bet field yields a
      bet that starting a round accepts; with no chips, none is accepted. */
  lemma ClampedBetAccepted(entered: Option<int>, chips: int)
    ensures BetAccepted(ClampBet(entered, chips), chips) <==> chips >= 1
  {
  }

  class GameTable {
    var player: Hand
    var dealer: Hand
    var bet: Option<int>
    var phase: Phase
    var outcome: Option<Outcome>
    var chips: int

    /** The table invariant: the balance is never negative, every card is a
        valid card, and while the player is on turn the bet is a positive
        amount within the balance, the player holds at least two cards and the
        dealer exactly one. */
    ghost predicate Valid()
      reads this
    {
      && chips >= 0
      && ValidHand(player) && ValidHand(dealer)
      && (phase == PlayerPhase ==>
            && bet.Some? && 1 <= bet.value <= chips
            && |player| >= 2 && |dealer| == 1)
    }

    /** A new table: no cards, no bet, betting phase, the initial balance. */
    constructor ()
      ensures Valid()
      ensures player == [] && dealer == [] && bet == None && outcome == None
      ensures phase == BetPhase && chips == InitialChips
    {
      player, dealer := [], [];
      bet := None;
      phase := BetPhase;
      outcome := None;
      chips := InitialChips;
    }

    /** Back to the betting phase with empty hands; the balance is kept. */
    method Reset()
      requires Valid()
      modifies this
      ensures Valid()
      ensures player == [] && dealer == [] && bet == None && outcome == None
      ensures phase == BetPhase && chips == old(chips)
    {
      player := [];
      dealer := [];
      bet := None;
      phase := BetPhase;
      outcome := None;
    }

    /** Start a round with the given stake: ignored unless it is at least 1 and
        at most the balance; otherwise two cards for the player, one for the
        dealer and the player's turn. */
    method Start(amt: int)
      requires Valid()
      modifies this
      ensures Valid()
      ensures !BetAccepted(amt, old(chips)) ==> unchanged(this)
      ensures BetAccepted(amt, old(chips)) ==>
        && bet == Some(amt) && |player| == 2 && |dealer| == 1 && phase == PlayerPhase
        && chips == old(chips) && outcome == old(outcome)
    {
      if amt < 1 || amt > chips {
        return;
      }
      bet := Some(amt);
      var p1 := DrawCard();
      var p2 := DrawCard();
      player := [p1, p2];
      var d1 := DrawCard();
      dealer := [d1];
      phase := PlayerPhase;
    }

    /** Take one more card: only on the player's turn and below 21. */
    method Hit()
      requires Valid()
      modifies this
      ensures Valid()
      ensures old(phase) != PlayerPhase || Total(old(player)) >= 21 ==> unchanged(this)
      ensures old(phase) == PlayerPhase && Total(old(player)) < 21 ==>
        && |player| == |old(player)| + 1 && player[..|old(player)|] == old(player)
        && ValidCard(player[|player| - 1])
        && dealer == old(dealer) && bet == old(bet) && phase == old(phase)
        && outcome == old(outcome) && chips == old(chips)
    {
      var pTotal := HandTotal(player);
      if phase != PlayerPhase || pTotal >= 21 {
        return;
      }
      var c := DrawCard();
      assert (player + [c])[..|player|] == player;
      player := player + [c];
    }

    /** Stand: the dealer draws to 17, then the round is settled. */
    method Stand()
      requires Valid()
      modifies this
      ensures Valid()
      ensures DealerDone(old(dealer), dealer)
      ensures player == old(player) && bet == old(bet)
      ensures outcome == Some(Settle(player, dealer)) && phase == ResultPhase
      ensures chips == SettledChips(old(chips), Settle(player, dealer), bet)
      ensures old(phase) == PlayerPhase ==> chips == old(chips) + ChipDelta(Settle(player, dealer), bet)
    {
      phase := DealerPhase;
      var d := DealerPlay(dealer);
      DealerDoneValid(dealer, d);
      dealer := d;
      Finish(player, d);
      if old(phase) == PlayerPhase {
        SettledChipsWithinStake(old(chips), Settle(player, dealer), bet.value);
      }
    }

    /** Settle the given hands, show the result and pay out. */
    method Finish(p: Hand, d: Hand)
      requires Valid()
      modifies this
      ensures Valid()
      ensures outcome == Some(Settle(p, d)) && phase == ResultPhase
      ensures chips == SettledChips(old(chips), Settle(p, d), old(bet))
      ensures player == old(player) && dealer == old(dealer) && bet == old(bet)
    {
      var result := Settle(p, d);
      outcome := Some(result);
      phase := ResultPhase;
      var delta := ChipDelta(result, bet);
      chips := Max(0, chips + delta);
    }
  }
}
