/** The blackjack rule engine: cards and their labels, hand totals with soft
    aces, natural blackjack, the dealer's drawing policy and the settlement of a
    round. The random card source is injected: a uniform double in [0, 1) is
    represented by an integer numerator over `Scale`. */
module Game {
  import opened Wrappers

  datatype Suit = Spades | Hearts | Diamonds | Clubs

  /** A card. The rank is a plain number, as in the program: 1 is the ace,
      11, 12 and 13 are jack, queen and king. */
  datatype Card = Card(rank: int, suit: Suit)

  /** A hand, in the order the cards were dealt. */
  type Hand = seq<Card>

  predicate ValidCard(c: Card) {
    1 <= c.rank <= 13
  }

  predicate ValidHand(h: Hand) {
    forall i :: 0 <= i < |h| ==> ValidCard(h[i])
  }

  datatype Outcome = Win | Loss | Push | Blackjack

  function Min(a: int, b: int): int {
    if a <= b then a else b
  }

  function Max(a: int, b: int): int {
    if a >= b then a else b
  }

  // ---------------------------------------------------------------------------
  // Drawing a card
  // ---------------------------------------------------------------------------

  /** A random double x in [0, 1) is modelled as u / Scale with 0 <= u < Scale. */
  const Scale: nat := 0x20_0000_0000_0000

  /** The suits in the order the program lists them. */
  const Suits: seq<Suit> := [Spades, Hearts, Diamonds, Clubs]

  /** floor(n * x) for x = u / Scale: the unique k with k <= n * x < k + 1. */
  function FloorTimes(n: nat, u: nat): (k: nat)
    requires n > 0 && u < Scale
    ensures k < n
    ensures k * Scale <= n * u < (k + 1) * Scale
  {
    var k := n * u / Scale;
    assert n * u < n * Scale;
    k
  }

  /** ceil(n * x) for x = u / Scale: the unique k with k - 1 < n * x <= k. */
  function CeilTimes(n: nat, u: nat): (k: nat)
    requires n > 0 && u < Scale
    ensures k <= n
    ensures (k - 1) * Scale < n * u <= k * Scale
  {
    var k := (n * u + Scale - 1) / Scale;
    assert n * u + Scale - 1 < (n + 1) * Scale;
    k
  }

  /** drawCard exactly as the program computes it: rank ceil(13 * x) and
      suit number floor(4 * y), for the two random doubles x = u / Scale and
      y = v / Scale. */
  function DrawCardAsWritten(u: nat, v: nat): (c: Card)
    requires u < Scale && v < Scale
    ensures 0 <= c.rank <= 13
    ensures c.rank == 0 <==> u == 0
    ensures (c.rank - 1) * Scale < 13 * u <= c.rank * Scale
    ensures c.suit == Suits[FloorTimes(4, v)]
  {
    Card(CeilTimes(13, u), Suits[FloorTimes(4, v)])
  }

  /** When the random source returns exactly 0 the program's card has rank 0,
      outside the intended range 1..13. */
  lemma DrawCardAsWrittenZeroRank(v: nat)
    requires v < Scale
    ensures DrawCardAsWritten(0, v).rank == 0
    ensures !ValidCard(DrawCardAsWritten(0, v))
  {
  }

  /** The intended card draw: rank floor(13 * x) + 1, suit as in the program. */
  function DrawCardFrom(u: nat, v: nat): (c: Card)
    requires u < Scale && v < Scale
    ensures ValidCard(c)
    ensures (c.rank - 1) * Scale <= 13 * u < c.rank * Scale
    ensures c.suit == Suits[FloorTimes(4, v)]
  {
    Card(FloorTimes(13, u) + 1, Suits[FloorTimes(4, v)])
  }

  /** For every pair of random values, the intended draw and the program's draw
      agree on the suit, and the intended rank is the program's rank or one
      more. */
  lemma DrawCardFromCloseToAsWritten(u: nat, v: nat)
    requires u < Scale && v < Scale
    ensures DrawCardFrom(u, v).suit == DrawCardAsWritten(u, v).suit
    ensures DrawCardAsWritten(u, v).rank <= DrawCardFrom(u, v).rank <= DrawCardAsWritten(u, v).rank + 1
  {
  }

  /** The card source: one draw from two independent uniform doubles, chosen
      here without constraint other than their range. */
  method DrawCard() returns (c: Card)
    ensures ValidCard(c)
  {
    var u: nat :| u < Scale;
    var v: nat :| v < Scale;
    c := DrawCardFrom(u, v);
  }

  // ---------------------------------------------------------------------------
  // Card labels
  // ---------------------------------------------------------------------------

  function SuitSymbol(s: Suit): char {
    match s
    case Spades => '♠'
    case Hearts => '♥'
    case Diamonds => '♦'
    case Clubs => '♣'
  }

  function SymbolSuit(ch: char): Option<Suit> {
    if ch == '♠' then Some(Spades)
    else if ch == '♥' then Some(Hearts)
    else if ch == '♦' then Some(Diamonds)
    else if ch == '♣' then Some(Clubs)
    else None
  }

  predicate IsDigit(ch: char) {
    '0' <= ch <= '9'
  }

  predicate AllDigits(s: string) {
    forall i :: 0 <= i < |s| ==> IsDigit(s[i])
  }

  function DigitChar(d: nat): (ch: char)
    requires d < 10
    ensures IsDigit(ch)
  {
    ('0' as int + d) as char
  }

  function DigitValue(ch: char): (d: nat)
    requires IsDigit(ch)
    ensures d < 10
  {
    (ch as int) - ('0' as int)
  }

  /** Decimal digits without a leading zero (except for the number 0 itself). */
  predicate CanonicalDigits(t: string) {
    |t| >= 1 && AllDigits(t) && (t[0] == '0' ==> |t| == 1)
  }

  /** The text JavaScript gives an integer: canonical digits, or a minus sign
      followed by canonical digits of a nonzero number. */
  predicate CanonicalNumber(t: string) {
    || CanonicalDigits(t)
    || (|t| >= 2 && t[0] == '-' && CanonicalDigits(t[1..]) && t[1] != '0')
  }

  /** Decimal digits of a natural number, most significant first. */
  function NatText(n: nat): (s: string)
    ensures CanonicalDigits(s)
    ensures s[0] == '0' <==> n == 0
    decreases n
  {
    if n < 10 then [DigitChar(n)] else NatText(n / 10) + [DigitChar(n % 10)]
  }

  function DigitsValue(s: string): nat
    requires |s| >= 1 && AllDigits(s)
  {
    if |s| == 1 then DigitValue(s[0])
    else DigitsValue(s[..|s| - 1]) * 10 + DigitValue(s[|s| - 1])
  }

  lemma {:induction false} NatTextRoundTrip(n: nat)
    ensures DigitsValue(NatText(n)) == n
    decreases n
  {
    if n >= 10 {
      NatTextRoundTrip(n / 10);
      var s := NatText(n);
      assert s[..|s| - 1] == NatText(n / 10);
    }
  }

  /** How a template literal renders an integer below 10^21 in magnitude (a
      card's rank is one of 0..13): an optional minus sign followed by the
      decimal digits. Larger magnitudes, which JavaScript writes in exponent
      notation, never occur in a label. */
  function NumberText(i: int): (s: string)
    ensures CanonicalNumber(s)
    ensures s[0] == '-' <==> i < 0
  {
    if i < 0 then
      var s := "-" + NatText(-i);
      assert s[1..] == NatText(-i);
      s
    else NatText(i)
  }

  function ParseNumber(s: string): Option<int> {
    if |s| >= 2 && s[0] == '-' && AllDigits(s[1..]) then Some(-(DigitsValue(s[1..]) as int))
    else if |s| >= 1 && AllDigits(s) then Some(DigitsValue(s))
    else None
  }

  lemma NumberTextRoundTrip(i: int)
    ensures ParseNumber(NumberText(i)) == Some(i)
  {
    var s := NumberText(i);
    if i < 0 {
      assert s[1..] == NatText(-i);
      NatTextRoundTrip(-i);
    } else {
      NatTextRoundTrip(i);
    }
  }

  predicate IsFaceRank(rank: int) {
    rank == 1 || rank == 11 || rank == 12 || rank == 13
  }

  /** The rank part of a label: a letter for ace and the three face cards,
      the number itself for every other rank. */
  function RankText(rank: int): string {
    if rank == 1 then "A"
    else if rank == 11 then "J"
    else if rank == 12 then "Q"
    else if rank == 13 then "K"
    else NumberText(rank)
  }

  /** cardLabel: the rank text followed by the suit symbol. */
  function CardLabel(c: Card): (s: string)
    ensures |s| >= 2 && s[|s| - 1] == SuitSymbol(c.suit)
    ensures IsFaceRank(c.rank) <==> s[0] in "AJQK"
    ensures !IsFaceRank(c.rank) ==>
      CanonicalNumber(s[..|s| - 1]) && ParseNumber(s[..|s| - 1]) == Some(c.rank)
  {
    var s := RankText(c.rank) + [SuitSymbol(c.suit)];
    assert s[..|s| - 1] == RankText(c.rank);
    NumberTextRoundTrip(c.rank);
    s
  }

  /** Reading a card back from its label. */
  function ParseRank(t: string): Option<int> {
    if t == "A" then Some(1)
    else if t == "J" then Some(11)
    else if t == "Q" then Some(12)
    else if t == "K" then Some(13)
    else match ParseNumber(t)
      case Some(n) => if IsFaceRank(n) then None else Some(n)
      case None => None
  }

  function ParseLabel(s: string): Option<Card> {
    if |s| == 0 then None
    else match (SymbolSuit(s[|s| - 1]), ParseRank(s[..|s| - 1]))
      case (Some(suit), Some(rank)) => Some(Card(rank, suit))
      case _ => None
  }

  lemma LabelRoundTrip(c: Card)
    ensures ParseLabel(CardLabel(c)) == Some(c)
  {
    var s := CardLabel(c);
    assert s[..|s| - 1] == RankText(c.rank);
    assert SymbolSuit(SuitSymbol(c.suit)) == Some(c.suit);
    if !IsFaceRank(c.rank) {
      var t := NumberText(c.rank);
      NumberTextRoundTrip(c.rank);
      assert t != "A" && t != "J" && t != "Q" && t != "K" by {
        assert IsDigit(t[0]) || t[0] == '-';
      }
    }
  }

  /** Different cards never share a label. */
  lemma CardLabelInjective(c: Card, d: Card)
    requires CardLabel(c) == CardLabel(d)
    ensures c == d
  {
    LabelRoundTrip(c);
    LabelRoundTrip(d);
  }

  // ---------------------------------------------------------------------------
  // Hand totals
  // ---------------------------------------------------------------------------

  /** What one card of the given rank adds before any ace is upgraded. */
  function RankPoints(rank: int): (p: int)
    ensures rank == 1 ==> p == 1
    ensures rank != 1 ==> p == Min(rank, 10)
    ensures 1 <= rank <= 13 ==> 1 <= p <= 10
  {
    if rank == 1 then 1 else if rank >= 11 then 10 else rank
  }

  function Ranks(h: Hand): (rs: seq<int>)
    ensures |rs| == |h|
  {
    if h == [] then [] else Ranks(h[..|h| - 1]) + [h[|h| - 1].rank]
  }

  function RankSum(rs: seq<int>): int {
    if rs == [] then 0 else RankSum(rs[..|rs| - 1]) + RankPoints(rs[|rs| - 1])
  }

  /** The hard total: every ace counted as 1, face cards as 10. */
  function HardTotal(h: Hand): int {
    RankSum(Ranks(h))
  }

  /** The number of aces in the hand. */
  function AceCount(h: Hand): nat {
    multiset(Ranks(h))[1]
  }

  /** The upgrade loop of handTotal: while an ace is left and adding 10 keeps the
      total at most 21, count one more ace as 11. */
  function Upgrade(total: int, aces: nat): (r: int)
    ensures total <= r <= total + 10 * aces && (r - total) % 10 == 0
    ensures r == total || r <= 21
    ensures r == total + 10 * aces || r + 10 > 21
    decreases aces
  {
    if aces > 0 && total + 10 <= 21 then Upgrade(total + 10, aces - 1) else total
  }

  /** handTotal as a function of the hand. */
  function Total(h: Hand): (t: int)
    ensures HardTotal(h) <= t <= HardTotal(h) + 10 * AceCount(h)
    ensures t == HardTotal(h) || t <= 21
  {
    Upgrade(HardTotal(h), AceCount(h))
  }

  lemma RankSumAppend(rs: seq<int>, r: int)
    ensures RankSum(rs + [r]) == RankSum(rs) + RankPoints(r)
  {
    assert (rs + [r])[..|rs|] == rs;
  }

  lemma HardTotalAppend(h: Hand, c: Card)
    ensures Ranks(h + [c]) == Ranks(h) + [c.rank]
    ensures HardTotal(h + [c]) == HardTotal(h) + RankPoints(c.rank)
    ensures AceCount(h + [c]) == AceCount(h) + (if c.rank == 1 then 1 else 0)
  {
    assert (h + [c])[..|h|] == h;
    RankSumAppend(Ranks(h), c.rank);
  }

  lemma HardTotalPrefix(h: Hand, i: nat)
    requires i < |h|
    ensures HardTotal(h[..i + 1]) == HardTotal(h[..i]) + RankPoints(h[i].rank)
    ensures AceCount(h[..i + 1]) == AceCount(h[..i]) + (if h[i].rank == 1 then 1 else 0)
  {
    assert h[..i + 1] == h[..i] + [h[i]];
    HardTotalAppend(h[..i], h[i]);
  }

  /** handTotal: one pass adding each card's points and counting the aces, then
      the upgrade loop. */
  method HandTotal(cards: Hand) returns (total: int)
    ensures total == Total(cards)
  {
    total := 0;
    var aces: nat := 0;
    for i := 0 to |cards|
      invariant total == HardTotal(cards[..i])
      invariant aces == AceCount(cards[..i])
    {
      var c := cards[i];
      HardTotalPrefix(cards, i);
      if c.rank == 1 {
        aces := aces + 1;
        total := total + 1;
      } else if c.rank >= 11 {
        total := total + 10;
      } else {
        total := total + c.rank;
      }
    }
    assert cards[..|cards|] == cards;
    ghost var hard, allAces := total, aces;
    while aces > 0 && total + 10 <= 21
      invariant Upgrade(total, aces) == Upgrade(hard, allAces)
    {
      total := total + 10;
      aces := aces - 1;
    }
  }

  /** In a hand of valid cards every card adds at least 1 to the hard total and
      at most one ace to the ace count. */
  lemma {:induction false} HardTotalAtLeast(h: Hand)
    requires ValidHand(h)
    ensures |h| <= HardTotal(h)
    ensures AceCount(h) <= HardTotal(h)
    decreases |h|
  {
    if h != [] {
      var p, c := h[..|h| - 1], h[|h| - 1];
      assert h == p + [c];
      HardTotalAtLeast(p);
      HardTotalAppend(p, c);
    }
  }

  /** The total is the hard total H, or H + 10 exactly when the hand holds an
      ace and H <= 11: at most one ace is ever counted as 11. */
  lemma TotalHardOrSoft(h: Hand)
    requires ValidHand(h)
    ensures Total(h) == if AceCount(h) > 0 && HardTotal(h) <= 11 then HardTotal(h) + 10 else HardTotal(h)
  {
    HardTotalAtLeast(h);
    var H, A := HardTotal(h), AceCount(h);
    if A > 0 && H <= 11 {
      assert Upgrade(H, A) == Upgrade(H + 10, A - 1);
      assert A - 1 > 0 ==> H + 20 > 21;
    }
  }

  /** Totals of valid hands are never negative and never below the hard total. */
  lemma TotalBounds(h: Hand)
    requires ValidHand(h)
    ensures |h| <= HardTotal(h) <= Total(h) <= HardTotal(h) + 10
    ensures 0 <= Total(h)
  {
    TotalHardOrSoft(h);
    HardTotalAtLeast(h);
  }

  lemma {:induction false} RankSumConcat(s: seq<int>, t: seq<int>)
    ensures RankSum(s + t) == RankSum(s) + RankSum(t)
    decreases |t|
  {
    if t == [] {
      assert s + t == s;
    } else {
      var t', r := t[..|t| - 1], t[|t| - 1];
      assert s + t == (s + t') + [r];
      assert t == t' + [r];
      RankSumAppend(s + t', r);
      RankSumAppend(t', r);
      RankSumConcat(s, t');
    }
  }

  /** The hard total depends only on the multiset of ranks. */
  lemma {:induction false} RankSumPermutation(s: seq<int>, t: seq<int>)
    requires multiset(s) == multiset(t)
    ensures RankSum(s) == RankSum(t)
    decreases |s|
  {
    if s == [] {
      assert |t| == |multiset(t)| == 0;
    } else {
      var s', r := s[..|s| - 1], s[|s| - 1];
      assert s == s' + [r];
      assert r in multiset(t);
      var j :| 0 <= j < |t| && t[j] == r;
      var t' := t[..j] + t[j + 1..];
      assert t == t[..j] + [r] + t[j + 1..];
      assert multiset(t') == multiset(t) - multiset{r};
      assert multiset(s') == multiset(s) - multiset{r};
      RankSumPermutation(s', t');
      RankSumAppend(s', r);
      RankSumConcat(t[..j] + [r], t[j + 1..]);
      RankSumConcat(t[..j], [r]);
      RankSumConcat(t[..j], t[j + 1..]);
      assert RankSum([r]) == RankPoints(r) by {
        assert [r] == [] + [r];
        RankSumAppend([], r);
      }
    }
  }

  /** handTotal depends only on the multiset of ranks: not on the order of the
      cards, nor on their suits. */
  lemma TotalRankMultiset(a: Hand, b: Hand)
    requires multiset(Ranks(a)) == multiset(Ranks(b))
    ensures Total(a) == Total(b)
  {
    RankSumPermutation(Ranks(a), Ranks(b));
  }

  /** In particular, reordering the cards of a hand keeps its total. */
  lemma TotalPermutation(a: Hand, b: Hand)
    requires multiset(a) == multiset(b)
    ensures Total(a) == Total(b)
  {
    assert multiset(Ranks(a)) == multiset(Ranks(b)) by {
      RanksMultiset(a, b);
    }
    TotalRankMultiset(a, b);
  }

  lemma {:induction false} RanksMultiset(a: Hand, b: Hand)
    requires multiset(a) == multiset(b)
    ensures multiset(Ranks(a)) == multiset(Ranks(b))
    decreases |a|
  {
    if a == [] {
      assert |b| == |multiset(b)| == 0;
    } else {
      var a', c := a[..|a| - 1], a[|a| - 1];
      assert a == a' + [c];
      assert c in multiset(b);
      var j :| 0 <= j < |b| && b[j] == c;
      var b' := b[..j] + b[j + 1..];
      assert b == b[..j] + [c] + b[j + 1..];
      assert multiset(b') == multiset(b) - multiset{c};
      assert multiset(a') == multiset(a) - multiset{c};
      RanksMultiset(a', b');
      HardTotalAppend(a', c);
      RanksConcat(b[..j] + [c], b[j + 1..]);
      RanksConcat(b[..j], [c]);
      RanksConcat(b[..j], b[j + 1..]);
    }
  }

  lemma {:induction false} RanksConcat(a: Hand, b: Hand)
    ensures Ranks(a + b) == Ranks(a) + Ranks(b)
    decreases |b|
  {
    if b == [] {
      assert a + b == a;
    } else {
      var b', c := b[..|b| - 1], b[|b| - 1];
      assert b == b' + [c];
      assert a + b == (a + b') + [c];
      HardTotalAppend(a + b', c);
      HardTotalAppend(b', c);
      RanksConcat(a, b');
    }
  }

  /** Sum of every card's rank capped at 10. */
  function CappedSum(h: Hand): int {
    if h == [] then 0 else CappedSum(h[..|h| - 1]) + Min(h[|h| - 1].rank, 10)
  }

  /** Without aces, the total is the sum of the ranks capped at 10. */
  lemma {:induction false} TotalWithoutAces(h: Hand)
    requires AceCount(h) == 0
    ensures Total(h) == CappedSum(h)
    decreases |h|
  {
    if h != [] {
      var p, c := h[..|h| - 1], h[|h| - 1];
      assert h == p + [c];
      HardTotalAppend(p, c);
      TotalWithoutAces(p);
    }
  }

  /** Two aces total 12 (one counted as 11), an ace and a king 21. */
  lemma SoftAceExamples(s: Suit, t: Suit)
    ensures Total([Card(1, s), Card(1, t)]) == 12
    ensures Total([Card(1, s), Card(13, t)]) == 21
  {
    TwoCardTotal(Card(1, s), Card(1, t));
    assert Upgrade(2, 2) == Upgrade(12, 1) == 12;
    TwoCardTotal(Card(1, s), Card(13, t));
    assert Upgrade(11, 1) == Upgrade(21, 0) == 21;
  }

  // ---------------------------------------------------------------------------
  // Natural blackjack
  // ---------------------------------------------------------------------------

  /** isBlackjack: exactly two cards totalling 21. */
  predicate IsBlackjack(h: Hand) {
    |h| == 2 && Total(h) == 21
  }

  /** A valid hand is a natural blackjack exactly when it is an ace together
      with a ten or a face card, in either order. */
  lemma BlackjackIsAceAndTen(h: Hand)
    requires ValidHand(h)
    ensures IsBlackjack(h) <==>
      |h| == 2 && ((h[0].rank == 1 && h[1].rank >= 10) || (h[1].rank == 1 && h[0].rank >= 10))
  {
    if |h| == 2 {
      assert h == [h[0], h[1]];
      TwoCardTotal(h[0], h[1]);
      TotalHardOrSoft(h);
    }
  }

  // ---------------------------------------------------------------------------
  // Settlement
  // ---------------------------------------------------------------------------

  /** settle: the first rule that matches decides the round. */
  function Settle(player: Hand, dealer: Hand): Outcome {
    var pt, dt := Total(player), Total(dealer);
    var playerBJ, dealerBJ := IsBlackjack(player), IsBlackjack(dealer);
    if pt > 21 then Loss
    else if playerBJ && dealerBJ then Push
    else if playerBJ then Blackjack
    else if dt > 21 then Win
    else if pt > dt then Win
    else if pt < dt then Loss
    else Push
  }

  /** Each outcome, characterised by the totals and naturals that lead to it. */
  lemma SettleCases(player: Hand, dealer: Hand)
    ensures var pt, dt, pbj, dbj := Total(player), Total(dealer), IsBlackjack(player), IsBlackjack(dealer);
      && (Settle(player, dealer) == Loss <==> pt > 21 || (!pbj && dt <= 21 && pt < dt))
      && (Settle(player, dealer) == Blackjack <==> pbj && !dbj)
      && (Settle(player, dealer) == Win <==> pt <= 21 && !pbj && (dt > 21 || pt > dt))
      && (Settle(player, dealer) == Push <==> (pbj && dbj) || (pt <= 21 && !pbj && dt <= 21 && pt == dt))
  {
  }

  /** Between two hands that are neither bust nor natural, settlement is
      symmetric: one wins exactly when the other, sitting on the far side,
      would lose. */
  lemma SettleSwap(a: Hand, b: Hand)
    requires Total(a) <= 21 && Total(b) <= 21
    requires !IsBlackjack(a) && !IsBlackjack(b)
    ensures Settle(a, b) == Win <==> Settle(b, a) == Loss
    ensures Settle(a, b) == Push <==> Settle(b, a) == Push
  {
  }

  /** A player's 21 of three or more cards only ties a dealer's natural. */
  lemma DealerNaturalAgainstThreeCardTwentyOne(player: Hand, dealer: Hand)
    requires |player| >= 3 && Total(player) == 21 && IsBlackjack(dealer)
    ensures Settle(player, dealer) == Push
  {
  }

  /** The total of a two-card hand, card by card. */
  lemma TwoCardTotal(a: Card, b: Card)
    ensures HardTotal([a, b]) == RankPoints(a.rank) + RankPoints(b.rank)
    ensures AceCount([a, b]) == (if a.rank == 1 then 1 else 0) + (if b.rank == 1 then 1 else 0)
  {
    assert [a] == [] + [a];
    assert [a, b] == [a] + [b];
    HardTotalAppend([], a);
    HardTotalAppend([a], b);
  }

  /** The total of a three-card hand, card by card. */
  lemma ThreeCardTotal(a: Card, b: Card, c: Card)
    ensures HardTotal([a, b, c]) == RankPoints(a.rank) + RankPoints(b.rank) + RankPoints(c.rank)
    ensures AceCount([a, b, c]) == (if a.rank == 1 then 1 else 0) + (if b.rank == 1 then 1 else 0) + (if c.rank == 1 then 1 else 0)
  {
    TwoCardTotal(a, b);
    assert [a, b, c] == [a, b] + [c];
    HardTotalAppend([a, b], c);
  }

  /** A player bust loses, even against a dealer's 18. */
  lemma SettleExamplePlayerBust()
    ensures Settle([Card(10, Spades), Card(12, Hearts), Card(2, Clubs)], [Card(10, Diamonds), Card(8, Clubs)]) == Loss
  {
    ThreeCardTotal(Card(10, Spades), Card(12, Hearts), Card(2, Clubs));
    TwoCardTotal(Card(10, Diamonds), Card(8, Clubs));
  }

  /** An ace and a king against a dealer's 17 is a natural blackjack. */
  lemma SettleExampleNatural()
    ensures Settle([Card(1, Spades), Card(13, Hearts)], [Card(9, Diamonds), Card(8, Clubs)]) == Blackjack
  {
    TwoCardTotal(Card(1, Spades), Card(13, Hearts));
    assert Upgrade(11, 1) == 21;
    TwoCardTotal(Card(9, Diamonds), Card(8, Clubs));
  }

  /** Two naturals push. */
  lemma SettleExampleBothNatural()
    ensures Settle([Card(1, Spades), Card(13, Hearts)], [Card(1, Diamonds), Card(12, Clubs)]) == Push
  {
    TwoCardTotal(Card(1, Spades), Card(13, Hearts));
    TwoCardTotal(Card(1, Diamonds), Card(12, Clubs));
    assert Upgrade(11, 1) == 21;
  }

  /** A dealer bust loses to a player's 20. */
  lemma SettleExampleDealerBust()
    ensures Settle([Card(10, Spades), Card(11, Hearts)], [Card(10, Diamonds), Card(6, Clubs), Card(7, Hearts)]) == Win
  {
    TwoCardTotal(Card(10, Spades), Card(11, Hearts));
    ThreeCardTotal(Card(10, Diamonds), Card(6, Clubs), Card(7, Hearts));
  }

  /** Equal totals push. */
  lemma SettleExampleTie()
    ensures Settle([Card(10, Spades), Card(8, Hearts)], [Card(9, Diamonds), Card(9, Clubs)]) == Push
  {
    TwoCardTotal(Card(10, Spades), Card(8, Hearts));
    TwoCardTotal(Card(9, Diamonds), Card(9, Clubs));
  }

  // ---------------------------------------------------------------------------
  // Dealer policy
  // ---------------------------------------------------------------------------

  /** The dealer's hand `d` while drawing from `start`: `start` is kept as a
      prefix, every card added is a valid drawn card, and every total on the
      way was below 17. */
  predicate DealerDrawing(start: Hand, d: Hand) {
    && |start| <= |d|
    && d[..|start|] == start
    && ValidHand(d[|start|..])
    && forall k :: |start| <= k < |d| ==> Total(d[..k]) < 17
  }

  /** What dealerPlay promises of its result: drawing stopped at the first
      total of 17 or more. */
  predicate DealerDone(start: Hand, d: Hand) {
    DealerDrawing(start, d) && Total(d) >= 17
  }

  /** One draw below 17 keeps the drawing invariant and raises the hard total,
      which stays below 17 before the draw. */
  lemma DealerDraw(start: Hand, d: Hand, c: Card)
    requires DealerDrawing(start, d) && Total(d) < 17 && ValidCard(c)
    ensures DealerDrawing(start, d + [c])
    ensures HardTotal(d) < 17 && HardTotal(d) < HardTotal(d + [c])
  {
    DealerDrawKeepsPrefix(start, d, c);
    DealerDrawBelow17(start, d, c);
    HardTotalAppend(d, c);
  }

  lemma DealerDrawKeepsPrefix(start: Hand, d: Hand, c: Card)
    requires |start| <= |d| && d[..|start|] == start && ValidHand(d[|start|..]) && ValidCard(c)
    ensures (d + [c])[..|start|] == start && ValidHand((d + [c])[|start|..])
  {
    assert (d + [c])[..|start|] == d[..|start|];
    assert (d + [c])[|start|..] == d[|start|..] + [c];
  }

  lemma DealerDrawBelow17(start: Hand, d: Hand, c: Card)
    requires |start| <= |d| && Total(d) < 17
    requires forall k :: |start| <= k < |d| ==> Total(d[..k]) < 17
    ensures forall k :: |start| <= k < |d| + 1 ==> Total((d + [c])[..k]) < 17
  {
    forall k | |start| <= k < |d| + 1 ensures Total((d + [c])[..k]) < 17 {
      if k < |d| {
        assert (d + [c])[..k] == d[..k];
      } else {
        assert (d + [c])[..k] == d;
      }
    }
  }

  /** dealerPlay: copy the hand and draw until the total reaches 17. */
  method DealerPlay(start: Hand) returns (d: Hand)
    ensures DealerDone(start, d)
  {
    d := start;
    assert d[|start|..] == [];
    var t := HandTotal(d);
    while t < 17
      invariant DealerDrawing(start, d)
      invariant t == Total(d)
      decreases 17 - HardTotal(d)
    {
      var c := DrawCard();
      DealerDraw(start, d, c);
      d := d + [c];
      t := HandTotal(d);
    }
  }

  /** A hand already at 17 or more is left exactly as it is. */
  lemma DealerDoneStandsAt17(start: Hand, d: Hand)
    requires Total(start) >= 17
    ensures DealerDone(start, d) <==> d == start
  {
    if d == start {
      assert d[|start|..] == [];
    }
  }

  /** Idempotence: playing the dealer again on a finished hand adds nothing. */
  lemma DealerPlayIdempotent(start: Hand, d: Hand, e: Hand)
    requires DealerDone(start, d) && DealerDone(d, e)
    ensures e == d
  {
    DealerDoneStandsAt17(d, e);
  }

  /** A finished dealer hand built on valid cards is itself valid. */
  lemma DealerDoneValid(start: Hand, d: Hand)
    requires ValidHand(start) && DealerDone(start, d)
    ensures ValidHand(d)
  {
    assert d == d[..|start|] + d[|start|..];
  }
}
