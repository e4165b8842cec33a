/** Hand valuation (CardGame.js, calculateHandValue): the raw total, the Ace
    count, and the softening of Aces from 11 to 1 while the hand is over 21. */
module Hands {

  import opened Cards

  /** A hand in draw order; it only ever grows at the end. */
  type Hand = seq<Rank>

  /** Sum of the card values, every Ace as 11 (the `reduce`, a left fold). */
  function RawTotal(h: Hand): (t: int)
    ensures 2 * |h| <= t <= 11 * |h|
  {
    if h == [] then 0 else RawTotal(h[..|h| - 1]) + CardValue(h[|h| - 1])
  }

  /** Number of Aces in the hand (the `filter`). */
  function AceCount(h: Hand): (n: nat)
    ensures n <= |h|
    ensures n == 0 <==> Ace !in h
  {
    if h == [] then 0 else AceCount(h[..|h| - 1]) + (if h[|h| - 1] == Ace then 1 else 0)
  }

  /** Sum of the card values with every Ace counted as 1. */
  function HardTotal(h: Hand): (t: int)
    ensures |h| <= t <= 10 * |h|
  {
    if h == [] then 0 else HardTotal(h[..|h| - 1]) + HardValue(h[|h| - 1])
  }

  /** The hard total is the raw total with 10 taken off for every Ace. */
  lemma {:induction false} HardTotalIsRawLessAces(h: Hand)
    ensures HardTotal(h) == RawTotal(h) - 10 * AceCount(h)
  {
    if h != [] {
      HardTotalIsRawLessAces(h[..|h| - 1]);
    }
  }

  /** The number of Aces that the valuation turns from 11 into 1: the least
      k, up to the Ace count, that brings the total to 21 or below, or the
      Ace count when none does. */
  function AcesSoftened(h: Hand): (k: nat)
    ensures k <= AceCount(h)
    ensures RawTotal(h) - 10 * k <= 21 || k == AceCount(h)
    ensures k == 0 || RawTotal(h) - 10 * (k - 1) > 21
  {
    var raw := RawTotal(h);
    if raw <= 21 then 0
    else if (raw - 12) / 10 < AceCount(h) then (raw - 12) / 10
    else AceCount(h)
  }

  /** The value of a hand: the raw total with the softened Aces counted 1. */
  function HandValue(h: Hand): (v: int)
    ensures HardTotal(h) <= v <= RawTotal(h)
    ensures v > 21 ==> v == HardTotal(h)
    ensures Ace !in h ==> v == RawTotal(h)
  {
    HardTotalIsRawLessAces(h);
    RawTotal(h) - 10 * AcesSoftened(h)
  }

  /** The value the hand would have with exactly j of its Aces counted 1. */
  function TotalWithSoftAces(h: Hand, j: nat): int
    requires j <= AceCount(h)
  {
    RawTotal(h) - 10 * j
  }

  /** The valuation picks the best total a player could choose: among all
      ways of counting the Aces, the largest one that does not bust, and
      the smallest one when every way busts. */
  lemma HandValueIsBestChoice(h: Hand, j: nat)
    requires j <= AceCount(h)
    ensures TotalWithSoftAces(h, j) <= 21 ==> TotalWithSoftAces(h, j) <= HandValue(h) <= 21
    ensures HandValue(h) > 21 ==> HandValue(h) <= TotalWithSoftAces(h, j)
  {
  }

  /** The loop of calculateHandValue: start from the raw total and the Ace
      count, then soften one Ace at a time while the total is over 21. */
  method CalculateHandValue(h: Hand) returns (value: int)
    ensures value == HandValue(h)
  {
    value := RawTotal(h);
    var numAces := AceCount(h);
    while value > 21 && numAces > 0
      invariant 0 <= numAces <= AceCount(h)
      invariant value == RawTotal(h) - 10 * (AceCount(h) - numAces)
      invariant numAces == AceCount(h) || value + 10 > 21
    {
      value := value - 10;
      numAces := numAces - 1;
    }
  }

  /** The empty hand is worth 0. */
  lemma EmptyHandIsZero()
    ensures HandValue([]) == 0
  {
  }

  /** Sum of the card values, from the front, as an independent reading of
      the fold. */
  function PlainSum(h: Hand): int
  {
    if h == [] then 0 else CardValue(h[0]) + PlainSum(h[1..])
  }

  lemma {:induction false} PlainSumAppend(h: Hand, c: Rank)
    ensures PlainSum(h + [c]) == PlainSum(h) + CardValue(c)
  {
    if h != [] {
      assert (h + [c])[1..] == h[1..] + [c];
      PlainSumAppend(h[1..], c);
    }
  }

  /** The left fold and the front-to-back sum agree. */
  lemma {:induction false} RawTotalIsPlainSum(h: Hand)
    ensures RawTotal(h) == PlainSum(h)
  {
    if h != [] {
      var init := h[..|h| - 1];
      RawTotalIsPlainSum(init);
      PlainSumAppend(init, h[|h| - 1]);
      assert init + [h[|h| - 1]] == h;
    }
  }

  /** A hand without Aces is worth the plain sum of its card values. */
  lemma NoAceHandIsPlainSum(h: Hand)
    requires Ace !in h
    ensures HandValue(h) == PlainSum(h)
  {
    RawTotalIsPlainSum(h);
  }

  /** A value over 21 means every Ace already counts 1; the value is never
      below the all-Aces-as-1 total. */
  lemma BustMeansAllAcesSoft(h: Hand)
    ensures HandValue(h) >= HardTotal(h)
    ensures HandValue(h) > 21 ==> AcesSoftened(h) == AceCount(h)
  {
    HardTotalIsRawLessAces(h);
  }

  /** With a single Ace, the Ace counts 11 unless that busts the hand, and
      then 1. */
  lemma OneAceHand(h: Hand)
    requires AceCount(h) == 1
    ensures HandValue(h) == if RawTotal(h) <= 21 then RawTotal(h) else RawTotal(h) - 10
  {
  }

  /** Hands named in the rules: two Aces, a blackjack, a 21 without an Ace and a
      bust without Aces. */
  lemma ValueExamples()
    ensures HandValue([Ace, Ace]) == 12
    ensures HandValue([King, Ace]) == 21
    ensures HandValue([Five, Six, Queen]) == 21
    ensures HandValue([Ten, Nine, Five]) == 24
  {
    assert [Ace, Ace][..1] == [Ace];
    assert [King, Ace][..1] == [King];
    assert [Five, Six, Queen][..2] == [Five, Six];
    assert [Five, Six][..1] == [Five];
    assert [Ten, Nine, Five][..2] == [Ten, Nine];
    assert [Ten, Nine][..1] == [Ten];
  }

  /** A freshly dealt two-card hand never busts: 22 needs two Aces, and one
      of them is softened. */
  lemma TwoCardHandNotBust(a: Rank, b: Rank)
    ensures HandValue([a, b]) <= 21
  {
    assert [a, b][..1] == [a];
  }

  /** Drawing a card adds its points to the raw and hard totals. */
  lemma AppendCard(h: Hand, c: Rank)
    ensures RawTotal(h + [c]) == RawTotal(h) + CardValue(c)
    ensures HardTotal(h + [c]) == HardTotal(h) + HardValue(c)
    ensures AceCount(h + [c]) == AceCount(h) + (if c == Ace then 1 else 0)
  {
    assert (h + [c])[..|h|] == h;
  }

  /** A draw can lower the value of a hand: the value is no measure of
      progress for the dealer, while the hard total is. */
  lemma DrawCanLowerValue()
    ensures HandValue([Ace, Two]) == 13
    ensures HandValue([Ace, Two, Nine]) == 12
  {
    assert [Ace, Two, Nine][..2] == [Ace, Two];
    assert [Ace, Two][..1] == [Ace];
  }

  /** After a draw the value either does not bust or is at most 10 above the
      value before: a busting hand counts every Ace as 1. */
  lemma DrawRaisesValueByAtMostTen(h: Hand, c: Rank)
    ensures HandValue(h + [c]) <= 21 || HandValue(h + [c]) <= HandValue(h) + 10
  {
    AppendCard(h, c);
  }
}
