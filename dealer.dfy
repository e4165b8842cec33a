/** The dealer's play-out (CardGame.js, the loop in handleStand): draw while
    the hand is worth less than 17, stand on 17 or more, soft 17 included. */
module Dealer {

  import opened Cards
  import opened Hands

  /** The card source: the i-th card the game draws. The program picks each
      card uniformly at random; here the caller supplies the sequence. */
  type Draws = nat -> Rank

  /** The n cards drawn from position `from` on, in order. */
  function Dealt(draws: Draws, from: nat, n: nat): (s: Hand)
    ensures |s| == n
    ensures forall i :: 0 <= i < n ==> s[i] == draws(from + i)
  {
    if n == 0 then [] else Dealt(draws, from, n - 1) + [draws(from + n - 1)]
  }

  /** Every one of the first n draws was made while the hand was worth less
      than 17. */
  ghost predicate DrewOnlyBelow17(hand: Hand, draws: Draws, from: nat, n: nat)
  {
    forall k :: 0 <= k < n ==> HandValue(hand + Dealt(draws, from, k)) < 17
  }

  lemma StillDrawing(hand: Hand, draws: Draws, from: nat, n: nat)
    requires DrewOnlyBelow17(hand, draws, from, n)
    requires HandValue(hand + Dealt(draws, from, n)) < 17
    ensures DrewOnlyBelow17(hand, draws, from, n + 1)
  {
  }

  /** Plays the dealer's hand out with the cards from position `from` on;
      returns the final hand, the number of cards taken and the final value.
      The loop ends because every draw adds at least 1 to the hard total,
      which never exceeds the value of the hand. */
  method DealerPlay(hand: Hand, draws: Draws, from: nat) returns (final: Hand, taken: nat, dealerValue: int)
    ensures |final| == |hand| + taken && final[..|hand|] == hand
    ensures final == hand + Dealt(draws, from, taken)
    ensures dealerValue == HandValue(final) && dealerValue >= 17
    ensures DrewOnlyBelow17(hand, draws, from, taken)
    ensures HandValue(hand) >= 17 ==> taken == 0
    ensures taken == 0 || HardTotal(hand) + taken <= 17
    ensures taken > 0 ==> HandValue(final) <= 26
  {
    dealerValue := CalculateHandValue(hand);
    final := hand;
    taken := 0;
    assert hand + Dealt(draws, from, 0) == hand;
    while dealerValue < 17
      invariant final == hand + Dealt(draws, from, taken)
      invariant dealerValue == HandValue(final)
      invariant DrewOnlyBelow17(hand, draws, from, taken)
      decreases 17 - HardTotal(final)
    {
      DrawStep(hand, draws, from, taken);
      StillDrawing(hand, draws, from, taken);
      final := final + [draws(from + taken)];
      taken := taken + 1;
      dealerValue := CalculateHandValue(final);
    }
    if taken > 0 {
      PlayOutBounds(hand, draws, from, taken);
    }
  }

  /** The hard total grows by at least 1 per card drawn. */
  lemma {:induction false} HardTotalGrows(hand: Hand, draws: Draws, from: nat, n: nat)
    ensures HardTotal(hand + Dealt(draws, from, n)) >= HardTotal(hand) + n
  {
    if n == 0 {
      assert hand + Dealt(draws, from, 0) == hand;
    } else {
      HardTotalGrows(hand, draws, from, n - 1);
      DrawStep(hand, draws, from, n - 1);
    }
  }

  /** A play-out that drew n > 0 cards, each below 17, drew at most 17 minus
      the starting hard total cards and ends at 26 or less. */
  lemma PlayOutBounds(hand: Hand, draws: Draws, from: nat, n: nat)
    requires n > 0 && DrewOnlyBelow17(hand, draws, from, n)
    ensures HardTotal(hand) + n <= 17
    ensures HandValue(hand + Dealt(draws, from, n)) <= 26
  {
    assert HandValue(hand + Dealt(draws, from, n - 1)) < 17;
    HardTotalGrows(hand, draws, from, n - 1);
    DrawStep(hand, draws, from, n - 1);
  }

  /** One draw of the play-out: the hand grows by the next card, the hard
      total by at least 1, and the value stays within 10 of the value before
      unless it stops short of bust. */
  lemma DrawStep(hand: Hand, draws: Draws, from: nat, n: nat)
    ensures hand + Dealt(draws, from, n + 1) == (hand + Dealt(draws, from, n)) + [draws(from + n)]
    ensures HardTotal(hand + Dealt(draws, from, n + 1)) >= HardTotal(hand + Dealt(draws, from, n)) + 1
    ensures HandValue(hand + Dealt(draws, from, n + 1)) <= 21
         || HandValue(hand + Dealt(draws, from, n + 1)) <= HandValue(hand + Dealt(draws, from, n)) + 10
  {
    var before := hand + Dealt(draws, from, n);
    var card := draws(from + n);
    assert hand + Dealt(draws, from, n + 1) == before + [card];
    AppendCard(before, card);
    DrawRaisesValueByAtMostTen(before, card);
  }
}
