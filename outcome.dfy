/** Deciding a round (CardGame.js, the end of handleStand and the bust check
    of handleHit). */
module Outcomes {

  /** How a round ends; the program shows each as a message. */
  datatype Outcome = PlayerBust | PlayerWin | DealerWin | Tie

  /** The comparison after the dealer stands, tried in order: a dealer bust
      is a player win, then the higher value wins, and equal values tie. */
  function Resolve(playerValue: int, dealerValue: int): (o: Outcome)
    ensures o != PlayerBust
    ensures o == PlayerWin <==> dealerValue > 21 || playerValue > dealerValue
    ensures o == DealerWin <==> dealerValue <= 21 && playerValue < dealerValue
    ensures o == Tie <==> dealerValue <= 21 && playerValue == dealerValue
  {
    if dealerValue > 21 || playerValue > dealerValue then PlayerWin
    else if playerValue < dealerValue then DealerWin
    else Tie
  }

  /** When neither side is over 21 the rule is fair: exchanging the two
      values exchanges winner and loser and keeps a tie. */
  lemma ResolveIsSymmetric(p: int, d: int)
    requires p <= 21 && d <= 21
    ensures Resolve(p, d) == PlayerWin <==> Resolve(d, p) == DealerWin
    ensures Resolve(p, d) == Tie <==> Resolve(d, p) == Tie
  {
  }

  /** The cases the rules name: a dealer bust, a higher dealer, a tie, and
      a higher player. */
  lemma ResolveExamples()
    ensures Resolve(20, 22) == PlayerWin
    ensures Resolve(18, 20) == DealerWin
    ensures Resolve(19, 19) == Tie
    ensures Resolve(21, 17) == PlayerWin
  {
  }
}
