/** The round state of the game component (CardGame.js, BlackjackGame): the
    two hands, whether a round has started and whether it is over, and the
    result shown at its end. The card source is a fixed stream of draws with
    a cursor, standing in for the program's random pick. */
module Game {

  import opened Wrappers
  import opened Cards
  import opened Hands
  import opened Dealer
  import opened Outcomes

  class BlackjackGame {
    /** The cards the game will draw, in order. */
    const draws: Draws
    /** How many cards have been drawn so far. */
    var drawn: nat
    var playerHand: Hand
    var dealerHand: Hand
    var gameStarted: bool
    var gameOver: bool
    /** The result message: none while a round is on, else its outcome. */
    var outcome: Option<Outcome>

    /** What holds between the handlers: before the first deal nothing is
        dealt; a round in play has an un-busted player; a finished round has
        an outcome that matches its hands. */
    ghost predicate Valid()
      reads this
    {
      && (!gameStarted ==> playerHand == [] && dealerHand == [] && !gameOver)
      && (gameStarted ==> |playerHand| >= 2 && |dealerHand| >= 2)
      && (gameOver <==> outcome.Some?)
      && (!gameOver ==> HandValue(playerHand) <= 21)
      && (outcome == Some(PlayerBust) <==> gameOver && HandValue(playerHand) > 21)
      && (gameOver && outcome != Some(PlayerBust) ==>
            HandValue(dealerHand) >= 17 &&
            outcome == Some(Resolve(HandValue(playerHand), HandValue(dealerHand))))
    }

    /** The component's initial state: empty hands, no round, no message. */
    constructor (draws: Draws)
      ensures Valid()
      ensures this.draws == draws && drawn == 0
      ensures playerHand == [] && dealerHand == []
      ensures !gameStarted && !gameOver && outcome == None
    {
      this.draws := draws;
      drawn := 0;
      playerHand := [];
      dealerHand := [];
      gameStarted := false;
      gameOver := false;
      outcome := None;
    }

    /** getRandomCard: the next card of the stream. */
    method DrawCard() returns (card: Rank)
      modifies this`drawn
      ensures card == draws(old(drawn))
      ensures drawn == old(drawn) + 1
    {
      card := draws(drawn);
      drawn := drawn + 1;
    }

    /** startGame (also what restart and closing the result do): two cards
        to the player, then two to the dealer; the round is on and the
        player is never dealt a bust. */
    method StartGame()
      modifies this
      ensures Valid()
      ensures playerHand == [draws(old(drawn)), draws(old(drawn) + 1)]
      ensures dealerHand == [draws(old(drawn) + 2), draws(old(drawn) + 3)]
      ensures drawn == old(drawn) + 4
      ensures gameStarted && !gameOver && outcome == None
      ensures HandValue(playerHand) <= 21
    {
      var p1 := DrawCard();
      var p2 := DrawCard();
      playerHand := [p1, p2];
      var d1 := DrawCard();
      var d2 := DrawCard();
      dealerHand := [d1, d2];
      gameOver := false;
      outcome := None;
      gameStarted := true;
      TwoCardHandNotBust(p1, p2);
    }

    /** handleHit: the player takes the next card; the round ends as a
        player bust exactly when the new hand is worth more than 21. The
        hit button is only offered during a round in play. */
    method Hit()
      requires Valid() && gameStarted && !gameOver
      modifies this
      ensures Valid()
      ensures playerHand == old(playerHand) + [draws(old(drawn))]
      ensures drawn == old(drawn) + 1
      ensures dealerHand == old(dealerHand) && gameStarted
      ensures gameOver <==> HandValue(playerHand) > 21
      ensures outcome == if gameOver then Some(PlayerBust) else None
    {
      var card := DrawCard();
      var newHand := playerHand + [card];
      playerHand := newHand;
      var playerValue := CalculateHandValue(newHand);
      if playerValue > 21 {
        outcome := Some(PlayerBust);
        gameOver := true;
      }
    }

    /** handleStand: the dealer plays out from the next cards, then the two
        values are compared; the round is over and never a player bust. The
        stand button is only offered during a round in play. */
    method Stand()
      requires Valid() && gameStarted && !gameOver
      modifies this
      ensures Valid()
      ensures drawn >= old(drawn)
      ensures dealerHand == old(dealerHand) + Dealt(draws, old(drawn), drawn - old(drawn))
      ensures DrewOnlyBelow17(old(dealerHand), draws, old(drawn), drawn - old(drawn))
      ensures HandValue(dealerHand) >= 17
      ensures playerHand == old(playerHand) && gameStarted && gameOver
      ensures HandValue(playerHand) <= 21
      ensures outcome == Some(Resolve(HandValue(playerHand), HandValue(dealerHand)))
      ensures outcome != Some(PlayerBust)
    {
      var newHand, taken, dealerValue := DealerPlay(dealerHand, draws, drawn);
      drawn := drawn + taken;
      dealerHand := newHand;
      var playerValue := CalculateHandValue(playerHand);
      outcome := Some(Resolve(playerValue, dealerValue));
      gameOver := true;
    }
  }
}
