# Blackjack rules engine

A Dafny model of the rules engine of a single-player blackjack game for
mobile (`CardGame.js`). The engine values cards and hands, softens Aces from
11 to 1 while a hand is over 21, plays the dealer's hand out (draw below 17,
stand on any 17, soft 17 included), and decides a round. The game component
deals two cards to each side, lets the player hit or stand, and shows a
result.

Modules, one file each:

- `Cards` (`cards.dfy`): the thirteen ranks, their symbols and their points.
- `Hands` (`hands.dfy`): raw total, Ace count, hard total; the hand value as a
  closed-form specification (`HandValue`) and as the source's softening loop
  (`CalculateHandValue`), proved equal.
- `Dealer` (`dealer.dfy`): the dealer's draw loop over a caller-supplied draw
  stream, with the hard total as its termination measure.
- `Outcomes` (`outcome.dfy`): the outcome of a round.
- `Game` (`game.dfy`): the component's state (`playerHand`, `dealerHand`,
  `gameStarted`, `gameOver`, the result message) as a class whose methods are
  the `startGame`, `handleHit` and `handleStand` handlers.
- `Wrappers` (`wrappers.dfy`): an `Option` type.

The random card pick is replaced by a stream `Draws = nat -> Rank` fixed when
the game is built, plus a cursor `drawn`. The program's shoe is infinite, so
the model never runs out of cards.

The hand value does not rise with every draw. `Hands.DrawCanLowerValue`
shows that A,2 is worth 13 and A,2,9 only 12. So the dealer loop's
termination measure is 17 minus the hard total (every Ace counted as 1).
That total rises by at least 1 per draw and is never above the hand value.

`Outcomes.Resolve` is total over all pairs of values, as the comparison in
the source is. It is only reached with a player value of 21 or less, because
a bust ends the round in `handleHit` first. `Game.BlackjackGame.Stand` states
this.

## Model

| member | source | states |
|---|---|---|
| `Cards.CardValue` | CardGame.js:6-10 | every card is worth 2 to 11; 11 exactly for the Ace; 10 exactly for 10, J, Q, K |
| `Cards.NumberCardIsFaceValue` | CardGame.js:9 | a number card is worth the integer its symbol spells |
| `Cards.ParseRank` | CardGame.js:24 | a string reads as a rank exactly when it is one of the thirteen symbols, and then it is that rank's symbol |
| `Cards.SymbolRoundTrip` | CardGame.js:24 | reading back a rank's symbol gives the rank |
| `Hands.RawTotal` | CardGame.js:13 | the raw sum of a hand lies between 2 and 11 points per card |
| `Hands.AceCount` | CardGame.js:14 | the Ace count is at most the hand size and is 0 exactly when the hand has no Ace |
| `Hands.HardTotalIsRawLessAces` | CardGame.js:13-19 | the all-Aces-as-1 total is the raw sum less 10 per Ace |
| `Hands.AcesSoftened` | CardGame.js:16-19 | the number of softened Aces is the least k up to the Ace count that brings the total to 21 or below, or the Ace count when none does |
| `Hands.HandValue` | CardGame.js:12-21 | the value lies between the hard total and the raw sum; a value over 21 is the hard total; without Aces it is the raw sum |
| `Hands.CalculateHandValue` | CardGame.js:12-21 | the softening loop returns exactly the specified hand value |
| `Hands.HandValueIsBestChoice` | CardGame.js:16-19 | the value is the largest non-busting total over all ways of counting Aces, or the smallest when all bust |
| `Hands.BustMeansAllAcesSoft` | CardGame.js:16-19 | the value is never below the hard total, and over 21 means every Ace counts 1 |
| `Hands.EmptyHandIsZero` | CardGame.js:13-20 | the empty hand is worth 0 |
| `Hands.NoAceHandIsPlainSum` | CardGame.js:13-20 | a hand without Aces is worth the plain sum of its cards |
| `Hands.OneAceHand` | CardGame.js:16-19 | a lone Ace counts 11 unless that busts, then 1 |
| `Hands.ValueExamples` | CardGame.js:12-21 | A,A is 12; K,A is 21; 5,6,Q is 21; 10,9,5 is 24 |
| `Hands.TwoCardHandNotBust` | CardGame.js:38 | a dealt two-card hand is never over 21 |
| `Hands.AppendCard` | CardGame.js:66 | a drawn card adds its points to the raw and hard totals and its Ace to the count |
| `Hands.DrawCanLowerValue` | CardGame.js:65-68 | a draw can lower the hand value (A,2 is 13; A,2,9 is 12) |
| `Hands.DrawRaisesValueByAtMostTen` | CardGame.js:65-68 | after a draw the value is 21 or less, or at most 10 above the value before |
| `Dealer.Dealt` | CardGame.js:23-26 | the n cards taken from a position of the draw stream, in order |
| `Dealer.DrawStep` | CardGame.js:65-68 | one draw extends the hand by the next card and raises the hard total by at least 1 |
| `Dealer.HardTotalGrows` | CardGame.js:65-68 | after n draws the hard total is at least n above where it started |
| `Dealer.PlayOutBounds` | CardGame.js:65-68 | a play-out that drew n cards, each below 17, drew at most 17 minus the starting hard total and ends at 26 or less |
| `Dealer.DealerPlay` | CardGame.js:62-70 | the play-out keeps the dealer's cards and only appends the next cards of the stream; it ends at 17 or more; every draw was made below 17; nothing is drawn from 17 up; at most 17 minus the hard total cards are drawn; a hand that drew ends at 26 or less |
| `Outcomes.Resolve` | CardGame.js:72-79 | player win exactly on a dealer bust or a higher player value; dealer win exactly on a higher dealer value with no dealer bust; otherwise a tie; never a player bust (Stand states that the player value it passes is 21 or less) |
| `Outcomes.ResolveIsSymmetric` | CardGame.js:73-79 | with both values at 21 or less, exchanging them exchanges winner and loser and keeps a tie |
| `Outcomes.ResolveExamples` | CardGame.js:73-79 | (20,22) is a player win, (18,20) a dealer win, (19,19) a tie, (21,17) a player win |
| `Game.BlackjackGame.constructor` | CardGame.js:29-35 | the first state has empty hands, no round and no message |
| `Game.BlackjackGame.DrawCard` | CardGame.js:23-26 | each draw takes the next card of the stream |
| `Game.BlackjackGame.StartGame` | CardGame.js:37-45 | two cards to the player, then two to the dealer; the round is on with no message, and the player is under 22 |
| `Game.BlackjackGame.Hit` | CardGame.js:47-58 | the player's hand grows by the next card at the end; the round ends as a player bust exactly when the new value is over 21 |
| `Game.BlackjackGame.Stand` | CardGame.js:60-82 | the dealer plays out from the next cards; the round is over with the outcome of the two final values, never a player bust, and the player value compared is 21 or less |

## Left out

- Rendering: JSX, styles, the modal, the hidden first dealer card and the
  result colour (`getResultColor`) are presentation only.
- The message strings: the model keeps the outcome they announce
  (`Outcomes.Outcome`) in place of the text.
- `revealDealerCard` and `modalVisible` state: display only.
- `handleRestart` and `closeModal`: `handleRestart` only calls `startGame`,
  and `closeModal` calls it after hiding the modal; `startGame` is
  `Game.BlackjackGame.StartGame`.
- `Math.random` in `getRandomCard`: randomness is replaced by the draw stream
  given to the game.
- `parseInt` on arbitrary strings: ranks are a datatype, and
  `Cards.DecimalValue` reads only the symbols of number cards.
- The React state setters apply their updates at the next render; the model
  applies them at once. No handler reads a state variable after it has set it, so
  the result is the same.
- `Card.js` and `App.js` hold no game logic.
- Hit and Stand require a round in play without an outcome, because the
  component only shows those buttons then.
