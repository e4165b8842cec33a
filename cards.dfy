/** Card ranks and their blackjack points (CardGame.js, getCardValue and the
    symbol list of getRandomCard). */
module Cards {

  import opened Wrappers

  /** The thirteen ranks of the infinite shoe; suits play no part. */
  datatype Rank = Two | Three | Four | Five | Six | Seven | Eight | Nine | Ten
                | Jack | Queen | King | Ace

  /** The symbol the program uses for a rank. */
  function Symbol(r: Rank): string
  {
    match r
    case Two => "2"
    case Three => "3"
    case Four => "4"
    case Five => "5"
    case Six => "6"
    case Seven => "7"
    case Eight => "8"
    case Nine => "9"
    case Ten => "10"
    case Jack => "J"
    case Queen => "Q"
    case King => "K"
    case Ace => "A"
  }

  /** The thirteen symbols in the order the draw lists them. */
  const Symbols: seq<string> := ["2", "3", "4", "5", "6", "7", "8", "9", "10", "J", "Q", "K", "A"]

  /** Reads a symbol back as a rank; anything outside the thirteen symbols is
      not a rank. */
  function ParseRank(s: string): (r: Option<Rank>)
    ensures r.Some? <==> s in Symbols
    ensures r.Some? ==> Symbol(r.value) == s
  {
    match s
    case "2" => Some(Two)
    case "3" => Some(Three)
    case "4" => Some(Four)
    case "5" => Some(Five)
    case "6" => Some(Six)
    case "7" => Some(Seven)
    case "8" => Some(Eight)
    case "9" => Some(Nine)
    case "10" => Some(Ten)
    case "J" => Some(Jack)
    case "Q" => Some(Queen)
    case "K" => Some(King)
    case "A" => Some(Ace)
    case _ => None
  }

  /** Reading back the symbol of a rank gives the rank; so every rank has its
      own symbol, and the symbols are exactly those of the draw. */
  lemma SymbolRoundTrip(r: Rank)
    ensures ParseRank(Symbol(r)) == Some(r)
    ensures Symbol(r) in Symbols
  {
  }

  /** Points of one card: court cards 10, the Ace 11 (it may later be
      softened to 1 by the hand valuation), a number card its face value. */
  function CardValue(r: Rank): (v: int)
    ensures 2 <= v <= 11
    ensures v == 11 <==> r == Ace
    ensures v == 10 <==> r in {Ten, Jack, Queen, King}
  {
    match r
    case Jack | Queen | King => 10
    case Ace => 11
    case Two => 2
    case Three => 3
    case Four => 4
    case Five => 5
    case Six => 6
    case Seven => 7
    case Eight => 8
    case Nine => 9
    case Ten => 10
  }

  /** The value of a decimal numeral, as the program's integer parse reads
      the symbol of a number card. */
  function DecimalValue(s: string): nat
  {
    if s == [] then 0
    else
      var c := s[|s| - 1];
      DecimalValue(s[..|s| - 1]) * 10 + (if '0' <= c <= '9' then c as int - '0' as int else 0)
  }

  /** For a number card, the points are the number its symbol spells. */
  lemma NumberCardIsFaceValue(r: Rank)
    requires r !in {Jack, Queen, King, Ace}
    ensures CardValue(r) == DecimalValue(Symbol(r))
  {
    if r == Ten {
      assert Symbol(r)[..1] == "1";
      assert DecimalValue("1") == 1 by {
        assert "1"[..0] == "";
      }
    } else {
      assert Symbol(r)[..0] == "";
    }
  }

  /** The points a card counts when every Ace counts 1. */
  function HardValue(r: Rank): (v: int)
    ensures 1 <= v <= 10
  {
    if r == Ace then 1 else CardValue(r)
  }
}
