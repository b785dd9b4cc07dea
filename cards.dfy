/**
 * Cards as the game represents them: a suit and a rank, both closed unions of
 * string literals in the source, here datatypes. `hidden` is a display flag
 * and is not modelled.
 */
module Cards {

  datatype Suit = Hearts | Diamonds | Clubs | Spades

  datatype Rank = Two | Three | Four | Five | Six | Seven | Eight | Nine | Ten
                | Jack | Queen | King | Ace

  datatype Card = Card(suit: Suit, rank: Rank)

  /** The suits and ranks in the order in which the deck is generated. */
  const AllSuits: seq<Suit> := [Hearts, Diamonds, Clubs, Spades]
  const AllRanks: seq<Rank> := [Two, Three, Four, Five, Six, Seven, Eight, Nine, Ten,
                                Jack, Queen, King, Ace]

  /** The numeric value of a rank: face value for 2..10, then J=11, Q=12, K=13, A=14. */
  function RankValue(r: Rank): (v: int)
    ensures 2 <= v <= 14
  {
    match r
    case Two => 2
    case Three => 3
    case Four => 4
    case Five => 5
    case Six => 6
    case Seven => 7
    case Eight => 8
    case Nine => 9
    case Ten => 10
    case Jack => 11
    case Queen => 12
    case King => 13
    case Ace => 14
  }

  /** The string the source stores for a rank; showdowns compare these strings. */
  function RankName(r: Rank): string
  {
    match r
    case Two => "2"
    case Three => "3"
    case Four => "4"
    case Five => "5"
    case Six => "6"
    case Seven => "7"
    case Eight => "8"
    case Nine => "9"
    case Ten => "10"
    case Jack => "J"
    case Queen => "Q"
    case King => "K"
    case Ace => "A"
  }

  /** The position of a suit in AllSuits. */
  function SuitIndex(s: Suit): (i: nat)
    ensures i < |AllSuits| && AllSuits[i] == s
  {
    match s
    case Hearts => 0
    case Diamonds => 1
    case Clubs => 2
    case Spades => 3
  }

  /** The position of a rank in AllRanks, which is its value minus two. */
  function RankIndex(r: Rank): (i: nat)
    ensures i < |AllRanks| && AllRanks[i] == r
    ensures i == RankValue(r) - 2
  {
    RankValue(r) - 2
  }

  /** Listed in order, the ranks take the values 2, 3, ..., 14; so the value map is injective. */
  lemma RankValueInjective()
    ensures forall i :: 0 <= i < |AllRanks| ==> RankValue(AllRanks[i]) == i + 2
    ensures forall r1: Rank, r2: Rank :: RankValue(r1) == RankValue(r2) ==> r1 == r2
  {
    forall r1: Rank, r2: Rank | RankValue(r1) == RankValue(r2)
      ensures r1 == r2
    {
      assert AllRanks[RankIndex(r1)] == r1 && AllRanks[RankIndex(r2)] == r2;
    }
  }
}
