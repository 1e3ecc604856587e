/** Playing cards: the immutable (suit, rank) value type and its rank table. */
module Cards {

  datatype Suit = Clubs | Diamonds | Hearts | Spades

  /** The thirteen ranks, in the order ACE .. KING. */
  datatype Rank = Ace | Two | Three | Four | Five | Six | Seven | Eight | Nine | Ten | Jack | Queen | King

  /** A card is a value: suit and rank are fixed when it is built, and two cards
      are equal exactly when their suits and ranks are. */
  datatype Card = Card(suit: Suit, rank: Rank) {
    /** The numeric value of the card's rank. */
    function Value(): (v: int)
      ensures 1 <= v <= 10
      ensures v == 1 <==> rank == Ace
    {
      RankValue(rank)
    }
  }

  /** Every suit, in declaration order (the order the shoe is built in). */
  const AllSuits: seq<Suit> := [Clubs, Diamonds, Hearts, Spades]

  /** Every rank, in declaration order. */
  const AllRanks: seq<Rank> := [Ace, Two, Three, Four, Five, Six, Seven, Eight, Nine, Ten, Jack, Queen, King]

  /** Position of a rank in the enumeration (ACE is 0, KING is 12). */
  function Ordinal(r: Rank): (k: nat)
    ensures k < |AllRanks| && AllRanks[k] == r
  {
    match r
    case Ace => 0
    case Two => 1
    case Three => 2
    case Four => 3
    case Five => 4
    case Six => 5
    case Seven => 6
    case Eight => 7
    case Nine => 8
    case Ten => 9
    case Jack => 10
    case Queen => 11
    case King => 12
  }

  /** Position of a suit in the enumeration. */
  function SuitOrdinal(s: Suit): (k: nat)
    ensures k < |AllSuits| && AllSuits[k] == s
  {
    match s
    case Clubs => 0
    case Diamonds => 1
    case Hearts => 2
    case Spades => 3
  }

  predicate IsTenValued(r: Rank) {
    r == Ten || r == Jack || r == Queen || r == King
  }

  /** Position i of the rank list holds the rank whose position is i. */
  lemma OrdinalAt(i: int)
    requires 0 <= i < |AllRanks|
    ensures Ordinal(AllRanks[i]) == i
  {
  }

  /** The rank table: ACE counts 1, TWO..NINE their face value, TEN and the
      court cards 10. Stated against the rank's position: the value is the
      position plus one, capped at 10. */
  function RankValue(r: Rank): (v: int)
    ensures 1 <= v <= 10
    ensures v == if Ordinal(r) + 1 < 10 then Ordinal(r) + 1 else 10
    ensures v == 1 <==> r == Ace
    ensures v == 10 <==> IsTenValued(r)
  {
    match r
    case Ace => 1
    case Two => 2
    case Three => 3
    case Four => 4
    case Five => 5
    case Six => 6
    case Seven => 7
    case Eight => 8
    case Nine => 9
    case Ten => 10
    case Jack => 10
    case Queen => 10
    case King => 10
  }

  /** The rank table is onto 1..10: each value in range is the value of some rank. */
  lemma RankValueOnto(v: int)
    requires 1 <= v <= 10
    ensures exists r :: RankValue(r) == v
  {
    assert RankValue(AllRanks[v - 1]) == v;
  }

  /** Card equality is structural: reflexive, symmetric, and decided by rank and suit. */
  lemma CardEquality(a: Card, b: Card)
    ensures a == b <==> a.rank == b.rank && a.suit == b.suit
    ensures a == a
    ensures a == b ==> b == a
  {
  }
}
