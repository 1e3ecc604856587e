/** A participant's hand: an ordered list of cards that only grows by appending
    and is emptied between rounds. Its value is computed on demand. */
module Hands {
  import opened Cards
  import opened HandValueCalculator

  class Hand {
    var cards: seq<Card>

    /** A new hand holds no cards. */
    constructor ()
      ensures cards == []
    {
      cards := [];
    }

    /** Appends a card; the cards already held stay where they are. */
    method AddCard(card: Card)
      modifies this
      ensures cards == old(cards) + [card]
    {
      cards := cards + [card];
    }

    /** Empties the hand in place. */
    method Clear()
      modifies this
      ensures cards == []
    {
      cards := [];
    }

    /** The best Blackjack total of the cards held. */
    function Value(): (v: int)
      reads this
      ensures IsBestTotal(cards, v)
      ensures cards == [] ==> v == 0
    {
      HandValueIsBest(cards);
      HandValue(cards)
    }

    /** A natural: exactly two cards worth 21, which means one Ace and one
        ten-valued card. */
    predicate IsBlackjack()
      reads this
      ensures IsBlackjack() <==> IsNatural(cards)
      ensures IsBlackjack() ==> !IsBust()
    {
      NaturalIsAceAndTen(cards);
      |cards| == 2 && Value() == 21
    }

    /** Bust: over 21 even with every Ace counted as 1. */
    predicate IsBust()
      reads this
      ensures IsBust() <==> BaseSum(cards) > 21
    {
      Value() > 21
    }
  }

  /** Two cards: an Ace and a card worth 10, in either order. */
  predicate IsNatural(cards: seq<Card>) {
    |cards| == 2 &&
    ((cards[0].rank == Ace && IsTenValued(cards[1].rank)) ||
     (IsTenValued(cards[0].rank) && cards[1].rank == Ace))
  }

  /** A two-card hand is worth 21 exactly when it is an Ace and a ten-valued card. */
  lemma NaturalIsAceAndTen(cards: seq<Card>)
    ensures (|cards| == 2 && HandValue(cards) == 21) <==> IsNatural(cards)
  {
    if |cards| == 2 {
      assert cards[..1][..0] == [];
      assert cards[..1] == [cards[0]];
      assert BaseSum(cards) == cards[0].Value() + cards[1].Value();
      assert AceCount(cards) == (if cards[0].rank == Ace then 1 else 0) + (if cards[1].rank == Ace then 1 else 0);
    }
  }
}
