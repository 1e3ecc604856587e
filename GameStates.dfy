/** The game aggregate: the shoe, the two hands and the phase of the round. */
module GameStates {
  import opened Hands
  import opened Decks

  /** The phases of one round, PlayerTurn first and Finished last. */
  datatype Phase = PlayerTurn | DealerTurn | Finished

  class GameState {
    var deck: Deck
    var playerHand: Hand
    var dealerHand: Hand
    var phase: Phase

    /** The hands are two distinct objects and the shoe is a valid single deck. */
    ghost predicate Valid()
      reads this, deck
    {
      playerHand != dealerHand && deck.numberOfDecks == 1 && deck.Valid()
    }

    /** Same outcome as Reset: a fresh single-deck shoe, empty hands, the
        player's turn. No cards are dealt here. */
    constructor ()
      ensures Valid() && fresh(deck) && fresh(playerHand) && fresh(dealerHand)
      ensures phase == PlayerTurn
      ensures playerHand.cards == [] && dealerHand.cards == []
      ensures |deck.cards| == 52 && multiset(deck.cards) == multiset(OneDeck())
    {
      deck := new Deck(1);
      playerHand := new Hand();
      dealerHand := new Hand();
      phase := PlayerTurn;
    }

    /** Replaces the shoe by a new single deck and both hands by new empty
        ones, and sets the phase to PlayerTurn. */
    method Reset()
      modifies this
      ensures Valid() && fresh(deck) && fresh(playerHand) && fresh(dealerHand)
      ensures phase == PlayerTurn
      ensures playerHand.cards == [] && dealerHand.cards == []
      ensures |deck.cards| == 52 && multiset(deck.cards) == multiset(OneDeck())
    {
      deck := new Deck(1);
      playerHand := new Hand();
      dealerHand := new Hand();
      phase := PlayerTurn;
    }

    /** Changes the phase and nothing else. */
    method SetPhase(phase: Phase)
      modifies this`phase
      ensures this.phase == phase
    {
      this.phase := phase;
    }
  }
}
