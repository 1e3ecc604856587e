/** The dealer's house rule: hit below 17, optionally hit a soft 17, stand otherwise. */
module DealerAI {
  import opened Cards
  import opened HandValueCalculator
  import opened Hands
  import opened Decks
  import opened GameStates

  class DealerAIService {
    /** Whether the dealer hits a soft 17. */
    const hitSoft17: bool

    /** The default dealer stands on soft 17. */
    constructor ()
      ensures !hitSoft17
    {
      hitSoft17 := false;
    }

    constructor WithSoft17(hitSoft17: bool)
      ensures this.hitSoft17 == hitSoft17
    {
      this.hitSoft17 := hitSoft17;
    }

    /** Soft 17: at least one Ace and an all-Aces-low sum of 7, that is, a
        total of 17 reached only by counting an Ace as 11. */
    predicate IsSoft17(hand: Hand)
      reads hand
      ensures IsSoft17(hand) <==> hand.Value() == 17 && hand.Value() != BaseSum(hand.cards)
    {
      var baseSum := BaseSum(hand.cards);
      var aceCount := AceCount(hand.cards);
      aceCount > 0 && baseSum + 10 == 17
    }

    /** The dealer's decision for the given hand. */
    predicate ShouldHit(hand: Hand)
      reads hand
      ensures hand.Value() < 17 ==> ShouldHit(hand)
      ensures hand.Value() > 17 ==> !ShouldHit(hand)
      ensures hand.Value() == 17 ==> (ShouldHit(hand) <==> hitSoft17 && IsSoft17(hand))
      ensures !hitSoft17 ==> (ShouldHit(hand) <==> hand.Value() < 17)
      ensures ShouldHit(hand) ==> BaseSum(hand.cards) <= 17 && !hand.IsBust()
      ensures ShouldHit(hand) == HitsOn(hand.cards)
    {
      var value := hand.Value();
      if value < 17 then true
      else if value == 17 && hitSoft17 && IsSoft17(hand) then true
      else false
    }

    /** The house rule on a list of cards: hit below 17, and on a soft 17
        when the dealer hits soft 17s. */
    predicate HitsOn(cards: seq<Card>) {
      var value := HandValue(cards);
      value < 17 || (value == 17 && hitSoft17 && AceCount(cards) > 0 && BaseSum(cards) + 10 == 17)
    }

    /** Every card from position n0 on was drawn while the rule said hit on
        the cards before it. */
    predicate HitBeforeEach(cards: seq<Card>, n0: nat)
      decreases |cards|
    {
      |cards| <= n0 || (HitBeforeEach(cards[..|cards| - 1], n0) && HitsOn(cards[..|cards| - 1]))
    }

    /** HitBeforeEach, stated card by card. */
    lemma {:induction false} HitBeforeEachMeans(cards: seq<Card>, n0: nat)
      ensures HitBeforeEach(cards, n0) <==> forall k :: n0 <= k < |cards| ==> HitsOn(cards[..k])
      decreases |cards|
    {
      if |cards| > n0 {
        var init := cards[..|cards| - 1];
        HitBeforeEachMeans(init, n0);
        assert cards[..|init|] == init;
        assert forall k :: n0 <= k < |init| ==> init[..k] == cards[..k];
      }
    }

    /** A card drawn while the rule says hit keeps every drawn card justified. */
    lemma HitStep(cards: seq<Card>, n0: nat, after: seq<Card>)
      requires HitBeforeEach(cards, n0) && HitsOn(cards) && n0 <= |cards|
      requires |after| == |cards| + 1 && after[..|cards|] == cards
      ensures HitBeforeEach(after, n0)
    {
    }

    /** Draws cards into the dealer's hand while the rule says hit. Every draw
        adds at least 1 to the all-Aces-low sum, so the loop ends. */
    method PlayDealer(state: GameState)
      requires state.Valid()
      modifies state.deck, state.dealerHand
      ensures state.Valid()
      ensures |old(state.dealerHand.cards)| <= |state.dealerHand.cards|
      ensures state.dealerHand.cards[..|old(state.dealerHand.cards)|] == old(state.dealerHand.cards)
      ensures !ShouldHit(state.dealerHand)
      ensures DrawnFromTop(old(state.deck.cards),
                           state.dealerHand.cards[|old(state.dealerHand.cards)|..], state.deck.cards)
      ensures HitBeforeEach(state.dealerHand.cards, |old(state.dealerHand.cards)|)
    {
      var dealerHand := state.dealerHand;
      ghost var n0, shoe := |dealerHand.cards|, state.deck.cards;
      assert dealerHand.cards[n0..] == [];
      DrawnNothing(shoe);
      while ShouldHit(dealerHand)
        invariant state.Valid()
        invariant |old(dealerHand.cards)| <= |dealerHand.cards|
        invariant dealerHand.cards[..|old(dealerHand.cards)|] == old(dealerHand.cards)
        invariant DrawnFromTop(shoe, dealerHand.cards[n0..], state.deck.cards)
        invariant HitBeforeEach(dealerHand.cards, n0)
        decreases 22 - BaseSum(dealerHand.cards)
      {
        ghost var before := dealerHand.cards;
        Hit(state, n0, shoe);
        HitStep(before, n0, dealerHand.cards);
      }
    }
  }

  /** One draw of the dealer's loop: the shoe's top card goes to the dealer's
      hand, which raises its all-Aces-low sum, and the cards drawn since n0
      still come off the top of shoe. */
  method Hit(state: GameState, ghost n0: int, ghost shoe: seq<Card>)
    requires state.Valid()
    requires 0 <= n0 <= |state.dealerHand.cards|
    requires DrawnFromTop(shoe, state.dealerHand.cards[n0..], state.deck.cards)
    modifies state.deck, state.dealerHand
    ensures state.Valid()
    ensures state.dealerHand.cards ==
              old(state.dealerHand.cards) + [old(state.deck.cards)[|old(state.deck.cards)| - 1]]
    ensures BaseSum(state.dealerHand.cards) > BaseSum(old(state.dealerHand.cards))
    ensures state.dealerHand.cards[..n0] == old(state.dealerHand.cards)[..n0]
    ensures DrawnFromTop(shoe, state.dealerHand.cards[n0..], state.deck.cards)
    ensures |old(state.deck.cards)| - 1 < LowWaterMark ==> FreshSingleDeck(state.deck.cards)
  {
    ghost var before, deck1 := state.dealerHand.cards, state.deck.cards;
    var c := DrawTop(state.deck);
    state.dealerHand.AddCard(c);
    assert state.dealerHand.cards == before + [c];
    BaseSumAppend(before, c);
    DrawnFromTopStep(shoe, before, n0, deck1, c, state.deck.cards);
  }

  /** Deck.draw on a single-deck shoe, which cannot fail: the top card. */
  method DrawTop(deck: Deck) returns (c: Card)
    requires deck.Valid() && deck.numberOfDecks == 1
    modifies deck
    ensures deck.Valid()
    ensures 0 < |old(deck.cards)| && c == old(deck.cards)[|old(deck.cards)| - 1]
    ensures DrawnFromTop(old(deck.cards), [c], deck.cards)
    ensures |old(deck.cards)| - 1 < LowWaterMark ==> FreshSingleDeck(deck.cards)
  {
    assert OrderedShoe(1) == OneDeck();
    var card := deck.Draw();
    c := card.value;
  }
}
