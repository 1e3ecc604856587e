/** The game orchestrator: deals a round, applies the player's hit and stand,
    plays the dealer, and feeds every card it draws to the Hi-Lo counter. */
module Games {
  import opened Cards
  import opened HandValueCalculator
  import opened Hands
  import opened Decks
  import opened GameStates
  import opened CardCounting
  import opened DealerAI

  /** after is before with cards appended. */
  predicate Extends(before: seq<Card>, after: seq<Card>) {
    |before| <= |after| && after[..|before|] == before
  }

  lemma AppendedParts(s: seq<Card>, c: Card)
    ensures Extends(s, s + [c])
    ensures (s + [c])[|s|..] == [c]
  {
    assert (s + [c])[..|s|] == s;
  }

  lemma ExtendsTransitive(a: seq<Card>, b: seq<Card>, c: seq<Card>)
    requires Extends(a, b) && Extends(b, c)
    ensures Extends(a, c)
  {
    assert c[..|a|] == c[..|b|][..|a|];
  }

  /** The order in which the opening deal draws: player, dealer, player, dealer, ... */
  function Interleave(player: seq<Card>, dealer: seq<Card>): (r: seq<Card>)
    requires |player| == |dealer|
    ensures |r| == 2 * |player|
  {
    if player == [] then []
    else Interleave(player[..|player| - 1], dealer[..|dealer| - 1]) + [player[|player| - 1], dealer[|dealer| - 1]]
  }

  lemma InterleaveAppend(player: seq<Card>, dealer: seq<Card>, p: Card, d: Card)
    requires |player| == |dealer|
    ensures Interleave(player + [p], dealer + [d]) == Interleave(player, dealer) + [p, d]
  {
    assert (player + [p])[..|player|] == player;
    assert (dealer + [d])[..|dealer|] == dealer;
  }

  /** Two rounds of the deal draw player, dealer, player, dealer. */
  lemma InterleaveTwo(player: seq<Card>, dealer: seq<Card>)
    requires |player| == 2 && |dealer| == 2
    ensures Interleave(player, dealer) == [player[0], dealer[0], player[1], dealer[1]]
  {
    assert player[..1][..0] == [] && dealer[..1][..0] == [];
  }

  /** A new round on a finished shoe of at most 12 cards first offers a reshuffle. */
  predicate OffersReshuffle(phase: Phase, shoeSize: int) {
    phase == Finished && shoeSize <= 12
  }

  /** The shoe is shuffled and the count reset before dealing: the player accepts
      the first offer, or, with fewer than 4 cards left, the second one. */
  predicate ReshufflesFirst(phase: Phase, shoeSize: int, acceptFirst: bool, acceptSecond: bool) {
    OffersReshuffle(phase, shoeSize) && (acceptFirst || (shoeSize < 4 && acceptSecond))
  }

  /** The round is not started: fewer than 4 cards and both offers declined. */
  predicate Pauses(phase: Phase, shoeSize: int, acceptFirst: bool, acceptSecond: bool) {
    OffersReshuffle(phase, shoeSize) && !acceptFirst && shoeSize < 4 && !acceptSecond
  }

  class GameService {
    var gameState: GameState
    const dealerAIService: DealerAIService
    const cardCountingService: CardCountingService

    ghost predicate Valid()
      reads this, gameState, gameState.deck, cardCountingService
    {
      gameState.Valid() && cardCountingService.Valid() && !dealerAIService.hitSoft17
    }

    /** A default dealer (stands on soft 17), a fresh counter and a fresh game state. */
    constructor ()
      ensures Valid()
      ensures gameState.phase == PlayerTurn
      ensures gameState.playerHand.cards == [] && gameState.dealerHand.cards == []
      ensures |gameState.deck.cards| == 52 && multiset(gameState.deck.cards) == multiset(OneDeck())
      ensures cardCountingService.seen == [] && cardCountingService.numberOfDecks == 1
    {
      dealerAIService := new DealerAIService();
      cardCountingService := new CardCountingService(1);
      gameState := new GameState();
    }

    /** Draws the top card into the given hand and counts it. */
    method DrawCounted(hand: Hand) returns (card: Card)
      requires Valid()
      requires hand == gameState.playerHand || hand == gameState.dealerHand
      modifies gameState.deck, hand, cardCountingService
      ensures Valid()
      ensures card == old(gameState.deck.cards)[|old(gameState.deck.cards)| - 1]
      ensures hand.cards == old(hand.cards) + [card]
      ensures cardCountingService.seen == old(cardCountingService.seen) + [card]
      ensures DrawnFromTop(old(gameState.deck.cards), [card], gameState.deck.cards)
      ensures |old(gameState.deck.cards)| - 1 < LowWaterMark ==> FreshSingleDeck(gameState.deck.cards)
    {
      assert OrderedShoe(1) == OneDeck();
      var drawn := gameState.deck.Draw();
      card := drawn.value;
      hand.AddCard(card);
      cardCountingService.UpdateCount(card);
    }

    /** Starts a round on the same shoe. The answers to the reshuffle offers
        are parameters. Unless the round is declined, both hands are cleared
        and dealt two cards each, alternately player then dealer, and the round
        ends at once if either hand is a natural. */
    method StartGame(acceptFirst: bool, acceptSecond: bool)
      requires Valid()
      modifies gameState`phase, gameState.deck, gameState.playerHand, gameState.dealerHand, cardCountingService
      ensures Valid()
      ensures Pauses(old(gameState.phase), |old(gameState.deck.cards)|, acceptFirst, acceptSecond) ==>
                gameState.phase == old(gameState.phase) &&
                unchanged(gameState.deck, gameState.playerHand, gameState.dealerHand, cardCountingService)
      ensures !Pauses(old(gameState.phase), |old(gameState.deck.cards)|, acceptFirst, acceptSecond) ==>
                var player, dealer := gameState.playerHand.cards, gameState.dealerHand.cards;
                && |player| == 2 && |dealer| == 2
                && gameState.phase == (if gameState.playerHand.IsBlackjack() || gameState.dealerHand.IsBlackjack()
                                       then Finished else PlayerTurn)
                && cardCountingService.seen ==
                     (if ReshufflesFirst(old(gameState.phase), |old(gameState.deck.cards)|, acceptFirst, acceptSecond)
                      then [] else old(cardCountingService.seen)) + [player[0], dealer[0], player[1], dealer[1]]
      ensures !Pauses(old(gameState.phase), |old(gameState.deck.cards)|, acceptFirst, acceptSecond) ==>
                var player, dealer := gameState.playerHand.cards, gameState.dealerHand.cards;
                var dealt := [player[0], dealer[0], player[1], dealer[1]];
                && (|old(gameState.deck.cards)| - 4 >= LowWaterMark ==>
                      multiset(gameState.deck.cards) + multiset(dealt) == multiset(old(gameState.deck.cards)))
                && (!ReshufflesFirst(old(gameState.phase), |old(gameState.deck.cards)|, acceptFirst, acceptSecond) ==>
                      player[0] == old(gameState.deck.cards)[|old(gameState.deck.cards)| - 1] &&
                      DrawnFromTop(old(gameState.deck.cards), dealt, gameState.deck.cards))
    {
      var start := OfferReshuffle(acceptFirst, acceptSecond);
      if start {
        ghost var shoe := gameState.deck.cards;
        DealRound();
        if |shoe| - 4 >= LowWaterMark {
          ghost var player, dealer := gameState.playerHand.cards, gameState.dealerHand.cards;
          DrawnFromTopSplit(shoe, [player[0], dealer[0], player[1], dealer[1]], gameState.deck.cards);
        }
      }
    }

    /** The reshuffle offers made before a round on a finished, low shoe;
        start is false when the round is declined. */
    method OfferReshuffle(acceptFirst: bool, acceptSecond: bool) returns (start: bool)
      requires Valid()
      modifies gameState.deck, cardCountingService
      ensures Valid()
      ensures start == !Pauses(gameState.phase, |old(gameState.deck.cards)|, acceptFirst, acceptSecond)
      ensures ReshufflesFirst(gameState.phase, |old(gameState.deck.cards)|, acceptFirst, acceptSecond) ==>
                cardCountingService.seen == [] &&
                multiset(gameState.deck.cards) == multiset(old(gameState.deck.cards)) &&
                |gameState.deck.cards| == |old(gameState.deck.cards)|
      ensures !ReshufflesFirst(gameState.phase, |old(gameState.deck.cards)|, acceptFirst, acceptSecond) ==>
                unchanged(gameState.deck, cardCountingService)
    {
      start := true;
      if gameState.phase == Finished && gameState.deck.Size() <= 12 {
        if acceptFirst {
          ShuffleDeck();
        } else {
          var remaining := gameState.deck.Size();
          if remaining < 4 {
            if acceptSecond {
              ShuffleDeck();
            } else {
              start := false;
            }
          }
        }
      }
    }

    /** One round of the opening deal: a card to the player, then one to the
        dealer, each counted as it is drawn. */
    method DealPair() returns (playerCard: Card, dealerCard: Card)
      requires Valid()
      modifies gameState.deck, gameState.playerHand, gameState.dealerHand, cardCountingService
      ensures Valid()
      ensures gameState.playerHand.cards == old(gameState.playerHand.cards) + [playerCard]
      ensures gameState.dealerHand.cards == old(gameState.dealerHand.cards) + [dealerCard]
      ensures cardCountingService.seen == old(cardCountingService.seen) + [playerCard, dealerCard]
      ensures playerCard == old(gameState.deck.cards)[|old(gameState.deck.cards)| - 1]
      ensures |old(gameState.deck.cards)| - 1 >= LowWaterMark ==>
                dealerCard == old(gameState.deck.cards)[|old(gameState.deck.cards)| - 2]
      ensures DrawnFromTop(old(gameState.deck.cards), [playerCard, dealerCard], gameState.deck.cards)
    {
      ghost var deck0 := gameState.deck.cards;
      playerCard := DrawCounted(gameState.playerHand);
      ghost var deck1 := gameState.deck.cards;
      dealerCard := DrawCounted(gameState.dealerHand);
      DrawnTwo(deck0, playerCard, deck1, dealerCard, gameState.deck.cards);
    }

    /** Clears both hands, deals two cards each alternately player then
        dealer, counting each, and finishes the round on a natural. */
    method DealRound()
      requires Valid()
      modifies gameState`phase, gameState.deck, gameState.playerHand, gameState.dealerHand, cardCountingService
      ensures Valid()
      ensures var player, dealer := gameState.playerHand.cards, gameState.dealerHand.cards;
              && |player| == 2 && |dealer| == 2
              && gameState.phase == (if gameState.playerHand.IsBlackjack() || gameState.dealerHand.IsBlackjack()
                                     then Finished else PlayerTurn)
              && cardCountingService.seen == old(cardCountingService.seen) + [player[0], dealer[0], player[1], dealer[1]]
              && player[0] == old(gameState.deck.cards)[|old(gameState.deck.cards)| - 1]
              && DrawnFromTop(old(gameState.deck.cards), [player[0], dealer[0], player[1], dealer[1]], gameState.deck.cards)
    {
      gameState.playerHand.Clear();
      gameState.dealerHand.Clear();
      gameState.SetPhase(PlayerTurn);
      DealOpeningCards();

      if gameState.playerHand.IsBlackjack() || gameState.dealerHand.IsBlackjack() {
        gameState.SetPhase(Finished);
      }
    }

    /** The loop of the opening deal, on empty hands: two rounds of one card to
        the player, then one to the dealer. */
    method DealOpeningCards()
      requires Valid()
      requires gameState.playerHand.cards == [] && gameState.dealerHand.cards == []
      modifies gameState.deck, gameState.playerHand, gameState.dealerHand, cardCountingService
      ensures Valid()
      ensures var player, dealer := gameState.playerHand.cards, gameState.dealerHand.cards;
              && |player| == 2 && |dealer| == 2
              && cardCountingService.seen == old(cardCountingService.seen) + [player[0], dealer[0], player[1], dealer[1]]
              && player[0] == old(gameState.deck.cards)[|old(gameState.deck.cards)| - 1]
              && DrawnFromTop(old(gameState.deck.cards), [player[0], dealer[0], player[1], dealer[1]], gameState.deck.cards)
    {
      ghost var seen0, deck0 := cardCountingService.seen, gameState.deck.cards;
      ghost var dealt: seq<Card> := [];
      DrawnNothing(deck0);

      for i := 0 to 2
        invariant Valid()
        invariant |gameState.playerHand.cards| == i && |gameState.dealerHand.cards| == i
        invariant dealt == Interleave(gameState.playerHand.cards, gameState.dealerHand.cards)
        invariant cardCountingService.seen == seen0 + dealt
        invariant DrawnFromTop(deck0, dealt, gameState.deck.cards)
      {
        ghost var player0, dealer0, deck1 := gameState.playerHand.cards, gameState.dealerHand.cards, gameState.deck.cards;
        var playerCard, dealerCard := DealPair();
        InterleaveAppend(player0, dealer0, playerCard, dealerCard);
        DrawnFromTopChain(deck0, dealt, deck1, [playerCard, dealerCard], gameState.deck.cards);
        assert seen0 + dealt + [playerCard, dealerCard] == seen0 + (dealt + [playerCard, dealerCard]);
        dealt := dealt + [playerCard, dealerCard];
      }
      InterleaveTwo(gameState.playerHand.cards, gameState.dealerHand.cards);
      DrawnFirst(deck0, dealt, gameState.deck.cards);
    }

    /** The player takes a card. Outside the player's turn nothing happens.
        Reaching exactly 21 stands automatically, which plays the dealer; a
        bust ends the round without the dealer drawing; otherwise the player's
        turn continues. */
    method PlayerHit()
      requires Valid()
      modifies gameState`phase, gameState.deck, gameState.playerHand, gameState.dealerHand, cardCountingService
      ensures Valid()
      ensures old(gameState.phase) != PlayerTurn ==>
                gameState.phase == old(gameState.phase) &&
                unchanged(gameState.deck, gameState.playerHand, gameState.dealerHand, cardCountingService)
      ensures old(gameState.phase) == PlayerTurn ==>
                var player := gameState.playerHand;
                && player.cards == old(player.cards) + [old(gameState.deck.cards)[|old(gameState.deck.cards)| - 1]]
                && (player.Value() == 21 ==>
                      gameState.phase == Finished && !dealerAIService.ShouldHit(gameState.dealerHand))
                && (player.IsBust() ==>
                      gameState.phase == Finished && gameState.dealerHand.cards == old(gameState.dealerHand.cards))
                && (player.Value() < 21 ==>
                      gameState.phase == PlayerTurn && gameState.dealerHand.cards == old(gameState.dealerHand.cards))
      ensures Extends(old(gameState.playerHand.cards), gameState.playerHand.cards)
      ensures Extends(old(gameState.dealerHand.cards), gameState.dealerHand.cards)
      ensures dealerAIService.HitBeforeEach(gameState.dealerHand.cards, |old(gameState.dealerHand.cards)|)
      ensures cardCountingService.seen == old(cardCountingService.seen)
                + gameState.playerHand.cards[|old(gameState.playerHand.cards)|..]
                + gameState.dealerHand.cards[|old(gameState.dealerHand.cards)|..]
      ensures old(gameState.phase) == PlayerTurn ==>
                DrawnFromTop(old(gameState.deck.cards),
                             gameState.playerHand.cards[|old(gameState.playerHand.cards)|..]
                             + gameState.dealerHand.cards[|old(gameState.dealerHand.cards)|..],
                             gameState.deck.cards)
    {
      if gameState.phase != PlayerTurn {
        return;
      }
      ghost var player0, dealer0, deck0 := gameState.playerHand.cards, gameState.dealerHand.cards, gameState.deck.cards;
      var card := DrawCounted(gameState.playerHand);
      AppendedParts(player0, card);
      ghost var deck1 := gameState.deck.cards;
      SettleHit();
      DrawnFromTopChain(deck0, [card], deck1, gameState.dealerHand.cards[|dealer0|..], gameState.deck.cards);
    }

    /** What follows the player's draw: exactly 21 stands automatically, a bust
        (or a natural, which cannot occur here since 21 is handled first) ends
        the round, anything else leaves the player's turn open. */
    method SettleHit()
      requires Valid() && gameState.phase == PlayerTurn
      modifies gameState`phase, gameState.deck, gameState.dealerHand, cardCountingService
      ensures Valid()
      ensures gameState.playerHand.Value() == 21 ==>
                gameState.phase == Finished && !dealerAIService.ShouldHit(gameState.dealerHand)
      ensures gameState.playerHand.IsBust() ==>
                gameState.phase == Finished && gameState.dealerHand.cards == old(gameState.dealerHand.cards)
      ensures gameState.playerHand.Value() < 21 ==>
                gameState.phase == PlayerTurn && gameState.dealerHand.cards == old(gameState.dealerHand.cards)
      ensures Extends(old(gameState.dealerHand.cards), gameState.dealerHand.cards)
      ensures dealerAIService.HitBeforeEach(gameState.dealerHand.cards, |old(gameState.dealerHand.cards)|)
      ensures cardCountingService.seen == old(cardCountingService.seen)
                + gameState.dealerHand.cards[|old(gameState.dealerHand.cards)|..]
      ensures DrawnFromTop(old(gameState.deck.cards),
                           gameState.dealerHand.cards[|old(gameState.dealerHand.cards)|..], gameState.deck.cards)
    {
      ghost var dealer0 := gameState.dealerHand.cards;
      assert dealer0[|dealer0|..] == [];
      assert cardCountingService.seen + [] == cardCountingService.seen;
      DrawnNothing(gameState.deck.cards);

      if gameState.playerHand.Value() == 21 {
        PlayerStand();
        return;
      }

      if gameState.playerHand.IsBust() || gameState.playerHand.IsBlackjack() {
        gameState.SetPhase(Finished);
        return;
      }
    }

    /** The player stands: the dealer plays and the round finishes. Outside the
        player's turn nothing happens. */
    method PlayerStand()
      requires Valid()
      modifies gameState`phase, gameState.deck, gameState.dealerHand, cardCountingService
      ensures Valid()
      ensures old(gameState.phase) != PlayerTurn ==>
                gameState.phase == old(gameState.phase) &&
                unchanged(gameState.deck, gameState.dealerHand, cardCountingService)
      ensures old(gameState.phase) == PlayerTurn ==>
                gameState.phase == Finished && !dealerAIService.ShouldHit(gameState.dealerHand)
      ensures Extends(old(gameState.dealerHand.cards), gameState.dealerHand.cards)
      ensures dealerAIService.HitBeforeEach(gameState.dealerHand.cards, |old(gameState.dealerHand.cards)|)
      ensures cardCountingService.seen == old(cardCountingService.seen)
                + gameState.dealerHand.cards[|old(gameState.dealerHand.cards)|..]
      ensures DrawnFromTop(old(gameState.deck.cards),
                           gameState.dealerHand.cards[|old(gameState.dealerHand.cards)|..], gameState.deck.cards)
    {
      ghost var dealer0 := gameState.dealerHand.cards;
      assert dealer0[|dealer0|..] == [];
      DrawnNothing(gameState.deck.cards);
      if gameState.phase == PlayerTurn {
        gameState.SetPhase(Phase.DealerTurn);
        DealerTurn();
      }
    }

    /** The dealer draws while the house rule says hit, counting each card and
        finishing the round at once on a bust; then the round finishes.
        Outside the dealer's turn nothing happens. */
    method DealerTurn()
      requires Valid()
      modifies gameState`phase, gameState.deck, gameState.dealerHand, cardCountingService
      ensures Valid()
      ensures old(gameState.phase) != Phase.DealerTurn ==>
                gameState.phase == old(gameState.phase) &&
                unchanged(gameState.deck, gameState.dealerHand, cardCountingService)
      ensures old(gameState.phase) == Phase.DealerTurn ==>
                gameState.phase == Finished && !dealerAIService.ShouldHit(gameState.dealerHand)
      ensures Extends(old(gameState.dealerHand.cards), gameState.dealerHand.cards)
      ensures dealerAIService.HitBeforeEach(gameState.dealerHand.cards, |old(gameState.dealerHand.cards)|)
      ensures cardCountingService.seen == old(cardCountingService.seen)
                + gameState.dealerHand.cards[|old(gameState.dealerHand.cards)|..]
      ensures DrawnFromTop(old(gameState.deck.cards),
                           gameState.dealerHand.cards[|old(gameState.dealerHand.cards)|..], gameState.deck.cards)
    {
      if gameState.phase != Phase.DealerTurn {
        ghost var dealer0 := gameState.dealerHand.cards;
        assert dealer0[|dealer0|..] == [];
        DrawnNothing(gameState.deck.cards);
        return;
      }
      DealerDraws();
      gameState.SetPhase(Finished);
    }

    /** The loop of the dealer's turn: draw while the rule says hit, and stop
        at once on a bust (where the rule says stand anyway). */
    method DealerDraws()
      requires Valid()
      modifies gameState.deck, gameState.dealerHand, cardCountingService
      ensures Valid()
      ensures !dealerAIService.ShouldHit(gameState.dealerHand)
      ensures Extends(old(gameState.dealerHand.cards), gameState.dealerHand.cards)
      ensures dealerAIService.HitBeforeEach(gameState.dealerHand.cards, |old(gameState.dealerHand.cards)|)
      ensures cardCountingService.seen == old(cardCountingService.seen)
                + gameState.dealerHand.cards[|old(gameState.dealerHand.cards)|..]
      ensures DrawnFromTop(old(gameState.deck.cards),
                           gameState.dealerHand.cards[|old(gameState.dealerHand.cards)|..], gameState.deck.cards)
    {
      var dealerHand := gameState.dealerHand;
      ghost var n0, shoe := |dealerHand.cards|, gameState.deck.cards;
      assert dealerHand.cards[n0..] == [];
      DrawnNothing(shoe);
      while dealerAIService.ShouldHit(dealerHand)
        invariant Valid()
        invariant Extends(old(dealerHand.cards), dealerHand.cards)
        invariant cardCountingService.seen == old(cardCountingService.seen) + dealerHand.cards[n0..]
        invariant DrawnFromTop(shoe, dealerHand.cards[n0..], gameState.deck.cards)
        invariant dealerAIService.HitBeforeEach(dealerHand.cards, n0)
        decreases 22 - BaseSum(dealerHand.cards)
      {
        ghost var before := dealerHand.cards;
        DealerDraw(old(cardCountingService.seen), n0, shoe);
        ExtendsTransitive(old(dealerHand.cards), before, dealerHand.cards);
        if dealerHand.IsBust() {
          break;
        }
      }
    }

    /** One dealer draw: the top card goes to the dealer's hand, which raises
        its all-Aces-low sum, and is counted after the cards counted so far. */
    method DealerDraw(ghost counted: seq<Card>, ghost n0: int, ghost shoe: seq<Card>)
      requires Valid()
      requires 0 <= n0 <= |gameState.dealerHand.cards|
      requires cardCountingService.seen == counted + gameState.dealerHand.cards[n0..]
      requires DrawnFromTop(shoe, gameState.dealerHand.cards[n0..], gameState.deck.cards)
      requires dealerAIService.ShouldHit(gameState.dealerHand)
      requires dealerAIService.HitBeforeEach(gameState.dealerHand.cards, n0)
      modifies gameState.deck, gameState.dealerHand, cardCountingService
      ensures Valid()
      ensures gameState.dealerHand.cards ==
                old(gameState.dealerHand.cards) + [old(gameState.deck.cards)[|old(gameState.deck.cards)| - 1]]
      ensures Extends(old(gameState.dealerHand.cards), gameState.dealerHand.cards)
      ensures BaseSum(gameState.dealerHand.cards) > BaseSum(old(gameState.dealerHand.cards))
      ensures cardCountingService.seen == counted + gameState.dealerHand.cards[n0..]
      ensures DrawnFromTop(shoe, gameState.dealerHand.cards[n0..], gameState.deck.cards)
      ensures dealerAIService.HitBeforeEach(gameState.dealerHand.cards, n0)
      ensures |old(gameState.deck.cards)| - 1 < LowWaterMark ==> FreshSingleDeck(gameState.deck.cards)
    {
      ghost var before, deck1 := gameState.dealerHand.cards, gameState.deck.cards;
      var card := DrawCounted(gameState.dealerHand);
      assert gameState.dealerHand.cards == before + [card];
      BaseSumAppend(before, card);
      AppendedParts(before, card);
      DrawnFromTopStep(shoe, before, n0, deck1, card, gameState.deck.cards);
      dealerAIService.HitStep(before, n0, gameState.dealerHand.cards);
    }

    /** Shuffles the cards left in the shoe, without rebuilding it, and resets the count. */
    method ShuffleDeck()
      requires Valid()
      modifies gameState.deck, cardCountingService
      ensures Valid()
      ensures multiset(gameState.deck.cards) == multiset(old(gameState.deck.cards))
      ensures |gameState.deck.cards| == |old(gameState.deck.cards)|
      ensures cardCountingService.seen == []
      ensures cardCountingService.runningCount == 0 && cardCountingService.cardsSeen == 0
    {
      gameState.deck.Shuffle();
      cardCountingService.Reset();
    }
  }
}
