# Blackjack engine, modelled in Dafny

This project models the game engine of a single-player Blackjack program: cards and their
values, hand valuation with soft Aces, the shoe with its automatic rebuild, an in-place
Fisher–Yates shuffle, the Hi-Lo card counter, the dealer's hit/stand rule, and the game
state machine that deals a round, applies the player's hit and stand, plays the dealer and
feeds every drawn card to the counter.

One Dafny module per source file:

| module | source file |
|---|---|
| `Cards` | `model/Card.java` (the `Rank` and `Suit` enums are declared here as datatypes: ranks ACE..KING and four suits) |
| `HandValueCalculator` | `util/HandValueCalculator.java` |
| `Hands` | `model/Hand.java` |
| `ShuffleUtil` | `util/ShuffleUtil.java` |
| `Decks` | `model/Deck.java` |
| `CardCounting` | `service/CardCountingService.java` |
| `DealerAI` | `service/DealerAIService.java` |
| `GameStates` | `model/GameState.java` |
| `Games` | `service/GameService.java` |

How the model is built:

- A card is a datatype, so its suit and rank cannot change after construction and its
  equality is structural, as `Card.equals` defines it.
- Hand valuation is specified by pure functions (`BaseSum`, `AceCount`, `HandValue`) and a
  ghost predicate `IsBestTotal` that states the doc-comment's promise: the largest total at
  most 21 reachable by counting some Aces as 11, else the all-low total. The method
  `CalculateValue` keeps the source's two loops, including the early `break`. Its loop
  invariant `i <= 1` is the proof that at most one Ace is ever promoted.
- `Hand`, `Deck`, `CardCountingService`, `DealerAIService`, `GameState` and `GameService`
  are classes whose fields the methods update in place. A Java list field becomes a `seq`
  field. `ShuffleUtil.shuffle` works on an `array` in place.
- Randomness is a parameter. In `ShuffleUtil.Shuffle` the index drawn at step `i` is
  `picks[i]`, any value in `[0, i]`. `Deck.Shuffle` (the source's `Collections.shuffle`)
  picks an arbitrary permutation of the current cards.
- `Deck.Draw` returns `Err("Cannot draw from empty deck")` where the source throws. The
  class invariant `Deck.Valid` says that a shoe with at least one deck never holds fewer
  than 3 cards. `Draw` keeps it, so a draw from such a shoe never fails.
- The counter carries a ghost list `seen` of the cards it has counted, in order. Its
  invariant ties `runningCount` and `cardsSeen` to that list. This lets every `GameService`
  method state exactly which cards were counted: the cards added to the hands, in the order
  they were drawn.
- `GameService.startGame` reads two yes/no answers from the console. They are the
  parameters `acceptFirst` and `acceptSecond`. Its prompt part is `OfferReshuffle` and its
  dealing part is `DealRound`.

Where comments and code disagree, the model follows the code:

- `Deck.java:66` says the shoe is rebuilt when "4 or fewer" cards remain. The code at
  `Deck.java:67` rebuilds when fewer than 3 remain, and that is what `Deck.Draw` does.
- The doc comment at `GameState.java:25` says the constructor deals hands. The code does not
  deal (`GameState.java:35-40`), and neither does the model.
- The `reshuffleThreshold` argument of the `Deck` constructor is never used
  (`Deck.java:36-41`), so the model's constructor does not take it.
- The counter is not reset when `Deck.draw` rebuilds the shoe by itself. The model keeps
  this: `seen` keeps growing across an automatic rebuild, and nothing bounds `cardsSeen`
  by 52.

## Model

| member | source | states |
|---|---|---|
| `Cards.RankValue` | backend/src/main/java/com/mshah972/blackjack/model/Card.java:53-81 | total over ranks; value in 1..10; equals the rank's position plus one capped at 10 (ACE 1, TWO..NINE face value, TEN..KING 10); 1 exactly for ACE, 10 exactly for TEN, JACK, QUEEN, KING |
| `Cards.Card.Value` | backend/src/main/java/com/mshah972/blackjack/model/Card.java:45-56 | a card's value lies in 1..10 and is 1 exactly when the card is an Ace |
| `Cards.RankValueOnto` | backend/src/main/java/com/mshah972/blackjack/model/Card.java:54-77 | every value 1..10 is the value of some rank |
| `Cards.CardEquality` | backend/src/main/java/com/mshah972/blackjack/model/Card.java:103-108 | two cards are equal iff rank and suit are equal; equality is reflexive and symmetric |
| `HandValueCalculator.BaseSum` | backend/src/main/java/com/mshah972/blackjack/util/HandValueCalculator.java:20-27 | the all-Aces-low sum lies between the number of cards and 10 times it |
| `HandValueCalculator.AceCount` | backend/src/main/java/com/mshah972/blackjack/util/HandValueCalculator.java:21-25 | the number of Aces is at most the number of cards, and 0 exactly when no card is an Ace |
| `HandValueCalculator.AcesBoundBaseSum` | backend/src/main/java/com/mshah972/blackjack/util/HandValueCalculator.java:20-27 | the all-low sum is at least the number of Aces |
| `HandValueCalculator.HandValue` | backend/src/main/java/com/mshah972/blackjack/util/HandValueCalculator.java:17-36 | the value is the all-low sum or that sum plus 10 (at most one promotion); it exceeds 21 iff the all-low sum does (promotion never busts); with no Aces it is the plain sum; the empty hand is worth 0 |
| `HandValueCalculator.HandValueIsBest` | backend/src/main/java/com/mshah972/blackjack/util/HandValueCalculator.java:11-16 | the value is the largest all-low sum plus 10k at most 21 with 0 <= k <= number of Aces, if any such total exists, otherwise the all-low sum |
| `HandValueCalculator.BestTotalUnique` | backend/src/main/java/com/mshah972/blackjack/util/HandValueCalculator.java:11-16 | the best-total promise determines a single value |
| `HandValueCalculator.CalculateValue` | backend/src/main/java/com/mshah972/blackjack/util/HandValueCalculator.java:17-37 | the two loops (sum and count, then promote with early break) compute the best total; the promotion loop adds 10 at most once |
| `Hands.Hand.constructor` | backend/src/main/java/com/mshah972/blackjack/model/Hand.java:17-19 | a new hand is empty |
| `Hands.Hand.AddCard` | backend/src/main/java/com/mshah972/blackjack/model/Hand.java:26-28 | the card is appended at the end; earlier cards are unchanged |
| `Hands.Hand.Clear` | backend/src/main/java/com/mshah972/blackjack/model/Hand.java:69-71 | the hand holds no cards afterwards |
| `Hands.Hand.Value` | backend/src/main/java/com/mshah972/blackjack/model/Hand.java:39-46 | the hand's value is the best total of its cards; an empty hand is worth 0 |
| `Hands.Hand.IsBlackjack` | backend/src/main/java/com/mshah972/blackjack/model/Hand.java:53-55 | a hand is a Blackjack iff it holds exactly an Ace and a ten-valued card; a Blackjack is never bust |
| `Hands.Hand.IsBust` | backend/src/main/java/com/mshah972/blackjack/model/Hand.java:62-64 | a hand is bust iff even with every Ace counted as 1 it exceeds 21 |
| `Hands.NaturalIsAceAndTen` | backend/src/main/java/com/mshah972/blackjack/model/Hand.java:53-55 | two cards are worth 21 exactly when they are an Ace and a ten-valued card, in either order |
| `ShuffleUtil.Swap` | backend/src/main/java/com/mshah972/blackjack/util/ShuffleUtil.java:20 | a swap exchanges the two positions, keeps the length and every other position |
| `ShuffleUtil.SwapPermutes` | backend/src/main/java/com/mshah972/blackjack/util/ShuffleUtil.java:20 | a swap preserves the multiset of elements |
| `ShuffleUtil.ShuffleFromPermutes` | backend/src/main/java/com/mshah972/blackjack/util/ShuffleUtil.java:17-22 | the shuffle keeps the length and the multiset: its result is a permutation of its input |
| `ShuffleUtil.ShuffleFromKeepsAbove` | backend/src/main/java/com/mshah972/blackjack/util/ShuffleUtil.java:18-21 | once step i is done the remaining steps never touch a position above i |
| `ShuffleUtil.ShortListsUnchanged` | backend/src/main/java/com/mshah972/blackjack/util/ShuffleUtil.java:18 | lists of 0 or 1 elements are left unchanged |
| `ShuffleUtil.Shuffle` | backend/src/main/java/com/mshah972/blackjack/util/ShuffleUtil.java:17-22 | the in-place loop with a swap partner in [0, i] at each step i leaves a permutation of the array, equal to the specified sequence of swaps |
| `Decks.OrderedShoe` | backend/src/main/java/com/mshah972/blackjack/model/Deck.java:83-89 | n decks built one after the other hold 52n cards |
| `Decks.OneDeckDistinct` | backend/src/main/java/com/mshah972/blackjack/model/Deck.java:84-88 | no (suit, rank) pair is added twice for one deck |
| `Decks.DistinctCount` | backend/src/main/java/com/mshah972/blackjack/model/Deck.java:84-88 | in a list without repetitions every element occurs once |
| `Decks.OneDeckOnce` | backend/src/main/java/com/mshah972/blackjack/model/Deck.java:84-88 | one deck holds each (suit, rank) pair exactly once |
| `Decks.ShoeMultiplicity` | backend/src/main/java/com/mshah972/blackjack/model/Deck.java:83-89 | n decks hold each (suit, rank) pair exactly n times |
| `Decks.ShoeCounts` | backend/src/main/java/com/mshah972/blackjack/model/Deck.java:83-89 | in n ordered decks every (suit, rank) pair occurs exactly n times, for all pairs at once |
| `Decks.TopCardsConcat` | backend/src/main/java/com/mshah972/blackjack/model/Deck.java:60-72 | drawing k cards and then m more takes the top k + m cards, in order |
| `Decks.TopCardsSplit` | backend/src/main/java/com/mshah972/blackjack/model/Deck.java:60-72 | the top k cards and the cards below them make up the whole shoe |
| `Decks.FromOldShoe` | backend/src/main/java/com/mshah972/blackjack/model/Deck.java:60-72 | of count draws from a shoe of a given size, the number that take the old shoe's cards is at most count and the shoe size, and is all of them when the shoe keeps at least 3 cards |
| `Decks.DrawnFromTopChain` | backend/src/main/java/com/mshah972/blackjack/model/Deck.java:60-72 | two runs of draws in a row take the old shoe's top cards as one run does: up to the first rebuild, whichever run it falls in |
| `Decks.ChainAfterFullRun` | backend/src/main/java/com/mshah972/blackjack/model/Deck.java:60-72 | when a first run of draws leaves at least 3 cards, a second run continues taking the old shoe's top cards |
| `Decks.DrawnFromTopSplit` | backend/src/main/java/com/mshah972/blackjack/model/Deck.java:60-72 | after draws without a rebuild, the cards drawn and the cards left make up the shoe drawn from |
| `Decks.DrawnTwo` | backend/src/main/java/com/mshah972/blackjack/model/Deck.java:60-72 | two draws in a row take the top card, then the one below it unless the first draw rebuilt the shoe |
| `Decks.DrawnFromTopStep` | backend/src/main/java/com/mshah972/blackjack/model/Deck.java:60-72 | one more draw into a hand keeps the hand's new cards coming off the old shoe's top in draw order, up to the first rebuild |
| `Decks.DrawnNothing` | backend/src/main/java/com/mshah972/blackjack/model/Deck.java:60-72 | drawing no card leaves the shoe as it is |
| `Decks.DrawnFirst` | backend/src/main/java/com/mshah972/blackjack/model/Deck.java:60-72 | the first card of any run of draws is the old shoe's top card, since the top card is taken before a rebuild |
| `Decks.DrawnAllFromTop` | backend/src/main/java/com/mshah972/blackjack/model/Deck.java:60-72 | a run of draws that leaves at most the last draw to go below 3 cards takes exactly the old shoe's top cards |
| `Decks.Deck.constructor` | backend/src/main/java/com/mshah972/blackjack/model/Deck.java:36-41 | the new shoe keeps its number of decks and is a reset shoe |
| `Decks.Deck.Shuffle` | backend/src/main/java/com/mshah972/blackjack/model/Deck.java:49-51 | the cards are permuted: same multiset and same size |
| `Decks.Deck.Reset` | backend/src/main/java/com/mshah972/blackjack/model/Deck.java:81-91 | the shoe holds exactly 52 times the number of decks cards and each (suit, rank) pair exactly number-of-decks times, in some order |
| `Decks.Deck.AddOneDeck` | backend/src/main/java/com/mshah972/blackjack/model/Deck.java:84-88 | the suit loop and the rank loop append exactly one more ordered deck to the shoe |
| `Decks.Deck.Draw` | backend/src/main/java/com/mshah972/blackjack/model/Deck.java:60-72 | an empty shoe gives the error and is unchanged; otherwise the last card is returned; the shoe is the old list minus its last card when at least 3 remain, and is rebuilt otherwise; the at-least-3 invariant is kept, so a draw from a shoe with a deck never fails; a successful draw takes the top card |
| `Decks.Deck.Size` | backend/src/main/java/com/mshah972/blackjack/model/Deck.java:98-100 | the size is the number of cards, never below 3 while the shoe has a deck |
| `Decks.Deck.Peek` | backend/src/main/java/com/mshah972/blackjack/model/Deck.java:109-114 | the last card, or nothing exactly when the shoe is empty; the shoe is not changed |
| `CardCounting.HiLo` | backend/src/main/java/com/mshah972/blackjack/service/CardCountingService.java:36-42 | TWO..SIX count +1, ACE and ten-valued cards count -1, SEVEN..NINE count 0 |
| `CardCounting.HiLoSumBounded` | backend/src/main/java/com/mshah972/blackjack/service/CardCountingService.java:36-44 | the running count of a list of cards never exceeds its length in absolute value |
| `CardCounting.HiLoSumConcat` | backend/src/main/java/com/mshah972/blackjack/service/CardCountingService.java:36-44 | counting two runs of cards one after the other adds their counts |
| `CardCounting.HiLoSumRemove` | backend/src/main/java/com/mshah972/blackjack/service/CardCountingService.java:36-44 | taking one card out of a list of seen cards takes its Hi-Lo tag out of the running count |
| `CardCounting.HiLoSumPermutation` | backend/src/main/java/com/mshah972/blackjack/service/CardCountingService.java:36-44 | the running count after a list of cards depends only on which cards were seen, not on their order |
| `CardCounting.SuitPrefixCount` | backend/src/main/java/com/mshah972/blackjack/service/CardCountingService.java:36-42 | the running count after the first k ranks of a suit, in rank order, is -1 after the Ace, rises by 1 for each of TWO..SIX, stays for SEVEN..NINE and falls by 1 for each of TEN..KING |
| `CardCounting.SuitRunBalanced` | backend/src/main/java/com/mshah972/blackjack/service/CardCountingService.java:36-42 | the thirteen ranks of one suit count to 0 |
| `CardCounting.FullShoeBalanced` | backend/src/main/java/com/mshah972/blackjack/service/CardCountingService.java:30-44 | counting every card of n decks as the building loops lay them out, before the shuffle, brings the running count back to 0 |
| `CardCounting.ShuffledShoeBalanced` | backend/src/main/java/com/mshah972/blackjack/service/CardCountingService.java:30-44 | counting every card of a shoe in any order of n full decks, which is what a reset leaves after its shuffle, brings the running count back to 0 |
| `CardCounting.CardCountingService.constructor` | backend/src/main/java/com/mshah972/blackjack/service/CardCountingService.java:9-28 | a new counter has running count 0 and has seen no card |
| `CardCounting.CardCountingService.UpdateCount` | backend/src/main/java/com/mshah972/blackjack/service/CardCountingService.java:36-44 | one card: cards seen grows by exactly 1 and the running count moves by the card's Hi-Lo tag; the invariant is kept |
| `CardCounting.CardCountingService.GetRunningCount` | backend/src/main/java/com/mshah972/blackjack/service/CardCountingService.java:51-53 | the running count, whose absolute value never exceeds the cards seen |
| `CardCounting.CardCountingService.Reset` | backend/src/main/java/com/mshah972/blackjack/service/CardCountingService.java:71-74 | running count and cards seen are 0 afterwards |
| `DealerAI.DealerAIService.constructor` | backend/src/main/java/com/mshah972/blackjack/service/DealerAIService.java:19-21 | the default dealer stands on soft 17 |
| `DealerAI.DealerAIService.WithSoft17` | backend/src/main/java/com/mshah972/blackjack/service/DealerAIService.java:26-28 | the dealer hits soft 17 exactly as configured |
| `DealerAI.DealerAIService.IsSoft17` | backend/src/main/java/com/mshah972/blackjack/service/DealerAIService.java:66-77 | soft 17 iff the hand is worth 17 only because an Ace counts as 11 |
| `DealerAI.DealerAIService.ShouldHit` | backend/src/main/java/com/mshah972/blackjack/service/DealerAIService.java:36-45 | hit below 17, stand above 17, at 17 hit iff the soft-17 rule is on and the hand is soft 17; the default dealer hits iff below 17; a hand the dealer hits is not bust; the decision depends only on the hand's cards (`HitsOn`) |
| `DealerAI.DealerAIService.HitBeforeEachMeans` | backend/src/main/java/com/mshah972/blackjack/service/DealerAIService.java:52-58 | the loop's record that every dealer card from position n0 on was drawn while the rule said hit holds exactly when, for every such position k, the rule says hit on the first k cards |
| `DealerAI.DealerAIService.HitStep` | backend/src/main/java/com/mshah972/blackjack/service/DealerAIService.java:54-56 | drawing one more card while the rule says hit keeps that record |
| `DealerAI.DealerAIService.PlayDealer` | backend/src/main/java/com/mshah972/blackjack/service/DealerAIService.java:52-58 | the loop ends and afterwards the rule says stand; the dealer's earlier cards are kept and cards are only appended; each card was drawn while the rule said hit for the cards before it; the cards drawn are the old shoe's top cards in draw order, up to and including the draw that leaves fewer than 3 cards (so always at least the first); when no draw leaves fewer than 3 the shoe is the old one without them |
| `DealerAI.Hit` | backend/src/main/java/com/mshah972/blackjack/service/DealerAIService.java:55-56 | one turn of the dealer's loop puts the shoe's top card at the end of the dealer's hand, which raises its all-Aces-low sum; the cards drawn so far still come off the old shoe's top in draw order, up to the first rebuild; a draw that rebuilds the shoe leaves a full deck of 52 cards, each (suit, rank) pair once |
| `DealerAI.DrawTop` | backend/src/main/java/com/mshah972/blackjack/model/Deck.java:60-72 | a draw from a single-deck shoe always succeeds and returns the top card; unless the shoe is rebuilt, the shoe loses exactly that card; a rebuild leaves a full deck of 52 cards, each (suit, rank) pair once |
| `GameStates.GameState.constructor` | backend/src/main/java/com/mshah972/blackjack/model/GameState.java:27-29 | the same outcome as reset |
| `GameStates.GameState.Reset` | backend/src/main/java/com/mshah972/blackjack/model/GameState.java:35-40 | a new single-deck shoe of 52 cards, two new empty hands, phase PLAYER_TURN |
| `GameStates.GameState.SetPhase` | backend/src/main/java/com/mshah972/blackjack/model/GameState.java:58-60 | the phase changes and nothing else |
| `Games.GameService.constructor` | backend/src/main/java/com/mshah972/blackjack/service/GameService.java:19-23 | a default dealer, a fresh counter and a fresh game state in PLAYER_TURN with empty hands and a full single deck (each card once) |
| `Games.GameService.DrawCounted` | backend/src/main/java/com/mshah972/blackjack/service/GameService.java:68-70 | the top card of the shoe goes to the end of the hand and is counted once; without a rebuild the shoe loses exactly that card; a rebuild leaves a full deck of 52 cards, each (suit, rank) pair once |
| `Games.GameService.StartGame` | backend/src/main/java/com/mshah972/blackjack/service/GameService.java:29-81 | a declined round changes nothing; otherwise both hands hold exactly 2 cards, the phase is FINISHED iff either hand is a Blackjack and PLAYER_TURN otherwise, and the counter has counted the four cards in deal order (after a reset when a reshuffle was accepted); with at least 7 cards in the shoe the four cards dealt and the cards left make up the old shoe; when no reshuffle comes first, the player's first card is the old top card and the cards drawn are the old shoe's top cards in draw order, up to and including the draw that leaves fewer than 3 cards (so always at least the first); when no draw leaves fewer than 3 the shoe is the old one without them |
| `Games.GameService.OfferReshuffle` | backend/src/main/java/com/mshah972/blackjack/service/GameService.java:30-56 | the round is declined exactly when the shoe is finished, has fewer than 4 cards and both offers are refused; an accepted offer shuffles the shoe (same cards, same size) and zeroes the count; otherwise nothing changes |
| `Games.GameService.DealPair` | backend/src/main/java/com/mshah972/blackjack/service/GameService.java:67-75 | one round of the deal appends one card to the player's hand, then one to the dealer's, and counts them in that order; the player's card is the old top card, the dealer's the one below it unless the first draw rebuilt the shoe; the cards drawn are the old shoe's top cards in draw order, up to and including the draw that leaves fewer than 3 cards (so always at least the first); when no draw leaves fewer than 3 the shoe is the old one without them |
| `Games.GameService.DealRound` | backend/src/main/java/com/mshah972/blackjack/service/GameService.java:57-80 | both hands are cleared and dealt 2 cards alternately; the four cards are counted in deal order; FINISHED iff a Blackjack, else PLAYER_TURN; the player's first card is the old top card; the cards drawn are the old shoe's top cards in draw order, up to and including the draw that leaves fewer than 3 cards (so always at least the first); when no draw leaves fewer than 3 the shoe is the old one without them |
| `Games.GameService.DealOpeningCards` | backend/src/main/java/com/mshah972/blackjack/service/GameService.java:66-75 | from empty hands, two rounds of player card then dealer card: 2 cards each, counted in deal order, the first one the old top card; the cards drawn are the old shoe's top cards in draw order, up to and including the draw that leaves fewer than 3 cards (so always at least the first); when no draw leaves fewer than 3 the shoe is the old one without them |
| `Games.GameService.PlayerHit` | backend/src/main/java/com/mshah972/blackjack/service/GameService.java:86-109 | a no-op outside PLAYER_TURN; otherwise the shoe's top card is appended to the player's hand; at 21 the dealer plays, drawing each card while the rule says hit for the cards before it, and the round is FINISHED; on a bust FINISHED with the dealer's hand unchanged; below 21 the player's turn continues with the dealer's hand unchanged; every card added to a hand is counted once, in order; taking the player's card and then the dealer's: the cards drawn are the old shoe's top cards in draw order, up to and including the draw that leaves fewer than 3 cards (so always at least the first); when no draw leaves fewer than 3 the shoe is the old one without them |
| `Games.GameService.SettleHit` | backend/src/main/java/com/mshah972/blackjack/service/GameService.java:95-108 | after the player's draw: at 21 the dealer plays, drawing each card while the rule says hit for the cards before it, and the round is FINISHED; on a bust FINISHED with the dealer's hand unchanged; below 21 still PLAYER_TURN with the dealer's hand unchanged; dealer cards drawn are counted in order and, the cards drawn are the old shoe's top cards in draw order, up to and including the draw that leaves fewer than 3 cards (so always at least the first); when no draw leaves fewer than 3 the shoe is the old one without them |
| `Games.GameService.PlayerStand` | backend/src/main/java/com/mshah972/blackjack/service/GameService.java:114-119 | from PLAYER_TURN the dealer plays and the round is FINISHED with the dealer standing, otherwise a no-op; dealer cards are only appended and counted in order; each was drawn while the rule said hit for the cards before it; the cards drawn are the old shoe's top cards in draw order, up to and including the draw that leaves fewer than 3 cards (so always at least the first); when no draw leaves fewer than 3 the shoe is the old one without them |
| `Games.GameService.DealerTurn` | backend/src/main/java/com/mshah972/blackjack/service/GameService.java:124-146 | a no-op outside DEALER_TURN; otherwise the phase is FINISHED and the dealer no longer wants to hit (bust or standing); cards are only appended and each is counted once, in order; each was drawn while the rule said hit for the cards before it; the cards drawn are the old shoe's top cards in draw order, up to and including the draw that leaves fewer than 3 cards (so always at least the first); when no draw leaves fewer than 3 the shoe is the old one without them |
| `Games.GameService.DealerDraws` | backend/src/main/java/com/mshah972/blackjack/service/GameService.java:130-142 | the loop ends with the rule saying stand (a bust exits at once, and the rule stands on a bust anyway); cards are only appended and counted in order; each was drawn while the rule said hit for the cards before it; the cards drawn are the old shoe's top cards in draw order, up to and including the draw that leaves fewer than 3 cards (so always at least the first); when no draw leaves fewer than 3 the shoe is the old one without them |
| `Games.GameService.DealerDraw` | backend/src/main/java/com/mshah972/blackjack/service/GameService.java:132-135 | one dealer draw, taken while the rule says hit, appends the shoe's top card to the dealer's hand, raises its all-Aces-low sum, and counts that card after the earlier ones; every dealer card so far was drawn while the rule said hit for the cards before it; the draws so far still come off the old shoe's top in draw order, up to the first rebuild; a draw that rebuilds the shoe leaves a full deck of 52 cards, each (suit, rank) pair once |
| `Games.GameService.ShuffleDeck` | backend/src/main/java/com/mshah972/blackjack/service/GameService.java:165-168 | the shoe keeps its multiset and size and the counter is zeroed |

## Left out

- `CardCountingService.getTrueCount` and `GameService.getTrueCount`: floating-point division.
- All console output, the `Scanner` prompts (their answers are parameters of `StartGame`),
  `toString`, and `Card.hashCode` (a library hash).
- `Main.java`: the interactive loop. Its calls to `doubleDown()` and `surrender()` name
  methods that `GameService` does not define, so they are not modelled.
- Uniformity of the shuffles: only "some permutation" is modelled. The source draws from
  `java.util.Random` and `Collections.shuffle`.
- Read-only accessors (`getSuit`, `getRank`, `getCards`, `getDeck`, `getPlayerHand`,
  `getDealerHand`, `getPhase`, `getGameState`): these are field reads in the model.
- The `gameState == null` branch of `startGame` (`GameService.java:58-59`): the constructor
  always sets `gameState`, so the branch cannot run.
- `Card.getValue`'s `IllegalStateException` for an unknown rank: every rank is in the table,
  so it cannot be thrown.
- 32-bit overflow of `runningCount`, `cardsSeen` and hand sums: integers are unbounded here.
  Overflow would need more than two billion cards.
- The order of the suits: the model builds them in the order clubs, diamonds, hearts,
  spades. The shoe is shuffled after it is built, so every contract holds for any suit order.
- `Decks.Deck.Reset`: the postcondition states the multiset and size but not the order,
  since the order comes from the shuffle.
- The shoe after a rebuild in the middle of a run of draws, in `DealPair`,
  `DealOpeningCards`, `DealRound`, `StartGame`, `PlayerHit`, `SettleHit`, `PlayerStand`,
  `DealerTurn`, `DealerDraws` and `DealerAI.PlayDealer`. Each single draw (`Deck.Draw`,
  `DrawCounted`, `DealerDraw`, `DealerAI.DrawTop`, `DealerAI.Hit`) states that a rebuild
  leaves a full single deck, but these runs do not carry that composition past later draws.
  Their contracts state neither the contents of the shoe left nor which cards the later
  draws took, since the rebuilt shoe is in shuffled order. They state only that those cards
  are added to the hands and counted in the order drawn. Carrying the composition through
  `DrawnFromTop` would need a bound on the draws after the rebuild, to rule out a second
  rebuild, in every one of those loops.
