/** Blackjack value of a list of cards, with each Ace worth 1 or 11. */
module HandValueCalculator {
  import opened Cards

  /** Sum of the card values with every Ace counted as 1. */
  function BaseSum(cards: seq<Card>): (s: int)
    ensures |cards| <= s <= 10 * |cards|
  {
    if cards == [] then 0 else BaseSum(cards[..|cards| - 1]) + cards[|cards| - 1].Value()
  }

  /** Number of Aces among the cards. */
  function AceCount(cards: seq<Card>): (n: nat)
    ensures n <= |cards|
    ensures n == 0 <==> forall k :: 0 <= k < |cards| ==> cards[k].rank != Ace
  {
    if cards == [] then 0
    else AceCount(cards[..|cards| - 1]) + (if cards[|cards| - 1].rank == Ace then 1 else 0)
  }

  lemma BaseSumAppend(cards: seq<Card>, c: Card)
    ensures BaseSum(cards + [c]) == BaseSum(cards) + c.Value()
  {
    assert (cards + [c])[..|cards|] == cards;
  }

  lemma AceCountAppend(cards: seq<Card>, c: Card)
    ensures AceCount(cards + [c]) == AceCount(cards) + (if c.rank == Ace then 1 else 0)
  {
    assert (cards + [c])[..|cards|] == cards;
  }

  /** Extending a prefix by one card adds that card to both counts. */
  lemma PrefixStep(cards: seq<Card>, i: int)
    requires 0 <= i < |cards|
    ensures BaseSum(cards[..i + 1]) == BaseSum(cards[..i]) + cards[i].Value()
    ensures AceCount(cards[..i + 1]) == AceCount(cards[..i]) + (if cards[i].rank == Ace then 1 else 0)
  {
    assert cards[..i + 1] == cards[..i] + [cards[i]];
    BaseSumAppend(cards[..i], cards[i]);
    AceCountAppend(cards[..i], cards[i]);
  }

  /** Every Ace contributes at least 1 to the all-low sum, so the sum is at
      least the number of Aces. */
  lemma {:induction false} AcesBoundBaseSum(cards: seq<Card>)
    ensures AceCount(cards) <= BaseSum(cards)
  {
    if cards != [] {
      AcesBoundBaseSum(cards[..|cards| - 1]);
    }
  }

  /** The total reached when k of the Aces are counted as 11. */
  function Promoted(cards: seq<Card>, k: int): int {
    BaseSum(cards) + 10 * k
  }

  /** Promoting k Aces is possible and keeps the total at most 21. */
  predicate Fits(cards: seq<Card>, k: int) {
    0 <= k <= AceCount(cards) && Promoted(cards, k) <= 21
  }

  /** v is the best Blackjack total of the cards: the largest total at most 21
      reachable by counting some of the Aces as 11, or, when no choice stays at
      most 21, the all-Aces-low total. */
  ghost predicate IsBestTotal(cards: seq<Card>, v: int) {
    if exists k :: Fits(cards, k) then
      (exists k :: Fits(cards, k) && Promoted(cards, k) == v) &&
      (forall k :: Fits(cards, k) ==> Promoted(cards, k) <= v)
    else
      v == BaseSum(cards)
  }

  /** The value of a hand: add 10 once if there is an Ace and that stays at most 21. */
  function HandValue(cards: seq<Card>): (v: int)
    ensures v == BaseSum(cards) || v == BaseSum(cards) + 10
    ensures v > 21 <==> BaseSum(cards) > 21
    ensures AceCount(cards) == 0 ==> v == BaseSum(cards)
    ensures cards == [] ==> v == 0
  {
    if AceCount(cards) > 0 && BaseSum(cards) + 10 <= 21 then BaseSum(cards) + 10 else BaseSum(cards)
  }

  /** The value is the best total the doc-comment promises. */
  lemma HandValueIsBest(cards: seq<Card>)
    ensures IsBestTotal(cards, HandValue(cards))
  {
    var base, aces := BaseSum(cards), AceCount(cards);
    AcesBoundBaseSum(cards);
    assert Fits(cards, 0) <==> base <= 21;
    if base <= 21 {
      var best := if aces > 0 && base + 10 <= 21 then 1 else 0;
      assert Fits(cards, best) && Promoted(cards, best) == HandValue(cards);
      forall k | Fits(cards, k)
        ensures Promoted(cards, k) <= HandValue(cards)
      {
      }
    } else {
      forall k | 0 <= k <= aces
        ensures !Fits(cards, k)
      {
      }
    }
  }

  /** Two totals that are both best are the same: the promise pins the value down. */
  lemma BestTotalUnique(cards: seq<Card>, v: int, w: int)
    requires IsBestTotal(cards, v) && IsBestTotal(cards, w)
    ensures v == w
  {
    if exists k :: Fits(cards, k) {
      var kv :| Fits(cards, kv) && Promoted(cards, kv) == v;
      var kw :| Fits(cards, kw) && Promoted(cards, kw) == w;
      assert v <= w && w <= v;
    }
  }

  /** Computes the hand value as `HandValueCalculator.calculateValue` does: a first loop sums the cards
      with Aces as 1 and counts the Aces, a second loop promotes Aces while the
      total stays at most 21 and stops at the first promotion that would not. */
  method CalculateValue(cards: seq<Card>) returns (sum: int)
    ensures sum == HandValue(cards)
    ensures IsBestTotal(cards, sum)
  {
    sum := 0;
    var aceCount := 0;
    for i := 0 to |cards|
      invariant sum == BaseSum(cards[..i])
      invariant aceCount == AceCount(cards[..i])
    {
      var value := cards[i].Value();
      if value == 1 {
        aceCount := aceCount + 1;
      }
      sum := sum + value;
      PrefixStep(cards, i);
    }
    assert cards[..|cards|] == cards;
    AcesBoundBaseSum(cards);
    ghost var base := sum;
    var i := 0;
    while i < aceCount
      invariant 0 <= i <= aceCount
      invariant sum == base + 10 * i
      // at most one Ace is ever promoted
      invariant i <= 1
      invariant i == 1 ==> base + 10 <= 21
    {
      if sum + 10 <= 21 {
        sum := sum + 10;
      } else {
        break;
      }
      i := i + 1;
    }
    HandValueIsBest(cards);
  }
}
