/** Hi-Lo card counting: a running count and the number of cards seen,
    updated once per card dealt. */
module CardCounting {
  import opened Cards
  import opened Decks

  /** The Hi-Lo tag of a card, decided from its value as `CardCountingService.updateCount` does:
      low cards (TWO..SIX) count +1, TEN, the court cards and ACE count -1,
      SEVEN..NINE count 0. */
  function HiLo(card: Card): (d: int)
    ensures d == 1 <==> card.rank in {Two, Three, Four, Five, Six}
    ensures d == -1 <==> card.rank == Ace || IsTenValued(card.rank)
    ensures d == 0 <==> card.rank in {Seven, Eight, Nine}
  {
    var value := card.Value();
    if 2 <= value <= 6 then 1
    else if value == 10 || value == 1 then -1
    else 0
  }

  /** The running count after the given cards, in order, from zero. */
  function HiLoSum(cards: seq<Card>): int {
    if cards == [] then 0 else HiLoSum(cards[..|cards| - 1]) + HiLo(cards[|cards| - 1])
  }

  lemma HiLoSumAppend(cards: seq<Card>, c: Card)
    ensures HiLoSum(cards + [c]) == HiLoSum(cards) + HiLo(c)
  {
    assert (cards + [c])[..|cards|] == cards;
  }

  /** Each card moves the count by at most one, so the running count never
      exceeds the number of cards seen in absolute value. */
  lemma {:induction false} HiLoSumBounded(cards: seq<Card>)
    ensures -|cards| <= HiLoSum(cards) <= |cards|
  {
    if cards != [] {
      HiLoSumBounded(cards[..|cards| - 1]);
    }
  }

  lemma {:induction false} HiLoSumConcat(a: seq<Card>, b: seq<Card>)
    ensures HiLoSum(a + b) == HiLoSum(a) + HiLoSum(b)
    decreases |b|
  {
    if b != [] {
      var init, last := b[..|b| - 1], b[|b| - 1];
      assert a + b == (a + init) + [last];
      assert b == init + [last];
      HiLoSumAppend(a + init, last);
      HiLoSumAppend(init, last);
      HiLoSumConcat(a, init);
    } else {
      assert a + b == a;
    }
  }

  lemma HiLoSumPrefixStep(s: seq<Card>, k: int)
    requires 0 <= k < |s|
    ensures HiLoSum(s[..k + 1]) == HiLoSum(s[..k]) + HiLo(s[k])
  {
    assert s[..k + 1] == s[..k] + [s[k]];
    HiLoSumAppend(s[..k], s[k]);
  }

  /** The thirteen cards of one suit, in rank order. */
  function SuitRun(suit: Suit): (r: seq<Card>)
    ensures |r| == 13
  {
    seq(13, k requires 0 <= k < 13 => Card(suit, AllRanks[k]))
  }

  /** The running count after the first k ranks of a suit, in rank order:
      ACE -1, TWO..SIX +1 each, SEVEN..NINE 0, TEN..KING -1 each. */
  function RankPrefixCount(k: int): int {
    if k <= 1 then -k else if k <= 6 then k - 2 else if k <= 9 then 4 else 13 - k
  }

  lemma {:induction false} SuitPrefixCount(suit: Suit, k: int)
    requires 0 <= k <= 13
    ensures HiLoSum(SuitRun(suit)[..k]) == RankPrefixCount(k)
    decreases k
  {
    if k == 0 {
      assert SuitRun(suit)[..0] == [];
    } else {
      SuitPrefixCount(suit, k - 1);
      HiLoSumPrefixStep(SuitRun(suit), k - 1);
      OrdinalAt(k - 1);
    }
  }

  /** Five low cards (+1 each), three neutral ones and five high ones (-1 each). */
  lemma SuitRunBalanced(suit: Suit)
    ensures HiLoSum(SuitRun(suit)) == 0
  {
    SuitPrefixCount(suit, 13);
    assert SuitRun(suit)[..13] == SuitRun(suit);
  }

  lemma OneDeckBlock(si: int)
    requires 0 <= si < 4
    ensures OneDeck()[13 * si..13 * si + 13] == SuitRun(AllSuits[si])
  {
    forall ri | 0 <= ri < 13
      ensures OneDeck()[13 * si..13 * si + 13][ri] == SuitRun(AllSuits[si])[ri]
    {
      OneDeckAt(si, ri);
    }
  }

  lemma SplitAt(b: seq<Card>, i: int)
    requires 0 <= i < |b|
    ensures b == b[..i] + ([b[i]] + b[i + 1..])
  {
  }

  /** Taking one card out of a list takes its tag out of the count. */
  lemma HiLoSumRemove(b: seq<Card>, i: int)
    requires 0 <= i < |b|
    ensures HiLoSum(b) == HiLoSum(b[..i] + b[i + 1..]) + HiLo(b[i])
  {
    var x, left, right := b[i], b[..i], b[i + 1..];
    SplitAt(b, i);
    HiLoSumConcat(left, [x] + right);
    HiLoSumConcat([x], right);
    HiLoSumAppend([], x);
    assert [] + [x] == [x];
    HiLoSumConcat(left, right);
  }

  lemma MultisetRemove(b: seq<Card>, i: int)
    requires 0 <= i < |b|
    ensures multiset(b[..i] + b[i + 1..]) == multiset(b) - multiset{b[i]}
  {
    assert b == b[..i] + [b[i]] + b[i + 1..];
  }

  /** The running count after a list of cards depends only on which cards were
      seen, not on their order. */
  lemma {:induction false} HiLoSumPermutation(a: seq<Card>, b: seq<Card>)
    requires multiset(a) == multiset(b)
    ensures HiLoSum(a) == HiLoSum(b)
    decreases |a|
  {
    if a == [] {
      assert |b| == |multiset(b)| == 0;
    } else {
      var init, x := a[..|a| - 1], a[|a| - 1];
      assert a == init + [x];
      assert multiset(init) == multiset(a) - multiset{x};
      assert x in multiset(b);
      var i :| 0 <= i < |b| && b[i] == x;
      MultisetRemove(b, i);
      HiLoSumPermutation(init, b[..i] + b[i + 1..]);
      HiLoSumRemove(b, i);
      HiLoSumAppend(init, x);
    }
  }

  /** Hi-Lo is a balanced count: counting every card of n decks as the
      building loops lay them out, before any shuffle, brings the running
      count back to 0. */
  lemma {:induction false} FullShoeBalanced(n: nat)
    ensures HiLoSum(OrderedShoe(n)) == 0
  {
    if n > 0 {
      var d := OneDeck();
      assert d == d[0..13] + d[13..26] + d[26..39] + d[39..52];
      OneDeckBlock(0);
      OneDeckBlock(1);
      OneDeckBlock(2);
      OneDeckBlock(3);
      SuitRunBalanced(Clubs);
      SuitRunBalanced(Diamonds);
      SuitRunBalanced(Hearts);
      SuitRunBalanced(Spades);
      HiLoSumConcat(d[0..13], d[13..26]);
      HiLoSumConcat(d[0..13] + d[13..26], d[26..39]);
      HiLoSumConcat(d[0..13] + d[13..26] + d[26..39], d[39..52]);
      FullShoeBalanced(n - 1);
      HiLoSumConcat(OrderedShoe(n - 1), d);
    }
  }

  /** The same holds for the shoe as a reset leaves it: any order of n full
      decks counts to 0. */
  lemma ShuffledShoeBalanced(cards: seq<Card>, n: nat)
    requires multiset(cards) == multiset(OrderedShoe(n))
    ensures HiLoSum(cards) == 0
  {
    FullShoeBalanced(n);
    HiLoSumPermutation(cards, OrderedShoe(n));
  }

  class CardCountingService {
    var runningCount: int
    var cardsSeen: int
    const numberOfDecks: int
    /** The cards counted since the last reset, in the order they were seen. */
    ghost var seen: seq<Card>

    ghost predicate Valid()
      reads this
    {
      runningCount == HiLoSum(seen) && cardsSeen == |seen|
    }

    /** A new counter has seen nothing. */
    constructor (numberOfDecks: int)
      ensures Valid() && seen == []
      ensures runningCount == 0 && cardsSeen == 0
      ensures this.numberOfDecks == numberOfDecks
    {
      this.numberOfDecks := numberOfDecks;
      runningCount, cardsSeen := 0, 0;
      seen := [];
    }

    /** Counts one card: the running count moves by its Hi-Lo tag and one
        more card is seen. */
    method UpdateCount(card: Card)
      requires Valid()
      modifies this
      ensures Valid() && seen == old(seen) + [card]
      ensures cardsSeen == old(cardsSeen) + 1
      ensures runningCount == old(runningCount) + HiLo(card)
    {
      var value := card.Value();
      if 2 <= value <= 6 {
        runningCount := runningCount + 1;
      } else if value == 10 || value == 1 {
        runningCount := runningCount - 1;
      }
      cardsSeen := cardsSeen + 1;
      HiLoSumAppend(seen, card);
      seen := seen + [card];
    }

    /** The running count; bounded by the number of cards seen. */
    function GetRunningCount(): (rc: int)
      reads this
      ensures rc == runningCount
      ensures Valid() ==> -cardsSeen <= rc <= cardsSeen
    {
      HiLoSumBounded(seen);
      runningCount
    }

    /** Starts a new shoe: both counters go back to zero. */
    method Reset()
      modifies this
      ensures Valid() && seen == []
      ensures runningCount == 0 && cardsSeen == 0
    {
      runningCount := 0;
      cardsSeen := 0;
      seen := [];
    }
  }
}
