/** The shoe: one or more 52-card decks in a list whose last element is the
    top. Drawing takes the top card and rebuilds the shoe when it runs low. */
module Decks {
  import opened Cards

  datatype Option<T> = None | Some(value: T)

  datatype Result<T> = Ok(value: T) | Err(message: string)

  const EmptyDeckMessage: string := "Cannot draw from empty deck"

  /** The number of cards below which a draw rebuilds the shoe. */
  const LowWaterMark: int := 3

  /** Card k of one deck built suit by suit, each suit rank by rank. */
  function CardAt(k: int): Card
    requires 0 <= k < 52
  {
    Card(AllSuits[k / 13], AllRanks[k % 13])
  }

  /** One deck in the order the building loops add it. */
  function OneDeck(): (d: seq<Card>)
    ensures |d| == 52
  {
    seq(52, k requires 0 <= k < 52 => CardAt(k))
  }

  /** numberOfDecks full decks, one after the other. */
  function OrderedShoe(n: nat): (s: seq<Card>)
    ensures |s| == 52 * n
  {
    if n == 0 then [] else OrderedShoe(n - 1) + OneDeck()
  }

  /** The number of decks the building loop actually produces (none for a
      negative count). */
  function BuiltDecks(numberOfDecks: int): nat {
    if numberOfDecks < 0 then 0 else numberOfDecks
  }

  /** The card the inner loop adds for suit index si and rank index ri. */
  lemma OneDeckAt(si: int, ri: int)
    requires 0 <= si < 4 && 0 <= ri < 13
    ensures 13 * si + ri < 52
    ensures OneDeck()[13 * si + ri] == Card(AllSuits[si], AllRanks[ri])
  {
    var k := 13 * si + ri;
    assert k / 13 == si && k % 13 == ri;
  }

  /** Adding the card for (si, ri) extends the built prefix of one deck by one. */
  lemma OneDeckPrefixStep(si: int, ri: int)
    requires 0 <= si < 4 && 0 <= ri < 13
    ensures 13 * si + ri + 1 <= 52
    ensures OneDeck()[..13 * si + ri + 1] == OneDeck()[..13 * si + ri] + [Card(AllSuits[si], AllRanks[ri])]
  {
    OneDeckAt(si, ri);
  }

  /** No card occurs twice in one deck. */
  lemma OneDeckDistinct()
    ensures forall a, b :: 0 <= a < b < 52 ==> OneDeck()[a] != OneDeck()[b]
  {
    forall a, b | 0 <= a < b < 52
      ensures OneDeck()[a] != OneDeck()[b]
    {
      CardAtDistinct(a, b);
    }
  }

  lemma CardAtDistinct(a: int, b: int)
    requires 0 <= a < b < 52
    ensures CardAt(a) != CardAt(b)
  {
    var ca, cb := CardAt(a), CardAt(b);
    if a / 13 != b / 13 {
      assert SuitOrdinal(ca.suit) != SuitOrdinal(cb.suit);
    } else {
      assert a % 13 != b % 13;
      assert Ordinal(ca.rank) != Ordinal(cb.rank);
    }
  }

  /** In a list without repetitions every element occurs once. */
  lemma {:induction false} DistinctCount<T>(s: seq<T>, x: T)
    requires forall a, b :: 0 <= a < b < |s| ==> s[a] != s[b]
    ensures multiset(s)[x] == if x in s then 1 else 0
  {
    if s != [] {
      var init := s[..|s| - 1];
      assert s == init + [s[|s| - 1]];
      DistinctCount(init, x);
      if x == s[|s| - 1] {
        assert x !in init;
      }
    }
  }

  /** Every (suit, rank) pair occurs exactly once in one deck. */
  lemma OneDeckOnce(c: Card)
    ensures multiset(OneDeck())[c] == 1
  {
    OneDeckDistinct();
    DistinctCount(OneDeck(), c);
    OneDeckAt(SuitOrdinal(c.suit), Ordinal(c.rank));
  }

  /** Every (suit, rank) pair occurs exactly n times in n decks. */
  lemma {:induction false} ShoeMultiplicity(n: nat, c: Card)
    ensures multiset(OrderedShoe(n))[c] == n
  {
    if n > 0 {
      ShoeMultiplicity(n - 1, c);
      OneDeckOnce(c);
    }
  }

  /** Every (suit, rank) pair occurs exactly n times in n decks, for all pairs at once. */
  lemma ShoeCounts(n: nat)
    ensures forall c :: multiset(OrderedShoe(n))[c] == n
  {
    forall c {
      ShoeMultiplicity(n, c);
    }
  }

  /** The top k cards of a shoe in the order successive draws take them:
      the last card of the list first. */
  function TopCards(s: seq<Card>, k: int): (r: seq<Card>)
    requires 0 <= k <= |s|
    ensures |r| == k
  {
    seq(k, j requires 0 <= j < k => s[|s| - 1 - j])
  }

  /** Drawing k cards and then m more takes the top k + m cards, and leaves
      the shoe without them. */
  lemma TopCardsConcat(s: seq<Card>, k: int, m: int)
    requires 0 <= k && 0 <= m && k + m <= |s|
    ensures TopCards(s, k) + TopCards(s[..|s| - k], m) == TopCards(s, k + m)
    ensures s[..|s| - k][..|s| - k - m] == s[..|s| - k - m]
  {
    var lhs, rhs := TopCards(s, k) + TopCards(s[..|s| - k], m), TopCards(s, k + m);
    forall j | 0 <= j < k + m
      ensures lhs[j] == rhs[j]
    {
      if j >= k {
        assert lhs[j] == TopCards(s[..|s| - k], m)[j - k];
      }
    }
    assert lhs == rhs;
  }

  /** The cards drawn and the cards left make up the shoe drawn from. */
  lemma {:induction false} TopCardsSplit(s: seq<Card>, k: int)
    requires 0 <= k <= |s|
    ensures multiset(s[..|s| - k]) + multiset(TopCards(s, k)) == multiset(s)
    decreases k
  {
    if k == 0 {
      assert s[..|s|] == s;
      assert TopCards(s, 0) == [];
    } else {
      TopCardsSplit(s, k - 1);
      TopCardsConcat(s, k - 1, 1);
      var rest := s[..|s| - (k - 1)];
      assert TopCards(rest, 1) == [rest[|rest| - 1]];
      assert rest == rest[..|rest| - 1] + [rest[|rest| - 1]];
    }
  }

  /** How many of count successive draws from a shoe of shoeSize cards take
      that shoe's own top cards. Deck.draw removes the top card before it looks
      at the size, so the first draw always does, and so does every draw until
      one leaves fewer than LowWaterMark cards and rebuilds the shoe. */
  function FromOldShoe(shoeSize: int, count: nat): (m: nat)
    ensures m <= count
    ensures m <= (if shoeSize < 0 then 0 else shoeSize)
    ensures shoeSize - count >= LowWaterMark ==> m == count
  {
    if shoeSize <= 0 then 0
    else if shoeSize < LowWaterMark then (if count < 1 then count else 1)
    else if count <= shoeSize - (LowWaterMark - 1) then count
    else shoeSize - (LowWaterMark - 1)
  }

  /** Drawing the cards drawn, one after the other, from the shoe before: the
      first FromOldShoe of them are its top cards in order, and when nothing was
      drawn or the shoe never ran low on the way, the shoe after is the shoe
      before without them. After a rebuild the new shoe is in shuffled order,
      so nothing more is known of the cards drawn from it. */
  predicate DrawnFromTop(before: seq<Card>, drawn: seq<Card>, after: seq<Card>) {
    var m := FromOldShoe(|before|, |drawn|);
    && drawn[..m] == TopCards(before, m)
    && (drawn == [] || |before| - |drawn| >= LowWaterMark ==> after == before[..|before| - |drawn|])
  }

  /** The shoe Deck.reset leaves for a single deck: 52 cards, each (suit,
      rank) pair once, in shuffled order. */
  predicate FreshSingleDeck(s: seq<Card>) {
    |s| == 52 && multiset(s) == multiset(OneDeck())
  }

  /** Two runs of draws in a row draw from the top as one run does. */
  lemma DrawnFromTopChain(a: seq<Card>, x: seq<Card>, b: seq<Card>, y: seq<Card>, c: seq<Card>)
    requires DrawnFromTop(a, x, b) && DrawnFromTop(b, y, c)
    ensures DrawnFromTop(a, x + y, c)
  {
    if |a| - |x| >= LowWaterMark {
      ChainAfterFullRun(a, x, b, y, c);
    } else if x == [] {
      assert b == a && x + y == y;
    } else {
      // the shoe ran low while x was drawn: x already holds all the old top cards
      var m := FromOldShoe(|a|, |x + y|);
      assert m == FromOldShoe(|a|, |x|);
      assert (x + y)[..m] == x[..m];
    }
  }

  /** The case of DrawnFromTopChain where x was drawn without a rebuild: b is
      a without x, and y continues from b's top. */
  lemma ChainAfterFullRun(a: seq<Card>, x: seq<Card>, b: seq<Card>, y: seq<Card>, c: seq<Card>)
    requires DrawnFromTop(a, x, b) && DrawnFromTop(b, y, c)
    requires |a| - |x| >= LowWaterMark
    ensures DrawnFromTop(a, x + y, c)
  {
    var m, k := FromOldShoe(|a|, |x + y|), FromOldShoe(|b|, |y|);
    assert x == TopCards(a, |x|) by {
      assert x[..|x|] == x;
    }
    assert b == a[..|a| - |x|];
    assert m == |x| + k;
    TopCardsConcat(a, |x|, k);
    assert (x + y)[..m] == x + y[..k];
    if |a| - |x + y| >= LowWaterMark {
      TopCardsConcat(a, |x|, |y|);
    }
  }

  /** Cards drawn from the top and the cards left make up the shoe drawn from. */
  lemma DrawnFromTopSplit(before: seq<Card>, drawn: seq<Card>, after: seq<Card>)
    requires DrawnFromTop(before, drawn, after) && |before| - |drawn| >= LowWaterMark
    ensures multiset(after) + multiset(drawn) == multiset(before)
  {
    assert drawn[..|drawn|] == drawn;
    TopCardsSplit(before, |drawn|);
  }

  /** Drawing nothing leaves the shoe as it is. */
  lemma DrawnNothing(s: seq<Card>)
    ensures DrawnFromTop(s, [], s)
  {
    assert s[..|s|] == s;
    assert TopCards(s, 0) == [];
  }

  /** Two draws in a row: the second card is the one below the first unless
      the first draw rebuilt the shoe. */
  lemma DrawnTwo(deck0: seq<Card>, c0: Card, deck1: seq<Card>, c1: Card, deck2: seq<Card>)
    requires 0 < |deck0| && c0 == deck0[|deck0| - 1] && DrawnFromTop(deck0, [c0], deck1)
    requires 0 < |deck1| && c1 == deck1[|deck1| - 1] && DrawnFromTop(deck1, [c1], deck2)
    ensures |deck0| - 1 >= LowWaterMark ==> c1 == deck0[|deck0| - 2]
    ensures DrawnFromTop(deck0, [c0, c1], deck2)
  {
    DrawnFromTopChain(deck0, [c0], deck1, [c1], deck2);
    assert [c0] + [c1] == [c0, c1];
  }

  /** One more draw into a hand that has taken cards[n0..] off the top of
      shoe: the hand's new suffix still comes off the top. */
  lemma DrawnFromTopStep(shoe: seq<Card>, cards: seq<Card>, n0: int,
                         deck1: seq<Card>, c: Card, deck2: seq<Card>)
    requires 0 <= n0 <= |cards|
    requires DrawnFromTop(shoe, cards[n0..], deck1) && DrawnFromTop(deck1, [c], deck2)
    ensures (cards + [c])[..|cards|] == cards
    ensures (cards + [c])[..n0] == cards[..n0]
    ensures (cards + [c])[n0..] == cards[n0..] + [c]
    ensures DrawnFromTop(shoe, (cards + [c])[n0..], deck2)
  {
    assert (cards + [c])[..|cards|] == cards;
    assert (cards + [c])[..n0] == cards[..n0];
    assert (cards + [c])[n0..] == cards[n0..] + [c];
    DrawnFromTopChain(shoe, cards[n0..], deck1, [c], deck2);
  }

  /** Drawing at most all but LowWaterMark - 1 cards of a shoe takes only its
      top cards, in order, even when the last of those draws rebuilds it. */
  lemma DrawnAllFromTop(before: seq<Card>, drawn: seq<Card>, after: seq<Card>)
    requires DrawnFromTop(before, drawn, after)
    requires LowWaterMark <= |before| && |drawn| <= |before| - (LowWaterMark - 1)
    ensures drawn == TopCards(before, |drawn|)
  {
    assert drawn[..|drawn|] == drawn;
  }

  /** The first card drawn is always the top card, rebuild or not. */
  lemma DrawnFirst(before: seq<Card>, drawn: seq<Card>, after: seq<Card>)
    requires DrawnFromTop(before, drawn, after) && 0 < |drawn| && 0 < |before|
    ensures drawn[0] == before[|before| - 1]
  {
    var m := FromOldShoe(|before|, |drawn|);
    assert drawn[..m][0] == TopCards(before, m)[0];
  }

  class Deck {
    const numberOfDecks: int
    var cards: seq<Card>

    /** With at least one deck the shoe never holds fewer than LowWaterMark cards. */
    ghost predicate Valid()
      reads this
    {
      numberOfDecks >= 1 ==> |cards| >= LowWaterMark
    }

    /** A full, shuffled shoe of numberOfDecks decks. The penetration threshold
        `Deck(int, double)` takes here is never used, so it is not a parameter. */
    constructor (numberOfDecks: int)
      ensures this.numberOfDecks == numberOfDecks
      ensures Valid()
      ensures |cards| == 52 * BuiltDecks(numberOfDecks)
      ensures multiset(cards) == multiset(OrderedShoe(BuiltDecks(numberOfDecks)))
      ensures forall c :: multiset(cards)[c] == BuiltDecks(numberOfDecks)
    {
      this.numberOfDecks := numberOfDecks;
      cards := [];
      new;
      Reset();
    }

    /** Puts the cards in some order: any permutation of the current contents. */
    method Shuffle()
      modifies this
      ensures multiset(cards) == multiset(old(cards))
      ensures |cards| == |old(cards)|
    {
      // The current order is one candidate, so some permutation exists.
      ghost var current := cards;
      assert multiset(current) == multiset(cards);
      var shuffled :| multiset(shuffled) == multiset(cards);
      assert |shuffled| == |multiset(shuffled)| == |multiset(cards)| == |cards|;
      cards := shuffled;
    }

    /** Empties the shoe, adds every suit and rank once per deck, then shuffles. */
    method Reset()
      modifies this
      ensures Valid()
      ensures |cards| == 52 * BuiltDecks(numberOfDecks)
      ensures multiset(cards) == multiset(OrderedShoe(BuiltDecks(numberOfDecks)))
      ensures forall c :: multiset(cards)[c] == BuiltDecks(numberOfDecks)
    {
      cards := [];
      var d := 0;
      while d < numberOfDecks
        invariant 0 <= d <= BuiltDecks(numberOfDecks)
        invariant cards == OrderedShoe(d)
      {
        AddOneDeck(d);
        d := d + 1;
      }
      ShoeCounts(BuiltDecks(numberOfDecks));
      Shuffle();
    }

    /** The two inner loops of Reset: every suit, then every rank, once. */
    method AddOneDeck(ghost d: nat)
      requires cards == OrderedShoe(d)
      modifies this`cards
      ensures cards == OrderedShoe(d + 1)
    {
      for si := 0 to |AllSuits|
        invariant cards == OrderedShoe(d) + OneDeck()[..13 * si]
      {
        var suit := AllSuits[si];
        for ri := 0 to |AllRanks|
          invariant cards == OrderedShoe(d) + OneDeck()[..13 * si + ri]
        {
          OneDeckPrefixStep(si, ri);
          cards := cards + [Card(suit, AllRanks[ri])];
        }
      }
      assert OneDeck()[..52] == OneDeck();
    }

    /** Removes and returns the top card; fails on an empty shoe. When fewer
        than LowWaterMark cards are left after the removal the shoe is rebuilt. */
    method Draw() returns (r: Result<Card>)
      requires Valid()
      modifies this
      ensures Valid()
      ensures old(cards) == [] ==> r == Err(EmptyDeckMessage) && cards == old(cards)
      ensures old(cards) != [] ==> r == Ok(old(cards)[|old(cards)| - 1])
      ensures |old(cards)| - 1 >= LowWaterMark ==> cards == old(cards)[..|old(cards)| - 1]
      ensures 0 < |old(cards)| && |old(cards)| - 1 < LowWaterMark ==>
                |cards| == 52 * BuiltDecks(numberOfDecks) &&
                multiset(cards) == multiset(OrderedShoe(BuiltDecks(numberOfDecks)))
      ensures numberOfDecks >= 1 ==> r.Ok?
      ensures r.Ok? ==> DrawnFromTop(old(cards), [r.value], cards)
    {
      if cards == [] {
        return Err(EmptyDeckMessage);
      }
      var card := cards[|cards| - 1];
      assert TopCards(cards, 1) == [card];
      cards := cards[..|cards| - 1];
      if |cards| < LowWaterMark {
        Reset();
      }
      return Ok(card);
    }

    /** The number of cards left; never below LowWaterMark while there is a deck. */
    function Size(): (n: nat)
      reads this
      ensures n == |cards|
      ensures Valid() && numberOfDecks >= 1 ==> n >= LowWaterMark
    {
      |cards|
    }

    /** The top card without removing it, or None for an empty shoe. */
    function Peek(): (top: Option<Card>)
      reads this
      ensures top == None <==> cards == []
      ensures top.Some? ==> top.value == cards[|cards| - 1]
    {
      if cards == [] then None else Some(cards[|cards| - 1])
    }
  }
}
