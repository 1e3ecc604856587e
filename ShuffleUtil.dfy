/** In-place Fisher–Yates shuffle. The random index drawn at step i is an
    arbitrary value in [0, i], supplied as picks[i]. */
module ShuffleUtil {

  /** picks gives, for every position i of a list of length n, a swap partner in [0, i]. */
  predicate ValidPicks(picks: seq<int>, n: int) {
    |picks| == n && forall i :: 0 <= i < n ==> 0 <= picks[i] <= i
  }

  /** s with the elements at i and j exchanged. */
  function Swap<T>(s: seq<T>, i: int, j: int): (r: seq<T>)
    requires 0 <= i < |s| && 0 <= j < |s|
    ensures |r| == |s|
    ensures r[i] == s[j] && r[j] == s[i]
    ensures forall k :: 0 <= k < |s| && k != i && k != j ==> r[k] == s[k]
  {
    s[i := s[j]][j := s[i]]
  }

  /** Steps i, i - 1, ..., 1 of the shuffle: step k swaps positions k and picks[k]. */
  function ShuffleFrom<T>(s: seq<T>, picks: seq<int>, i: int): seq<T>
    requires ValidPicks(picks, |s|) && -1 <= i < |s|
    decreases i
  {
    if i <= 0 then s else ShuffleFrom(Swap(s, i, picks[i]), picks, i - 1)
  }

  /** The whole shuffle of s under the given random choices. */
  function Shuffled<T>(s: seq<T>, picks: seq<int>): seq<T>
    requires ValidPicks(picks, |s|)
  {
    ShuffleFrom(s, picks, |s| - 1)
  }

  /** A swap keeps the multiset of elements. */
  lemma SwapPermutes<T>(s: seq<T>, i: int, j: int)
    requires 0 <= i < |s| && 0 <= j < |s|
    ensures multiset(Swap(s, i, j)) == multiset(s)
  {
    if i != j {
      var t := s[i := s[j]];
      assert multiset(t) == multiset(s) - multiset{s[i]} + multiset{s[j]};
      assert t[j] == s[j];
      assert multiset(t[j := s[i]]) == multiset(t) - multiset{s[j]} + multiset{s[i]};
    }
  }

  /** The shuffle is a permutation: same length, same multiset. */
  lemma {:induction false} ShuffleFromPermutes<T>(s: seq<T>, picks: seq<int>, i: int)
    requires ValidPicks(picks, |s|) && -1 <= i < |s|
    ensures |ShuffleFrom(s, picks, i)| == |s|
    ensures multiset(ShuffleFrom(s, picks, i)) == multiset(s)
    decreases i
  {
    if i > 0 {
      var t := Swap(s, i, picks[i]);
      SwapPermutes(s, i, picks[i]);
      ShuffleFromPermutes(t, picks, i - 1);
    }
  }

  /** Once step i is done, positions above i are never touched again: the
      remaining steps leave every position above i as it is. */
  lemma {:induction false} ShuffleFromKeepsAbove<T>(s: seq<T>, picks: seq<int>, i: int, k: int)
    requires ValidPicks(picks, |s|) && -1 <= i < |s|
    requires i < k < |s|
    ensures |ShuffleFrom(s, picks, i)| == |s|
    ensures ShuffleFrom(s, picks, i)[k] == s[k]
    decreases i
  {
    ShuffleFromPermutes(s, picks, i);
    if i > 0 {
      ShuffleFromKeepsAbove(Swap(s, i, picks[i]), picks, i - 1, k);
    }
  }

  /** Lists of 0 or 1 elements come back unchanged. */
  lemma ShortListsUnchanged<T>(s: seq<T>, picks: seq<int>)
    requires ValidPicks(picks, |s|) && |s| <= 1
    ensures Shuffled(s, picks) == s
  {
  }

  /** Shuffles the array in place, swapping position i with picks[i] for i from
      the last position down to 1. */
  method Shuffle<T>(a: array<T>, picks: seq<int>)
    requires ValidPicks(picks, a.Length)
    modifies a
    ensures a[..] == Shuffled(old(a[..]), picks)
    ensures multiset(a[..]) == multiset(old(a[..]))
  {
    ghost var original := a[..];
    var i := a.Length - 1;
    while i > 0
      invariant -1 <= i < a.Length
      invariant ShuffleFrom(a[..], picks, i) == Shuffled(original, picks)
    {
      var j := picks[i];
      ghost var before := a[..];
      a[i], a[j] := a[j], a[i];
      assert a[..] == Swap(before, i, j);
      i := i - 1;
    }
    ShuffleFromPermutes(original, picks, a.Length - 1);
  }
}
