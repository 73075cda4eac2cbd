/** Ranking primitives shared by the routers: the left-to-right scan that keeps the first strictly
    larger score (Python's `max`, the Go loops with `score > bestScore`) and a stable sort by
    descending key (Python's `sorted(..., reverse=True)`). */
module Ranking {
  import opened Wrappers

  /** Index of the first maximal element of `s`, as found by a left-to-right scan that replaces
      the current best only on a strictly larger value. */
  function FirstMaxIndex(s: seq<real>): (k: nat)
    requires |s| > 0
    ensures k < |s|
    ensures forall j :: 0 <= j < |s| ==> s[j] <= s[k]
    ensures forall j :: 0 <= j < k ==> s[j] < s[k]
  {
    if |s| == 1 then 0
    else
      var k := FirstMaxIndex(s[..|s| - 1]);
      if s[|s| - 1] > s[k] then |s| - 1 else k
  }

  function RemoveAt<T>(s: seq<T>, k: nat): (r: seq<T>)
    requires k < |s|
    ensures |r| == |s| - 1
    ensures multiset(r) + multiset{s[k]} == multiset(s)
  {
    assert s == s[..k] + [s[k]] + s[k + 1..];
    s[..k] + s[k + 1..]
  }

  /** A stable sort by descending key: repeatedly take the first element of maximal key. */
  function SortDesc<T>(s: seq<T>, key: T -> real): (r: seq<T>)
    ensures |r| == |s|
    ensures multiset(r) == multiset(s)
    ensures forall i, j :: 0 <= i < j < |r| ==> key(r[i]) >= key(r[j])
    decreases |s|
  {
    if |s| == 0 then []
    else
      var k := FirstMaxIndex(MapSeq(s, key));
      var rest := SortDesc(RemoveAt(s, k), key);
      MaxBoundsPermutation(s, key, k, rest);
      assert multiset([s[k]] + rest) == multiset{s[k]} + multiset(RemoveAt(s, k));
      [s[k]] + rest
  }

  /** Every element of a permutation of `s` minus position `k` has a key at most that of the
      maximal element `s[k]`. */
  lemma MaxBoundsPermutation<T>(s: seq<T>, key: T -> real, k: nat, rest: seq<T>)
    requires |s| > 0 && k == FirstMaxIndex(MapSeq(s, key))
    requires multiset(rest) == multiset(RemoveAt(s, k))
    ensures forall j :: 0 <= j < |rest| ==> key(rest[j]) <= key(s[k])
  {
    forall j | 0 <= j < |rest|
      ensures key(rest[j]) <= key(s[k])
    {
      assert rest[j] in multiset(rest);
      assert rest[j] in multiset(s);
      var i :| 0 <= i < |s| && s[i] == rest[j];
      assert MapSeq(s, key)[i] <= MapSeq(s, key)[k];
    }
  }

  /** The head of the sorted sequence is the first maximal element, and the tail is the sorted
      rest: so elements after the head never include that position. */
  lemma SortDescHead<T>(s: seq<T>, key: T -> real)
    requires |s| > 0
    ensures SortDesc(s, key)[0] == s[FirstMaxIndex(MapSeq(s, key))]
    ensures SortDesc(s, key)[1..] == SortDesc(RemoveAt(s, FirstMaxIndex(MapSeq(s, key))), key)
  {
  }
}
