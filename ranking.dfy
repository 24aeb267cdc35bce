/** The ranking step shared by the backend searches: Python's stable
    `list.sort(key=..., reverse=True)` and the slice `results[:k]`. */
module Ranking {

  /** Scores never increase from front to back. */
  predicate SortedDesc<T>(s: seq<T>, score: T -> real)
  {
    forall i, j :: 0 <= i < j < |s| ==> score(s[i]) >= score(s[j])
  }

  /** No two elements share an identity. */
  predicate DistinctBy<T>(s: seq<T>, key: T -> string)
  {
    forall i, j :: 0 <= i < j < |s| ==> key(s[i]) != key(s[j])
  }

  /** `x` placed before the first element that does not score higher, so that
      among equal scores the element that came first stays first. */
  function InsertDesc<T>(x: T, s: seq<T>, score: T -> real): (r: seq<T>)
    ensures |r| == |s| + 1
    ensures multiset(r) == multiset(s) + multiset{x}
  {
    if s == [] then [x]
    else if score(s[0]) <= score(x) then [x] + s
    else
      var rest := InsertDesc(x, s[1..], score);
      assert s == [s[0]] + s[1..];
      [s[0]] + rest
  }

  /** The stable descending sort. */
  function SortDesc<T>(s: seq<T>, score: T -> real): (r: seq<T>)
    ensures |r| == |s|
    ensures multiset(r) == multiset(s)
  {
    if s == [] then []
    else
      assert s == [s[0]] + s[1..];
      InsertDesc(s[0], SortDesc(s[1..], score), score)
  }

  lemma {:induction false} InsertDescSorted<T>(x: T, s: seq<T>, score: T -> real)
    requires SortedDesc(s, score)
    ensures SortedDesc(InsertDesc(x, s, score), score)
    decreases |s|
  {
    if s != [] && score(s[0]) > score(x) {
      InsertDescSorted(x, s[1..], score);
      var r := InsertDesc(x, s, score);
      var rest := InsertDesc(x, s[1..], score);
      assert r == [s[0]] + rest;
      forall k | 0 <= k < |rest|
        ensures score(s[0]) >= score(rest[k])
      {
        assert rest[k] in multiset(rest);
        assert rest[k] == x || rest[k] in multiset(s[1..]);
        if rest[k] != x {
          var m :| 0 <= m < |s[1..]| && s[1..][m] == rest[k];
          assert s[1..][m] == s[m + 1];
        }
      }
    }
  }

  /** The sort's result is in descending score order and is a permutation of
      its input. */
  lemma {:induction false} SortDescSorted<T>(s: seq<T>, score: T -> real)
    ensures SortedDesc(SortDesc(s, score), score)
    ensures multiset(SortDesc(s, score)) == multiset(s)
    decreases |s|
  {
    if s != [] {
      SortDescSorted(s[1..], score);
      InsertDescSorted(s[0], SortDesc(s[1..], score), score);
    }
  }

  /** Inserting an element whose identity is new keeps identities distinct. */
  lemma {:induction false} InsertDescDistinct<T>(x: T, s: seq<T>, score: T -> real, key: T -> string)
    requires DistinctBy(s, key)
    requires forall y :: y in s ==> key(y) != key(x)
    ensures DistinctBy(InsertDesc(x, s, score), key)
    decreases |s|
  {
    if s != [] && score(s[0]) > score(x) {
      InsertDescDistinct(x, s[1..], score, key);
      var rest := InsertDesc(x, s[1..], score);
      forall k | 0 <= k < |rest|
        ensures key(s[0]) != key(rest[k])
      {
        assert rest[k] in multiset(rest);
        if rest[k] != x {
          assert rest[k] in multiset(s[1..]);
          var m :| 0 <= m < |s[1..]| && s[1..][m] == rest[k];
          assert s[1..][m] == s[m + 1];
        }
      }
    } else if s != [] {
      assert forall k :: 0 <= k < |s| ==> ([x] + s)[k + 1] == s[k];
    }
  }

  /** Sorting keeps identities distinct. */
  lemma {:induction false} SortDescDistinct<T>(s: seq<T>, score: T -> real, key: T -> string)
    requires DistinctBy(s, key)
    ensures DistinctBy(SortDesc(s, score), key)
    decreases |s|
  {
    if s != [] {
      var tail := s[1..];
      assert DistinctBy(tail, key) by {
        assert forall i :: 0 <= i < |tail| ==> tail[i] == s[i + 1];
      }
      SortDescDistinct(tail, score, key);
      var sorted := SortDesc(tail, score);
      forall y | y in sorted
        ensures key(y) != key(s[0])
      {
        assert y in multiset(sorted);
        assert y in multiset(tail);
        var m :| 0 <= m < |tail| && tail[m] == y;
        assert tail[m] == s[m + 1];
      }
      InsertDescDistinct(s[0], sorted, score, key);
    }
  }

  /** Python's `s[:k]`: the first `k` elements, or all but the last `-k` when
      `k` is negative. */
  function PySliceTo<T>(s: seq<T>, k: int): (r: seq<T>)
    ensures |r| == if k >= 0 then (if k < |s| then k else |s|) else (if |s| + k > 0 then |s| + k else 0)
    ensures r == s[..|r|]
  {
    if k >= 0 then (if k < |s| then s[..k] else s)
    else (if |s| + k > 0 then s[..|s| + k] else [])
  }

  /** A prefix of a sorted, duplicate-free list is sorted and duplicate-free, and
      every element it keeps is one of the list's. */
  lemma PrefixKeeps<T>(s: seq<T>, k: int, score: T -> real, key: T -> string)
    ensures SortedDesc(s, score) ==> SortedDesc(PySliceTo(s, k), score)
    ensures DistinctBy(s, key) ==> DistinctBy(PySliceTo(s, k), key)
    ensures forall x :: x in PySliceTo(s, k) ==> x in s
  {
    var r := PySliceTo(s, k);
    assert forall i :: 0 <= i < |r| ==> r[i] == s[i];
  }

  /** Cutting a sorted list keeps the best: whatever is cut off scores no
      higher than anything kept. */
  lemma CutKeepsBest<T>(s: seq<T>, k: int, score: T -> real)
    requires SortedDesc(s, score)
    ensures forall x, y :: x in PySliceTo(s, k) && y in s && y !in PySliceTo(s, k) ==> score(y) <= score(x)
  {
    var r := PySliceTo(s, k);
    forall x, y | x in r && y in s && y !in r
      ensures score(y) <= score(x)
    {
      var i :| 0 <= i < |r| && r[i] == x;
      var j :| 0 <= j < |s| && s[j] == y;
      assert r[i] == s[i];
    }
  }
}
