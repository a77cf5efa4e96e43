/**
 * `Array.prototype.sort` with a numeric comparator `(a, b) => key(a) - key(b)`.
 * JavaScript's sort is stable; this is a stable insertion sort on the key.
 */
module Sorting {

  ghost predicate SortedBy<T>(s: seq<T>, key: T -> real) {
    forall i, j :: 0 <= i < j < |s| ==> key(s[i]) <= key(s[j])
  }

  /** Inserts `x` before the first element whose key is not below `key(x)`. */
  function Insert<T>(x: T, s: seq<T>, key: T -> real): (r: seq<T>)
    ensures |r| == |s| + 1
    ensures multiset(r) == multiset(s) + multiset{x}
    ensures r[0] == x || (s != [] && r[0] == s[0])
  {
    if s == [] || key(x) <= key(s[0]) then [x] + s
    else
      var rest := Insert(x, s[1..], key);
      assert s == [s[0]] + s[1..];
      [s[0]] + rest
  }

  /** Inserting into a sorted sequence keeps it sorted. */
  lemma {:induction false} InsertSorted<T>(x: T, s: seq<T>, key: T -> real)
    requires SortedBy(s, key)
    ensures SortedBy(Insert(x, s, key), key)
  {
    if s != [] && key(x) > key(s[0]) {
      var tail := s[1..];
      InsertSorted(x, tail, key);
      var rest := Insert(x, tail, key);
      assert Insert(x, s, key) == [s[0]] + rest;
      forall j | 0 <= j < |rest|
        ensures key(s[0]) <= key(rest[j])
      {
        assert rest[j] in multiset(rest);
        if rest[j] != x {
          assert rest[j] in multiset(tail);
          var k :| 0 <= k < |tail| && tail[k] == rest[j];
          assert s[k + 1] == rest[j];
        }
      }
    }
  }

  /** The elements of `s` in ascending key order; equal keys keep their order. */
  function SortBy<T>(s: seq<T>, key: T -> real): (r: seq<T>)
    ensures |r| == |s|
    ensures multiset(r) == multiset(s)
    ensures SortedBy(r, key)
  {
    if s == [] then []
    else
      assert s == [s[0]] + s[1..];
      InsertSorted(s[0], SortBy(s[1..], key), key);
      Insert(s[0], SortBy(s[1..], key), key)
  }

  /** When every key is the same, the sort keeps the input as it is. */
  lemma {:induction false} SortByEqualKeys<T>(s: seq<T>, key: T -> real, c: real)
    requires forall i :: 0 <= i < |s| ==> key(s[i]) == c
    ensures SortBy(s, key) == s
  {
    if s != [] {
      var tail := s[1..];
      assert forall i :: 0 <= i < |tail| ==> key(tail[i]) == c by {
        forall i | 0 <= i < |tail|
          ensures key(tail[i]) == c
        {
          assert tail[i] == s[i + 1];
        }
      }
      SortByEqualKeys(tail, key, c);
      assert s == [s[0]] + tail;
    }
  }

  /** The first `n` elements of a sorted sequence have keys no larger than any element left out. */
  lemma SortedPrefixIsSmallest<T>(sorted: seq<T>, key: T -> real, n: nat, m: T)
    requires SortedBy(sorted, key) && n <= |sorted|
    requires m in sorted && m !in sorted[..n]
    ensures forall k :: 0 <= k < n ==> key(sorted[k]) <= key(m)
  {
    var j :| 0 <= j < |sorted| && sorted[j] == m;
  }

  /** Every element of the sorted sequence comes from the input, and back. */
  lemma SortByElements<T>(s: seq<T>, key: T -> real, x: T)
    ensures x in SortBy(s, key) <==> x in s
  {
    assert x in SortBy(s, key) <==> x in multiset(SortBy(s, key));
  }
}
