/** Sorting by a numeric key, as `DataFrame.sort_values` does it. The sort used
    there is not stable, so the model promises only what any correct sort
    gives: the same rows, ordered by key. Rows with equal keys may come out in
    any order, and every property built on top is stated for whatever order
    the sort chose. */
module Sorting {

  predicate SortedBy<T>(s: seq<T>, key: T -> real) {
    forall i, j :: 0 <= i < j < |s| ==> key(s[i]) <= key(s[j])
  }

  function Insert<T>(x: T, s: seq<T>, key: T -> real): (r: seq<T>)
    requires SortedBy(s, key)
    ensures multiset(r) == multiset(s) + multiset{x}
    ensures SortedBy(r, key)
  {
    if |s| == 0 then [x]
    else if key(x) <= key(s[0]) then [x] + s
    else
      assert s == [s[0]] + s[1..];
      var rest := Insert(x, s[1..], key);
      HeadBelowInserted(x, s, key, rest);
      [s[0]] + rest
  }

  /** The head of a sorted sequence stays at or below everything in the rest
      once a larger element is inserted there. */
  lemma HeadBelowInserted<T>(x: T, s: seq<T>, key: T -> real, rest: seq<T>)
    requires |s| > 0 && SortedBy(s, key) && key(s[0]) < key(x)
    requires multiset(rest) == multiset(s[1..]) + multiset{x}
    ensures forall k :: 0 <= k < |rest| ==> key(s[0]) <= key(rest[k])
  {
    forall k | 0 <= k < |rest|
      ensures key(s[0]) <= key(rest[k])
    {
      assert rest[k] in multiset(rest);
      if rest[k] != x {
        assert rest[k] in multiset(s[1..]);
        var j :| 0 <= j < |s[1..]| && s[1..][j] == rest[k];
        assert s[j + 1] == rest[k];
      }
    }
  }

  /** Ascending by `key`; a permutation of the input. */
  function SortBy<T>(s: seq<T>, key: T -> real): (r: seq<T>)
    ensures multiset(r) == multiset(s)
    ensures |r| == |s|
    ensures SortedBy(r, key)
  {
    if |s| == 0 then []
    else
      assert s == [s[0]] + s[1..];
      Insert(s[0], SortBy(s[1..], key), key)
  }

  /** After sorting, the last row carries a largest key of the input. */
  lemma {:induction false} LastIsMaximal<T>(s: seq<T>, key: T -> real)
    requires |s| > 0
    ensures SortBy(s, key)[|s| - 1] in s
    ensures forall x :: x in s ==> key(x) <= key(SortBy(s, key)[|s| - 1])
  {
    var r := SortBy(s, key);
    assert r[|s| - 1] in multiset(r);
    forall x | x in s
      ensures key(x) <= key(r[|s| - 1])
    {
      assert x in multiset(s);
      assert x in multiset(r);
      var j :| 0 <= j < |r| && r[j] == x;
    }
  }

  /** Cutting a sorted sequence after `k` rows keeps rows of the input, and every
      row cut off has a key no smaller than any row kept. */
  lemma PrefixKeepsSmallest<T>(s: seq<T>, key: T -> real, k: nat)
    requires SortedBy(s, key) && k <= |s|
    ensures SortedBy(s[..k], key)
    ensures multiset(s[..k]) <= multiset(s)
    ensures forall x :: x in multiset(s) - multiset(s[..k]) ==>
      forall i :: 0 <= i < k ==> key(s[i]) <= key(x)
  {
    assert s == s[..k] + s[k..];
    assert multiset(s) == multiset(s[..k]) + multiset(s[k..]);
    forall x, i | x in multiset(s) - multiset(s[..k]) && 0 <= i < k
      ensures key(s[i]) <= key(x)
    {
      assert x in multiset(s[k..]);
      var j :| 0 <= j < |s[k..]| && s[k..][j] == x;
      assert s[k + j] == x;
    }
  }
}
