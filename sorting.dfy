/*
 * Python's `sorted(xs, key=key, reverse=True)` and `list.sort(...)` with the
 * same arguments: a stable sort into non-increasing key order. An ascending
 * stable sort is the descending one on the negated key.
 */
module Sorting {

  predicate NonIncreasing<T>(xs: seq<T>, key: T -> real) {
    forall i, j :: 0 <= i < j < |xs| ==> key(xs[i]) >= key(xs[j])
  }

  /** The elements of `xs` whose key equals `v`, in order. */
  function Select<T>(xs: seq<T>, key: T -> real, v: real): seq<T> {
    if xs == [] then []
    else if key(xs[0]) == v then [xs[0]] + Select(xs[1..], key, v)
    else Select(xs[1..], key, v)
  }

  /** Places `x` in front of the first element whose key is not larger. */
  function Insert<T>(x: T, ys: seq<T>, key: T -> real): (r: seq<T>)
    ensures |r| == |ys| + 1
    ensures multiset(r) == multiset(ys) + multiset{x}
  {
    if ys == [] then [x]
    else if key(x) >= key(ys[0]) then [x] + ys
    else
      assert ys == [ys[0]] + ys[1..];
      [ys[0]] + Insert(x, ys[1..], key)
  }

  /** Inserting below a bound keeps every key below it. */
  lemma {:induction false} InsertBounded<T>(x: T, ys: seq<T>, key: T -> real, bound: real)
    requires key(x) <= bound
    requires forall i :: 0 <= i < |ys| ==> key(ys[i]) <= bound
    ensures forall i :: 0 <= i < |Insert(x, ys, key)| ==> key(Insert(x, ys, key)[i]) <= bound
  {
    if ys != [] && key(x) < key(ys[0]) {
      InsertBounded(x, ys[1..], key, bound);
    }
  }

  lemma {:induction false} InsertSorted<T>(x: T, ys: seq<T>, key: T -> real)
    requires NonIncreasing(ys, key)
    ensures NonIncreasing(Insert(x, ys, key), key)
  {
    if ys != [] && key(x) < key(ys[0]) {
      InsertSorted(x, ys[1..], key);
      InsertBounded(x, ys[1..], key, key(ys[0]));
    }
  }

  lemma {:induction false} MultisetCons<T>(xs: seq<T>)
    requires xs != []
    ensures multiset(xs) == multiset(xs[1..]) + multiset{xs[0]}
  {
    assert xs == [xs[0]] + xs[1..];
  }

  /** Stable sort into non-increasing key order (the result of Python's stable sort). */
  function SortDesc<T>(xs: seq<T>, key: T -> real): (r: seq<T>)
    ensures |r| == |xs|
    ensures multiset(r) == multiset(xs)
    ensures NonIncreasing(r, key)
  {
    if xs == [] then []
    else
      var rest := SortDesc(xs[1..], key);
      InsertSorted(xs[0], rest, key);
      MultisetCons(xs);
      Insert(xs[0], rest, key)
  }

  lemma {:induction false} SelectInsert<T>(x: T, ys: seq<T>, key: T -> real, v: real)
    ensures Select(Insert(x, ys, key), key, v)
         == (if key(x) == v then [x] else []) + Select(ys, key, v)
  {
    if ys == [] {
    } else if key(x) >= key(ys[0]) {
      assert ([x] + ys)[1..] == ys;
    } else {
      SelectInsert(x, ys[1..], key, v);
      var r := [ys[0]] + Insert(x, ys[1..], key);
      assert r[1..] == Insert(x, ys[1..], key);
    }
  }

  /**
   * Stability: for every key value, the elements carrying it appear in the
   * sorted list in the same relative order as in the input.
   */
  lemma {:induction false} SortDescStable<T>(xs: seq<T>, key: T -> real, v: real)
    ensures Select(SortDesc(xs, key), key, v) == Select(xs, key, v)
  {
    if xs != [] {
      SortDescStable(xs[1..], key, v);
      SelectInsert(xs[0], SortDesc(xs[1..], key), key, v);
    }
  }

  /** A list already in non-increasing order is left as it is. */
  lemma {:induction false} SortDescSorted<T>(xs: seq<T>, key: T -> real)
    requires NonIncreasing(xs, key)
    ensures SortDesc(xs, key) == xs
  {
    if xs != [] {
      SortDescSorted(xs[1..], key);
      if |xs| > 1 {
        assert key(xs[0]) >= key(xs[1..][0]);
      }
    }
  }

  /** An element of the list that is not among the first k sits at an index from k on. */
  lemma {:induction false} IndexAfter<T>(s: seq<T>, k: nat, x: T) returns (j: nat)
    requires k <= |s| && x in multiset(s) - multiset(s[..k])
    ensures k <= j < |s| && s[j] == x
  {
    assert s == s[..k] + s[k..];
    assert multiset(s) == multiset(s[..k]) + multiset(s[k..]);
    assert x in s[k..];
    var i :| 0 <= i < |s[k..]| && s[k..][i] == x;
    j := k + i;
  }

  /** A prefix of the sorted list is ordered and is part of the input. */
  lemma {:induction false} SortedPrefix<T>(xs: seq<T>, key: T -> real, k: nat)
    requires k <= |xs|
    ensures NonIncreasing(SortDesc(xs, key)[..k], key)
    ensures multiset(SortDesc(xs, key)[..k]) <= multiset(xs)
    ensures forall i :: 0 <= i < k ==> SortDesc(xs, key)[i] in xs
  {
    var s := SortDesc(xs, key);
    assert s == s[..k] + s[k..];
    forall i | 0 <= i < k ensures s[i] in xs {
      assert s[i] in multiset(s);
    }
  }

  /**
   * A prefix of the sorted list is a top-k: it is part of the input, and
   * nothing left out has a larger key than the last element kept.
   */
  lemma {:induction false} TopK<T>(xs: seq<T>, key: T -> real, k: nat)
    requires 0 < k <= |xs|
    ensures multiset(SortDesc(xs, key)[..k]) <= multiset(xs)
    ensures forall x :: x in multiset(xs) - multiset(SortDesc(xs, key)[..k]) ==>
      key(x) <= key(SortDesc(xs, key)[k - 1])
  {
    var s := SortDesc(xs, key);
    assert s == s[..k] + s[k..];
    forall x | x in multiset(xs) - multiset(s[..k])
      ensures key(x) <= key(s[k - 1])
    {
      var j := IndexAfter(s, k, x);
    }
  }
}
