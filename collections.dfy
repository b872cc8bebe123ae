/*
 * Shared value types of the model: optional values, results with an error
 * message (for the places where the program raises), Python dictionaries that
 * keep insertion order, sums in Python's left-to-right order, and Python's
 * prefix slice `xs[:n]`.
 */
module Collections {

  datatype Option<+T> = None | Some(value: T)

  /** A computation that either returns a value or raises with a message. */
  datatype Result<+T> = Success(value: T) | Failure(error: string)

  // ---------------------------------------------------------------------------
  // Ordered dictionaries
  // ---------------------------------------------------------------------------

  /**
   * A Python dict whose iteration order matters: the (key, value) pairs in
   * insertion order. Assigning to an existing key keeps its position.
   */
  type Dict<K, V> = seq<(K, V)>

  function Keys<K(==), V>(d: Dict<K, V>): (ks: seq<K>)
    ensures |ks| == |d|
    ensures forall i :: 0 <= i < |d| ==> ks[i] == d[i].0
  {
    if d == [] then [] else [d[0].0] + Keys(d[1..])
  }

  predicate DistinctKeys<K(==), V>(d: Dict<K, V>) {
    forall i, j :: 0 <= i < j < |d| ==> d[i].0 != d[j].0
  }

  /** `d.get(k, default)`. */
  function Get<K(==), V>(d: Dict<K, V>, k: K, default: V): V {
    if d == [] then default
    else if d[0].0 == k then d[0].1
    else Get(d[1..], k, default)
  }

  /** `d[k] = v`: overwrite in place when present, append otherwise. */
  function Put<K(==), V>(d: Dict<K, V>, k: K, v: V): Dict<K, V> {
    if d == [] then [(k, v)]
    else if d[0].0 == k then [(k, v)] + d[1..]
    else [d[0]] + Put(d[1..], k, v)
  }

  /** Assignment keeps the key order and appends a new key at the end. */
  lemma {:induction false} PutKeys<K, V>(d: Dict<K, V>, k: K, v: V)
    ensures Keys(Put(d, k, v)) == if k in Keys(d) then Keys(d) else Keys(d) + [k]
  {
    if d != [] && d[0].0 != k {
      PutKeys(d[1..], k, v);
      assert Keys(d) == [d[0].0] + Keys(d[1..]);
      assert Keys(Put(d, k, v)) == [d[0].0] + Keys(Put(d[1..], k, v));
    }
  }

  /** After `d[k] = v` the keys are the old keys and `k`. */
  lemma {:induction false} PutMember<K, V>(d: Dict<K, V>, k: K, v: V, x: K)
    ensures x in Keys(Put(d, k, v)) <==> x in Keys(d) || x == k
  {
    PutKeys(d, k, v);
    if k !in Keys(d) {
      assert x in Keys(d) + [k] <==> x in Keys(d) || x == k;
    }
  }

  /** A missing key reads as the default. */
  lemma {:induction false} GetMissing<K, V>(d: Dict<K, V>, k: K, default: V)
    requires k !in Keys(d)
    ensures Get(d, k, default) == default
  {
    if d != [] {
      assert Keys(d) == [d[0].0] + Keys(d[1..]);
      GetMissing(d[1..], k, default);
    }
  }

  /** After `d[k] = v`, `d.get(k, x)` is `v`, whatever the default. */
  lemma {:induction false} GetPut<K, V>(d: Dict<K, V>, k: K, v: V, default: V)
    ensures Get(Put(d, k, v), k, default) == v
  {
    if d != [] && d[0].0 != k {
      GetPut(d[1..], k, v, default);
    }
  }

  /** Assigning one key leaves every other key's lookup unchanged. */
  lemma {:induction false} PutOther<K, V>(d: Dict<K, V>, k: K, v: V, k': K, dv: V)
    requires k' != k
    ensures Get(Put(d, k, v), k', dv) == Get(d, k', dv)
  {
    if d != [] && d[0].0 != k {
      PutOther(d[1..], k, v, k', dv);
      assert Put(d, k, v)[1..] == Put(d[1..], k, v);
    }
  }

  /** Looking up a key in a dictionary extended by one entry at the end. */
  lemma {:induction false} GetAppend<K, V>(d: Dict<K, V>, k: K, v: V, x: K, default: V)
    ensures Get(d + [(k, v)], x, default)
         == if x in Keys(d) then Get(d, x, default) else if x == k then v else default
  {
    if d != [] {
      assert (d + [(k, v)])[1..] == d[1..] + [(k, v)];
      assert Keys(d) == [d[0].0] + Keys(d[1..]);
      GetAppend(d[1..], k, v, x, default);
    }
  }

  /** Assigning a new key appends it. */
  lemma {:induction false} PutNew<K, V>(d: Dict<K, V>, k: K, v: V)
    requires k !in Keys(d)
    ensures Put(d, k, v) == d + [(k, v)]
  {
    if d != [] {
      var head, tail := d[0], d[1..];
      assert head.0 != k && k !in Keys(tail) by {
        assert Keys(d) == [head.0] + Keys(tail);
      }
      calc {
        Put(d, k, v);
        [head] + Put(tail, k, v);
        { PutNew(tail, k, v); }
        [head] + (tail + [(k, v)]);
        { assert d == [head] + tail; }
        d + [(k, v)];
      }
    }
  }

  /** With distinct keys, the last key does not occur before it. */
  lemma {:induction false} DistinctLast<K, V>(d: Dict<K, V>)
    requires DistinctKeys(d) && d != []
    ensures d[|d| - 1].0 !in Keys(d[..|d| - 1])
    ensures DistinctKeys(d[..|d| - 1])
  {
    var init := d[..|d| - 1];
    forall i | 0 <= i < |init| ensures Keys(init)[i] != d[|d| - 1].0 {
    }
  }

  /** Assignment keeps the keys distinct. */
  lemma {:induction false} PutDistinct<K, V>(d: Dict<K, V>, k: K, v: V)
    requires DistinctKeys(d)
    ensures DistinctKeys(Put(d, k, v))
  {
    var r := Put(d, k, v);
    PutKeys(d, k, v);
    assert forall i :: 0 <= i < |r| ==> r[i].0 == Keys(r)[i];
    assert forall i :: 0 <= i < |d| ==> d[i].0 == Keys(d)[i];
  }

  // ---------------------------------------------------------------------------
  // Sums and slices
  // ---------------------------------------------------------------------------

  /** Python's `sum(xs)`: 0 plus the elements from left to right. */
  function Sum(xs: seq<real>): real {
    if xs == [] then 0.0 else Sum(xs[..|xs| - 1]) + xs[|xs| - 1]
  }

  function SumInt(xs: seq<int>): int {
    if xs == [] then 0 else SumInt(xs[..|xs| - 1]) + xs[|xs| - 1]
  }

  lemma {:induction false} SumAppend(xs: seq<real>, ys: seq<real>)
    ensures Sum(xs + ys) == Sum(xs) + Sum(ys)
  {
    if ys != [] {
      assert (xs + ys)[..|xs + ys| - 1] == xs + ys[..|ys| - 1];
      SumAppend(xs, ys[..|ys| - 1]);
    } else {
      assert xs + ys == xs;
    }
  }

  lemma {:induction false} SumIntAppend(xs: seq<int>, ys: seq<int>)
    ensures SumInt(xs + ys) == SumInt(xs) + SumInt(ys)
  {
    if ys != [] {
      assert (xs + ys)[..|xs + ys| - 1] == xs + ys[..|ys| - 1];
      SumIntAppend(xs, ys[..|ys| - 1]);
    } else {
      assert xs + ys == xs;
    }
  }

  /** Every element non-negative makes the sum non-negative. */
  lemma {:induction false} SumNonNegative(xs: seq<real>)
    requires forall i :: 0 <= i < |xs| ==> xs[i] >= 0.0
    ensures Sum(xs) >= 0.0
  {
    if xs != [] {
      SumNonNegative(xs[..|xs| - 1]);
    }
  }

  /** A sum of non-negative terms is zero only when every term is. */
  lemma {:induction false} SumZeroAllZero(xs: seq<real>)
    requires forall i :: 0 <= i < |xs| ==> xs[i] >= 0.0
    requires Sum(xs) == 0.0
    ensures forall i :: 0 <= i < |xs| ==> xs[i] == 0.0
  {
    if xs != [] {
      var init := xs[..|xs| - 1];
      SumNonNegative(init);
      SumZeroAllZero(init);
      forall i | 0 <= i < |xs| ensures xs[i] == 0.0 {
        if i < |xs| - 1 { assert xs[i] == init[i]; }
      }
    }
  }

  /** Python's prefix slice `xs[:n]`, negative `n` counting from the end. */
  function Take<T>(xs: seq<T>, n: int): (r: seq<T>)
    ensures 0 <= n ==> |r| <= n
    ensures |r| <= |xs| && r == xs[..|r|]
    ensures 0 <= n <= |xs| ==> |r| == n
    ensures n >= |xs| ==> r == xs
  {
    if n >= |xs| then xs
    else if n >= 0 then xs[..n]
    else if |xs| + n >= 0 then xs[..|xs| + n]
    else []
  }

  /** `[f(x) for x in xs]`. */
  function Map<T, U>(xs: seq<T>, f: T -> U): (r: seq<U>)
    ensures |r| == |xs|
    ensures forall i :: 0 <= i < |xs| ==> r[i] == f(xs[i])
  {
    if xs == [] then [] else Map(xs[..|xs| - 1], f) + [f(xs[|xs| - 1])]
  }

  /** Mapping one more element of a prefix appends its image. */
  lemma {:induction false} MapPrefix<T, U>(xs: seq<T>, f: T -> U, i: nat)
    requires i < |xs|
    ensures Map(xs[..i + 1], f) == Map(xs[..i], f) + [f(xs[i])]
  {
    assert xs[..i + 1][..i] == xs[..i] && xs[..i + 1][i] == xs[i];
  }

  /** The elements of `xs` that satisfy `p`, in order (a list comprehension's filter). */
  function Filter<T(==)>(xs: seq<T>, p: T -> bool): (r: seq<T>)
    ensures |r| <= |xs|
    ensures forall i :: 0 <= i < |r| ==> p(r[i]) && r[i] in xs
    ensures forall x :: x in xs && p(x) ==> x in r
  {
    if xs == [] then []
    else if p(xs[0]) then [xs[0]] + Filter(xs[1..], p)
    else Filter(xs[1..], p)
  }

  /** Nothing satisfies the filter, so nothing is kept. */
  lemma {:induction false} FilterNone<T>(xs: seq<T>, p: T -> bool)
    requires forall x :: x in xs ==> !p(x)
    ensures Filter(xs, p) == []
  {
    if xs != [] {
      FilterNone(xs[1..], p);
    }
  }

  /** Filtering a list extended at the end. */
  lemma {:induction false} FilterSnoc<T>(xs: seq<T>, y: T, p: T -> bool)
    ensures Filter(xs + [y], p) == Filter(xs, p) + if p(y) then [y] else []
  {
    if xs != [] {
      assert (xs + [y])[1..] == xs[1..] + [y];
      FilterSnoc(xs[1..], y, p);
    }
  }

  /** Filtering one more element of a list's prefix. */
  lemma {:induction false} FilterPrefix<T>(xs: seq<T>, i: nat, p: T -> bool)
    requires i < |xs|
    ensures Filter(xs[..i + 1], p) == Filter(xs[..i], p) + if p(xs[i]) then [xs[i]] else []
  {
    assert xs[..i + 1] == xs[..i] + [xs[i]];
    FilterSnoc(xs[..i], xs[i], p);
  }

  /** What a filter keeps and what its complement keeps make up the whole list. */
  lemma {:induction false} FilterPartition<T>(xs: seq<T>, p: T -> bool, q: T -> bool)
    requires forall x :: x in xs ==> (q(x) <==> !p(x))
    ensures multiset(Filter(xs, p)) + multiset(Filter(xs, q)) == multiset(xs)
  {
    if xs != [] {
      var x, rest := xs[0], xs[1..];
      assert forall y :: y in rest ==> y in xs;
      FilterPartition(rest, p, q);
      var fp, fq := Filter(rest, p), Filter(rest, q);
      assert multiset(xs) == multiset{x} + multiset(rest) by {
        assert xs == [x] + rest;
      }
      if p(x) {
        assert Filter(xs, p) == [x] + fp && Filter(xs, q) == fq;
        assert multiset([x] + fp) == multiset{x} + multiset(fp);
      } else {
        assert Filter(xs, q) == [x] + fq && Filter(xs, p) == fp;
        assert multiset([x] + fq) == multiset{x} + multiset(fq);
      }
    }
  }

  /** The maximum over a non-empty list. */
  function Max(xs: seq<real>): (m: real)
    requires xs != []
    ensures m in xs
    ensures forall i :: 0 <= i < |xs| ==> xs[i] <= m
  {
    if |xs| == 1 then xs[0]
    else
      var m' := Max(xs[1..]);
      assert forall i :: 1 <= i < |xs| ==> xs[i] == xs[1..][i - 1];
      if xs[0] >= m' then xs[0] else m'
  }

  function Min(xs: seq<real>): (m: real)
    requires xs != []
    ensures m in xs
    ensures forall i :: 0 <= i < |xs| ==> m <= xs[i]
  {
    if |xs| == 1 then xs[0]
    else
      var m' := Min(xs[1..]);
      assert forall i :: 1 <= i < |xs| ==> xs[i] == xs[1..][i - 1];
      if xs[0] <= m' then xs[0] else m'
  }

  /** A mean lies between the minimum and the maximum. */
  lemma {:induction false} SumBounds(xs: seq<real>, lo: real, hi: real)
    requires forall i :: 0 <= i < |xs| ==> lo <= xs[i] <= hi
    ensures |xs| as real * lo <= Sum(xs) <= |xs| as real * hi
  {
    if xs != [] {
      SumBounds(xs[..|xs| - 1], lo, hi);
    }
  }
}
