/**
 * The two kinds of `list.sort` the portfolio code performs.
 *
 * A sort whose key takes a handful of small integer values (severity ranks,
 * summary priorities) is Python's stable sort: the result lists the items of
 * the lowest key first, then the next key, each group in input order.  That
 * is `KeySort`, written as a concatenation of key buckets; its three defining
 * properties (ordered by key, a permutation, stable) are proved below.
 *
 * A descending sort on a real-valued key (ROI, unrealised value, budget) is
 * the method `SortDescending`, an insertion sort.  It is stable as well: the
 * items of each key value keep their input order (`SameBuckets`).
 */
module Sorting {

  /** The items of `xs` whose key is `v`, in input order. */
  function Bucket<T, K(==)>(xs: seq<T>, key: T -> K, v: K): (r: seq<T>)
    ensures |r| <= |xs|
    ensures forall i :: 0 <= i < |r| ==> key(r[i]) == v
  {
    if xs == [] then []
    else
      assert xs == [xs[0]] + xs[1..];
      (if key(xs[0]) == v then [xs[0]] else []) + Bucket(xs[1..], key, v)
  }

  /** Python's stable `sorted(xs, key=key)` for keys in `lo..hi`. */
  function KeySort<T>(xs: seq<T>, key: T -> nat, lo: nat, hi: nat): (r: seq<T>)
    ensures forall i :: 0 <= i < |r| ==> lo <= key(r[i]) <= hi
    decreases hi + 1 - lo
  {
    if lo > hi then [] else Bucket(xs, key, lo) + KeySort(xs, key, lo + 1, hi)
  }

  predicate SortedByKey<T>(r: seq<T>, key: T -> nat) {
    forall i, j :: 0 <= i < j < |r| ==> key(r[i]) <= key(r[j])
  }

  predicate KeysAtMost<T>(xs: seq<T>, key: T -> nat, hi: nat) {
    forall i :: 0 <= i < |xs| ==> key(xs[i]) <= hi
  }

  lemma {:induction false} KeySortSorted<T>(xs: seq<T>, key: T -> nat, lo: nat, hi: nat)
    ensures SortedByKey(KeySort(xs, key, lo, hi), key)
    decreases hi + 1 - lo
  {
    if lo <= hi {
      KeySortSorted(xs, key, lo + 1, hi);
    }
  }

  lemma {:induction false} BucketAppend<T, K>(a: seq<T>, b: seq<T>, key: T -> K, v: K)
    ensures Bucket(a + b, key, v) == Bucket(a, key, v) + Bucket(b, key, v)
    decreases |a|
  {
    if a != [] {
      assert (a + b)[1..] == a[1..] + b;
      BucketAppend(a[1..], b, key, v);
    } else {
      assert a + b == b;
    }
  }

  /** Bucketing twice: the inner bucket already holds only key `w`. */
  lemma {:induction false} BucketOfBucket<T>(xs: seq<T>, key: T -> nat, w: nat, v: nat)
    ensures Bucket(Bucket(xs, key, w), key, v) == if w == v then Bucket(xs, key, v) else []
    decreases |xs|
  {
    if xs != [] {
      BucketOfBucket(xs[1..], key, w, v);
      var head := if key(xs[0]) == w then [xs[0]] else [];
      BucketAppend(head, Bucket(xs[1..], key, w), key, v);
    }
  }

  /** The items with key `v` are in `v`'s bucket and in no other. */
  lemma {:induction false} BucketOfKeySort<T>(xs: seq<T>, key: T -> nat, lo: nat, hi: nat, v: nat)
    ensures Bucket(KeySort(xs, key, lo, hi), key, v) == if lo <= v <= hi then Bucket(xs, key, v) else []
    decreases hi + 1 - lo
  {
    if lo <= hi {
      var first := Bucket(xs, key, lo);
      var rest := KeySort(xs, key, lo + 1, hi);
      assert KeySort(xs, key, lo, hi) == first + rest;
      BucketAppend(first, rest, key, v);
      BucketOfBucket(xs, key, lo, v);
      BucketOfKeySort(xs, key, lo + 1, hi, v);
      if v == lo {
        assert Bucket(rest, key, v) == [];
        assert Bucket(first, key, v) == Bucket(xs, key, v);
      } else {
        assert Bucket(first, key, v) == [];
      }
    }
  }

  /** Stability: the items of each key keep their relative input order. */
  lemma KeySortStable<T>(xs: seq<T>, key: T -> nat, hi: nat, v: nat)
    requires v <= hi
    ensures Bucket(KeySort(xs, key, 0, hi), key, v) == Bucket(xs, key, v)
  {
    BucketOfKeySort(xs, key, 0, hi, v);
  }

  /** The items of `xs` whose key lies in `lo..hi`, in input order. */
  function InRange<T>(xs: seq<T>, key: T -> nat, lo: nat, hi: nat): seq<T> {
    if xs == [] then []
    else (if lo <= key(xs[0]) <= hi then [xs[0]] else []) + InRange(xs[1..], key, lo, hi)
  }

  /** Splitting off the lowest key of the range. */
  lemma {:induction false} InRangeSplit<T>(xs: seq<T>, key: T -> nat, lo: nat, hi: nat)
    requires lo <= hi
    ensures multiset(InRange(xs, key, lo, hi)) == multiset(Bucket(xs, key, lo)) + multiset(InRange(xs, key, lo + 1, hi))
    decreases |xs|
  {
    if xs != [] {
      InRangeSplit(xs[1..], key, lo, hi);
    }
  }

  lemma {:induction false} KeySortCollects<T>(xs: seq<T>, key: T -> nat, lo: nat, hi: nat)
    ensures multiset(KeySort(xs, key, lo, hi)) == multiset(InRange(xs, key, lo, hi))
    decreases hi + 1 - lo
  {
    if lo <= hi {
      KeySortCollects(xs, key, lo + 1, hi);
      InRangeSplit(xs, key, lo, hi);
    } else {
      NothingInEmptyRange(xs, key, lo, hi);
    }
  }

  lemma {:induction false} NothingInEmptyRange<T>(xs: seq<T>, key: T -> nat, lo: nat, hi: nat)
    requires hi < lo
    ensures InRange(xs, key, lo, hi) == []
    decreases |xs|
  {
    if xs != [] { NothingInEmptyRange(xs[1..], key, lo, hi); }
  }

  lemma {:induction false} AllInRange<T>(xs: seq<T>, key: T -> nat, lo: nat, hi: nat)
    requires forall i :: 0 <= i < |xs| ==> lo <= key(xs[i]) <= hi
    ensures InRange(xs, key, lo, hi) == xs
    decreases |xs|
  {
    if xs != [] {
      AllInRange(xs[1..], key, lo, hi);
      assert xs == [xs[0]] + xs[1..];
    }
  }

  /** Python's stable sort: ordered by key, a permutation, and stable. */
  lemma KeySortIsStableSort<T>(xs: seq<T>, key: T -> nat, hi: nat)
    requires KeysAtMost(xs, key, hi)
    ensures SortedByKey(KeySort(xs, key, 0, hi), key)
    ensures multiset(KeySort(xs, key, 0, hi)) == multiset(xs)
    ensures forall v: nat :: v <= hi ==> Bucket(KeySort(xs, key, 0, hi), key, v) == Bucket(xs, key, v)
  {
    KeySortSorted(xs, key, 0, hi);
    KeySortCollects(xs, key, 0, hi);
    AllInRange(xs, key, 0, hi);
    forall v: nat | v <= hi
      ensures Bucket(KeySort(xs, key, 0, hi), key, v) == Bucket(xs, key, v)
    {
      KeySortStable(xs, key, hi, v);
    }
  }

  // ---------------------------------------------------------------------
  // Descending sort on a real key
  // ---------------------------------------------------------------------

  predicate SortedDescending<T>(r: seq<T>, key: T -> real) {
    forall i, j :: 0 <= i < j < |r| ==> key(r[i]) >= key(r[j])
  }

  /** Inserting `x` after every item whose key is at least `x`'s keeps the order. */
  lemma InsertKeepsOrder<T>(r: seq<T>, k: nat, x: T, key: T -> real)
    requires SortedDescending(r, key) && k <= |r|
    requires forall i :: 0 <= i < k ==> key(r[i]) >= key(x)
    requires k < |r| ==> key(r[k]) < key(x)
    ensures SortedDescending(r[..k] + [x] + r[k..], key)
  {
    var s := r[..k] + [x] + r[k..];
    forall i, j | 0 <= i < j < |s| ensures key(s[i]) >= key(s[j]) {
      if j == k {
      } else if i == k {
        assert s[j] == r[j - 1];
        assert key(r[k]) >= key(r[j - 1]);
      } else if i < k && j > k {
        assert s[j] == r[j - 1];
        assert key(r[i]) >= key(r[j - 1]);
      } else if j < k {
        assert s[i] == r[i] && s[j] == r[j];
      } else {
        assert s[i] == r[i - 1] && s[j] == r[j - 1];
      }
    }
  }

  lemma InsertCounts<T>(r: seq<T>, k: nat, x: T)
    requires k <= |r|
    ensures multiset(r[..k] + [x] + r[k..]) == multiset(r) + multiset{x}
  {
    assert r == r[..k] + r[k..];
  }

  /** Stability: for every key value, `r` lists the items with that key in the order `xs` does. */
  ghost predicate SameBuckets<T, K(!new)>(r: seq<T>, xs: seq<T>, key: T -> K) {
    forall v :: Bucket(r, key, v) == Bucket(xs, key, v)
  }

  /** For every key value, the items of `r` with that key are the first ones of `xs` with it. */
  ghost predicate EarliestBuckets<T, K(!new)>(r: seq<T>, xs: seq<T>, key: T -> K) {
    forall v :: Bucket(r, key, v) <= Bucket(xs, key, v)
  }

  lemma {:induction false} BucketNone<T, K>(xs: seq<T>, key: T -> K, v: K)
    requires forall i :: 0 <= i < |xs| ==> key(xs[i]) != v
    ensures Bucket(xs, key, v) == []
    decreases |xs|
  {
    if xs != [] { BucketNone(xs[1..], key, v); }
  }

  /** In a descending list, nothing after a key below `c` reaches `c`. */
  lemma TailBelow<T>(r: seq<T>, k: nat, key: T -> real, c: real)
    requires SortedDescending(r, key) && k <= |r|
    requires k < |r| ==> key(r[k]) < c
    ensures Bucket(r[k..], key, c) == []
  {
    var tail := r[k..];
    forall i | 0 <= i < |tail| ensures key(tail[i]) != c {
      assert tail[i] == r[k + i];
      assert key(r[k + i]) <= key(r[k]);
    }
    BucketNone(tail, key, c);
  }

  /** Inserting `x` before the items of smaller key puts it last among the items of its own key. */
  lemma InsertBucket<T>(r: seq<T>, k: nat, x: T, key: T -> real, v: real)
    requires SortedDescending(r, key) && k <= |r|
    requires k < |r| ==> key(r[k]) < key(x)
    ensures Bucket(r[..k] + [x] + r[k..], key, v) == Bucket(r, key, v) + Bucket([x], key, v)
  {
    var front, tail := r[..k], r[k..];
    assert r == front + tail;
    BucketAppend(front + [x], tail, key, v);
    BucketAppend(front, [x], key, v);
    BucketAppend(front, tail, key, v);
    if key(x) == v {
      TailBelow(r, k, key, key(x));
    } else {
      assert Bucket([x], key, v) == [];
    }
  }

  /** One insertion step: `x` goes after every item whose key is at least its own. */
  method InsertDescending<T>(r: seq<T>, x: T, key: T -> real) returns (s: seq<T>)
    requires SortedDescending(r, key)
    ensures SortedDescending(s, key)
    ensures multiset(s) == multiset(r) + multiset{x}
    ensures SameBuckets(s, r + [x], key)
  {
    var k := 0;
    while k < |r| && key(r[k]) >= key(x)
      invariant 0 <= k <= |r|
      invariant forall i :: 0 <= i < k ==> key(r[i]) >= key(x)
    {
      k := k + 1;
    }
    InsertKeepsOrder(r, k, x, key);
    InsertCounts(r, k, x);
    s := r[..k] + [x] + r[k..];
    forall v ensures Bucket(s, key, v) == Bucket(r + [x], key, v) {
      InsertBucket(r, k, x, key, v);
      BucketAppend(r, [x], key, v);
    }
  }

  /** `xs.sort(key=key, reverse=True)`: ordered, a permutation, and stable. */
  method SortDescending<T>(xs: seq<T>, key: T -> real) returns (r: seq<T>)
    ensures SortedDescending(r, key)
    ensures multiset(r) == multiset(xs)
    ensures SameBuckets(r, xs, key)
  {
    r := [];
    var n := 0;
    while n < |xs|
      invariant 0 <= n <= |xs|
      invariant SortedDescending(r, key)
      invariant multiset(r) == multiset(xs[..n])
      invariant SameBuckets(r, xs[..n], key)
    {
      var r' := InsertDescending(r, xs[n], key);
      assert xs[..n + 1] == xs[..n] + [xs[n]];
      forall v ensures Bucket(r', key, v) == Bucket(xs[..n + 1], key, v) {
        BucketAppend(r, [xs[n]], key, v);
        BucketAppend(xs[..n], [xs[n]], key, v);
      }
      r := r';
      n := n + 1;
    }
    assert xs[..n] == xs;
  }

  /** A prefix keeps, for every key value, the earliest items with that key. */
  lemma PrefixEarliest<T, K(!new)>(a: seq<T>, b: seq<T>, key: T -> K)
    requires a <= b
    ensures EarliestBuckets(a, b, key)
  {
    forall v ensures Bucket(a, key, v) <= Bucket(b, key, v) {
      assert b == a + b[|a|..];
      BucketAppend(a, b[|a|..], key, v);
    }
  }

  /** `xs[:n]` */
  function Take<T>(xs: seq<T>, n: nat): (r: seq<T>)
    ensures |r| == if n < |xs| then n else |xs|
    ensures r <= xs
  {
    if n < |xs| then xs[..n] else xs
  }

  /** A prefix takes nothing the whole does not have. */
  lemma TakeSubMultiset<T>(xs: seq<T>, n: nat)
    ensures multiset(Take(xs, n)) <= multiset(xs)
  {
    var top := Take(xs, n);
    assert xs == top + xs[|top|..];
    assert multiset(xs) == multiset(top) + multiset(xs[|top|..]);
  }
}
