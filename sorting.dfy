/**
 * Sorting a sequence by a real-valued key, as the race classification
 * does with total times: the result is a permutation of the input in
 * non-decreasing key order. Elements are inserted after every element
 * with an equal or smaller key, as a stable sort does.
 */
module Sorting {

  ghost predicate AllKeyed<T>(xs: seq<T>, key: map<T, real>)
  {
    forall i :: 0 <= i < |xs| ==> xs[i] in key
  }

  ghost predicate SortedBy<T>(xs: seq<T>, key: map<T, real>)
    requires AllKeyed(xs, key)
  {
    forall i, j :: 0 <= i < j < |xs| ==> key[xs[i]] <= key[xs[j]]
  }

  /** Inserts `x` behind the trailing elements whose key is not larger than its own. */
  function Insert<T(==)>(ys: seq<T>, x: T, key: map<T, real>): (r: seq<T>)
    requires AllKeyed(ys, key) && x in key
    ensures AllKeyed(r, key)
    ensures multiset(r) == multiset(ys) + multiset{x}
  {
    if ys == [] then [x]
    else
      var last := ys[|ys| - 1];
      assert ys == ys[..|ys| - 1] + [last];
      if key[x] < key[last] then Insert(ys[..|ys| - 1], x, key) + [last]
      else ys + [x]
  }

  /** Every element of a sequence is keyed no higher than `bound`. */
  ghost predicate KeysAtMost<T>(xs: seq<T>, key: map<T, real>, bound: real)
    requires AllKeyed(xs, key)
  {
    forall i :: 0 <= i < |xs| ==> key[xs[i]] <= bound
  }

  /** Inserting into a sorted sequence keeps it sorted. */
  lemma {:induction false} InsertSorted<T>(ys: seq<T>, x: T, key: map<T, real>)
    requires AllKeyed(ys, key) && x in key && SortedBy(ys, key)
    ensures SortedBy(Insert(ys, x, key), key)
  {
    if ys != [] {
      var last := ys[|ys| - 1];
      var init := ys[..|ys| - 1];
      if key[x] < key[last] {
        InsertSorted(init, x, key);
        var front := Insert(init, x, key);
        InsertBounded(init, x, key, key[last]);
        assert Insert(ys, x, key) == front + [last];
      }
    }
  }

  /** Inserting an element keyed no higher than `bound` keeps every key at most `bound`. */
  lemma {:induction false} InsertBounded<T>(ys: seq<T>, x: T, key: map<T, real>, bound: real)
    requires AllKeyed(ys, key) && x in key
    requires KeysAtMost(ys, key, bound) && key[x] <= bound
    ensures KeysAtMost(Insert(ys, x, key), key, bound)
  {
    if ys != [] {
      var last := ys[|ys| - 1];
      var init := ys[..|ys| - 1];
      if key[x] < key[last] {
        InsertBounded(init, x, key, bound);
      }
    }
  }

  /** Sorts `xs` by `key`: a permutation of `xs` in non-decreasing key order. */
  method SortByKey<T(==)>(xs: seq<T>, key: map<T, real>) returns (ys: seq<T>)
    requires AllKeyed(xs, key)
    ensures |ys| == |xs| && multiset(ys) == multiset(xs)
    ensures AllKeyed(ys, key) && SortedBy(ys, key)
  {
    ys := [];
    var i := 0;
    while i < |xs|
      invariant 0 <= i <= |xs|
      invariant AllKeyed(ys, key) && SortedBy(ys, key)
      invariant multiset(ys) == multiset(xs[..i])
    {
      assert xs[..i + 1] == xs[..i] + [xs[i]];
      InsertSorted(ys, xs[i], key);
      ys := Insert(ys, xs[i], key);
      i := i + 1;
    }
    assert xs[..i] == xs;
    assert |ys| == |multiset(ys)| == |multiset(xs)| == |xs|;
  }

  /** No element occurs twice. */
  ghost predicate Distinct<T>(xs: seq<T>)
  {
    forall i, j :: 0 <= i < j < |xs| ==> xs[i] != xs[j]
  }

  /** In a sequence without repeats every element is counted at most once. */
  lemma {:induction false} DistinctCountsAtMostOne<T>(xs: seq<T>)
    requires Distinct(xs)
    ensures forall x :: multiset(xs)[x] <= 1
  {
    if xs != [] {
      var init, last := xs[..|xs| - 1], xs[|xs| - 1];
      assert xs == init + [last];
      DistinctCountsAtMostOne(init);
      assert last !in init;
    }
  }

  /** A permutation of a sequence without repeats has no repeats either. */
  lemma PermutationKeepsDistinct<T>(a: seq<T>, b: seq<T>)
    requires multiset(a) == multiset(b) && Distinct(b)
    ensures Distinct(a)
  {
    DistinctCountsAtMostOne(b);
    forall i, j | 0 <= i < j < |a|
      ensures a[i] != a[j]
    {
      assert a == a[..j] + [a[j]] + a[j + 1..];
      assert a[i] in multiset(a[..j]);
      assert multiset(a)[a[j]] >= multiset(a[..j])[a[j]] + 1;
    }
  }

  /** Two sequences without repeats and without common elements have no repeats together. */
  lemma DistinctConcatenation<T>(a: seq<T>, b: seq<T>)
    requires Distinct(a) && Distinct(b)
    requires forall x :: x in a ==> x !in b
    ensures Distinct(a + b)
  {
    forall i, j | 0 <= i < j < |a + b|
      ensures (a + b)[i] != (a + b)[j]
    {
      if i < |a| && |a| <= j {
        assert (a + b)[i] in a && (a + b)[j] in b;
      }
    }
  }
}
