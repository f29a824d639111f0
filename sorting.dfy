/**
 * `[...xs].sort((a, b) => key(a) - key(b))`: JavaScript's sort is stable,
 * so its result is the stable sort by the key, which insertion sort computes.
 * A descending comparator `key(b) - key(a)` is the same sort on the negated key.
 */
module Sorting {

  /** Ascending (non-decreasing) by `key`, stated on neighbours. */
  predicate SortedBy<T>(xs: seq<T>, key: T -> int) {
    forall i :: 0 < i < |xs| ==> key(xs[i - 1]) <= key(xs[i])
  }

  /** Inserts `x` before the first element whose key is not below `key(x)`. */
  function Insert<T(==)>(x: T, xs: seq<T>, key: T -> int): (r: seq<T>)
    requires SortedBy(xs, key)
    ensures SortedBy(r, key)
    ensures multiset(r) == multiset(xs) + multiset{x}
    ensures |r| == |xs| + 1
    ensures r[0] == x || (xs != [] && r[0] == xs[0])
  {
    if xs == [] || key(x) <= key(xs[0]) then [x] + xs
    else
      assert xs == [xs[0]] + xs[1..];
      [xs[0]] + Insert(x, xs[1..], key)
  }

  /** The stable sort of `xs` by `key`: sorted, and a permutation of `xs`. */
  function SortBy<T(==)>(xs: seq<T>, key: T -> int): (r: seq<T>)
    ensures SortedBy(r, key)
    ensures multiset(r) == multiset(xs)
    ensures |r| == |xs|
  {
    if xs == [] then []
    else
      assert xs == [xs[0]] + xs[1..];
      Insert(xs[0], SortBy(xs[1..], key), key)
  }

  /** Sorted on neighbours means sorted on every pair. */
  lemma {:induction false} SortedPairwise<T>(xs: seq<T>, key: T -> int, i: int, j: int)
    requires SortedBy(xs, key) && 0 <= i <= j < |xs|
    ensures key(xs[i]) <= key(xs[j])
    decreases j - i
  {
    if i < j {
      SortedPairwise(xs, key, i, j - 1);
    }
  }
}
