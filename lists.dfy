/**
 * `Array.prototype.filter` and the list relations the storefront's list
 * updates are stated with: order-preserving subsequences and unique keys.
 */
module Lists {

  /** `a` can be obtained from `b` by deleting elements (relative order kept). */
  predicate SubsequenceOf<T(==)>(a: seq<T>, b: seq<T>)
    decreases |b|
  {
    if a == [] then true
    else if b == [] then false
    else if a[0] == b[0] then SubsequenceOf(a[1..], b[1..])
    else SubsequenceOf(a, b[1..])
  }

  /** No two elements share a key. */
  predicate UniqueBy<T>(xs: seq<T>, key: T -> string) {
    forall i, j :: 0 <= i < j < |xs| ==> key(xs[i]) != key(xs[j])
  }

  /** `xs.filter(p)`: exactly the elements satisfying `p`, in order (multiplicity in `FilterCounts`). */
  function Filter<T(==,!new)>(xs: seq<T>, p: T -> bool): (r: seq<T>)
    ensures |r| <= |xs|
    ensures forall i :: 0 <= i < |r| ==> p(r[i])
    ensures forall x :: x in r <==> x in xs && p(x)
    ensures SubsequenceOf(r, xs)
  {
    if xs == [] then []
    else
      var rest := Filter(xs[1..], p);
      assert xs == [xs[0]] + xs[1..];
      if p(xs[0]) then [xs[0]] + rest else rest
  }

  /** Filtering keeps every element satisfying `p` as often as it occurs, and no other. */
  lemma {:induction false} FilterCounts<T(!new)>(xs: seq<T>, p: T -> bool)
    ensures forall x :: multiset(Filter(xs, p))[x] == if p(x) then multiset(xs)[x] else 0
  {
    if xs != [] {
      FilterCounts(xs[1..], p);
      assert xs == [xs[0]] + xs[1..];
    }
  }

  /** Filtering with a predicate every element satisfies changes nothing. */
  lemma {:induction false} FilterAll<T(!new)>(xs: seq<T>, p: T -> bool)
    requires forall i :: 0 <= i < |xs| ==> p(xs[i])
    ensures Filter(xs, p) == xs
  {
    if xs != [] {
      FilterAll(xs[1..], p);
      assert [xs[0]] + xs[1..] == xs;
    }
  }

  /** A prefix is a subsequence. */
  lemma {:induction false} PrefixIsSubsequence<T>(a: seq<T>, b: seq<T>)
    requires |a| <= |b| && a == b[..|a|]
    ensures SubsequenceOf(a, b)
  {
    if a != [] {
      PrefixIsSubsequence(a[1..], b[1..]);
    }
  }

  /** Every element of a subsequence is an element of the sequence. */
  lemma {:induction false} SubsequenceMembers<T>(a: seq<T>, b: seq<T>)
    requires SubsequenceOf(a, b)
    ensures forall x :: x in a ==> x in b
    decreases |b|
  {
    if a != [] {
      if a[0] == b[0] {
        SubsequenceMembers(a[1..], b[1..]);
        assert forall x :: x in a ==> x == a[0] || x in a[1..];
      } else {
        SubsequenceMembers(a, b[1..]);
      }
    }
  }

  /** Dropping the first element of a subsequence leaves a subsequence. */
  lemma {:induction false} SubsequenceTail<T>(a: seq<T>, b: seq<T>)
    requires a != [] && SubsequenceOf(a, b)
    ensures SubsequenceOf(a[1..], b)
    decreases |b|, 1
  {
    if a[0] == b[0] {
      SubsequenceCons(a[1..], b);
    } else {
      SubsequenceTail(a, b[1..]);
      SubsequenceCons(a[1..], b);
    }
  }

  /** A subsequence of the tail is a subsequence of the whole. */
  lemma {:induction false} SubsequenceCons<T>(x: seq<T>, b: seq<T>)
    requires b != [] && SubsequenceOf(x, b[1..])
    ensures SubsequenceOf(x, b)
    decreases |b|, 0
  {
    if x != [] && x[0] == b[0] {
      SubsequenceTail(x, b[1..]);
    }
  }

  /** Subsequences are transitive. */
  lemma {:induction false} SubsequenceTrans<T>(a: seq<T>, b: seq<T>, c: seq<T>)
    requires SubsequenceOf(a, b) && SubsequenceOf(b, c)
    ensures SubsequenceOf(a, c)
    decreases |c|
  {
    if a != [] {
      if b[0] == c[0] {
        if a[0] == b[0] {
          SubsequenceTrans(a[1..], b[1..], c[1..]);
        } else {
          SubsequenceTrans(a, b[1..], c[1..]);
        }
      } else {
        SubsequenceTrans(a, b, c[1..]);
        if a[0] == c[0] {
          SubsequenceTail(a, c[1..]);
        }
      }
    }
  }

  /** Unique keys for `[x] + t` are unique keys for `t` plus a key of `x` not in `t`. */
  lemma UniqueByCons<T>(x: T, t: seq<T>, key: T -> string)
    ensures UniqueBy([x] + t, key) <==>
      UniqueBy(t, key) && forall j :: 0 <= j < |t| ==> key(t[j]) != key(x)
  {
    var s := [x] + t;
    if UniqueBy(t, key) && forall j :: 0 <= j < |t| ==> key(t[j]) != key(x) {
      forall i, j | 0 <= i < j < |s| ensures key(s[i]) != key(s[j]) {
        if i > 0 {
          assert s[i] == t[i - 1] && s[j] == t[j - 1];
        } else {
          assert s[j] == t[j - 1];
        }
      }
    }
    if UniqueBy(s, key) {
      forall i, j | 0 <= i < j < |t| ensures key(t[i]) != key(t[j]) {
        assert t[i] == s[i + 1] && t[j] == s[j + 1];
      }
      forall j | 0 <= j < |t| ensures key(t[j]) != key(x) {
        assert s[0] == x && t[j] == s[j + 1];
      }
    }
  }

  /** Dropping elements keeps keys unique. */
  lemma {:induction false} SubsequenceKeepsUnique<T>(a: seq<T>, b: seq<T>, key: T -> string)
    requires SubsequenceOf(a, b) && UniqueBy(b, key)
    ensures UniqueBy(a, key)
    decreases |b|
  {
    if a != [] {
      UniqueByCons(b[0], b[1..], key);
      assert [b[0]] + b[1..] == b;
      if a[0] == b[0] {
        SubsequenceKeepsUnique(a[1..], b[1..], key);
        SubsequenceMembers(a[1..], b[1..]);
        forall j | 0 <= j < |a[1..]| ensures key(a[1..][j]) != key(a[0]) {
          assert a[1..][j] in b[1..];
        }
        UniqueByCons(a[0], a[1..], key);
        assert [a[0]] + a[1..] == a;
      } else {
        SubsequenceKeepsUnique(a, b[1..], key);
      }
    }
  }

  /** `xs.reduce((acc, x) => acc + f(x), 0)`, folded from the left as `reduce` does. */
  function SumBy<T>(xs: seq<T>, f: T -> int): int {
    if xs == [] then 0 else SumBy(xs[..|xs| - 1], f) + f(xs[|xs| - 1])
  }

  /** Appending one element adds its term. */
  lemma SumByAppend<T>(xs: seq<T>, x: T, f: T -> int)
    ensures SumBy(xs + [x], f) == SumBy(xs, f) + f(x)
  {
    assert (xs + [x])[..|xs|] == xs;
  }

  /** Replacing one element replaces its term. */
  lemma {:induction false} SumByUpdate<T>(xs: seq<T>, k: int, y: T, f: T -> int)
    requires 0 <= k < |xs|
    ensures SumBy(xs[k := y], f) == SumBy(xs, f) - f(xs[k]) + f(y)
  {
    var n := |xs|;
    if k == n - 1 {
      assert xs[k := y][..n - 1] == xs[..n - 1];
    } else {
      SumByUpdate(xs[..n - 1], k, y, f);
      assert xs[k := y][..n - 1] == xs[..n - 1][k := y];
    }
  }

  /** A sum of terms that are each at least one is at least the length. */
  lemma {:induction false} SumByAtLeastLength<T>(xs: seq<T>, f: T -> int)
    requires forall i :: 0 <= i < |xs| ==> f(xs[i]) >= 1
    ensures SumBy(xs, f) >= |xs|
  {
    if xs != [] {
      SumByAtLeastLength(xs[..|xs| - 1], f);
    }
  }

  /** Filtering distributes over appending one element. */
  lemma {:induction false} FilterAppend<T(!new)>(xs: seq<T>, x: T, p: T -> bool)
    ensures Filter(xs + [x], p) == Filter(xs, p) + if p(x) then [x] else []
  {
    var tail := if p(x) then [x] else [];
    if xs == [] {
      assert [x][1..] == [];
    } else {
      var ys := xs + [x];
      assert ys[0] == xs[0] && ys[1..] == xs[1..] + [x];
      FilterAppend(xs[1..], x, p);
      var head := if p(xs[0]) then [xs[0]] else [];
      assert Filter(ys, p) == head + Filter(ys[1..], p);
      assert Filter(xs, p) == head + Filter(xs[1..], p);
      assert head + (Filter(xs[1..], p) + tail) == (head + Filter(xs[1..], p)) + tail;
    }
  }
}
