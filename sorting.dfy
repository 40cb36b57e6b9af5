/** Python's stable `list.sort` / `sorted`, modelled as insertion sort on sequences.
    `before(a, b)` holds when `a` must come strictly before `b` (the key of `a` is
    smaller, or larger when `reverse=True`); elements that are not ordered either way
    keep their original order. */
module Sorting {
  import opened Seqs

  /** Inserts `x` after every element that `x` does not strictly precede. */
  function Insert<T>(x: T, ys: seq<T>, before: (T, T) -> bool): (r: seq<T>)
    ensures multiset(r) == multiset(ys) + multiset{x}
    ensures |r| == |ys| + 1
  {
    if ys == [] then [x]
    else if before(x, ys[0]) then [x] + ys
    else
      assert ys == [ys[0]] + ys[1..];
      [ys[0]] + Insert(x, ys[1..], before)
  }

  function SortBy<T>(xs: seq<T>, before: (T, T) -> bool): (r: seq<T>)
    ensures multiset(r) == multiset(xs)
    ensures |r| == |xs|
  {
    if xs == [] then []
    else
      assert xs == xs[..|xs| - 1] + [xs[|xs| - 1]];
      Insert(xs[|xs| - 1], SortBy(xs[..|xs| - 1], before), before)
  }

  /** `before` is a strict order: irreflexive and transitive. */
  ghost predicate StrictOrder<T(!new)>(before: (T, T) -> bool) {
    && (forall a :: !before(a, a))
    && (forall a, b, c :: before(a, b) && before(b, c) ==> before(a, c))
  }

  /** No element is strictly before an element that precedes it. */
  predicate SortedBy<T>(s: seq<T>, before: (T, T) -> bool) {
    forall i, j :: 0 <= i < j < |s| ==> !before(s[j], s[i])
  }

  lemma {:induction false} InsertSorted<T(!new)>(x: T, ys: seq<T>, before: (T, T) -> bool)
    requires StrictOrder(before) && SortedBy(ys, before)
    ensures SortedBy(Insert(x, ys, before), before)
  {
    if ys != [] && before(x, ys[0]) {
      var r := Insert(x, ys, before);
      assert r == [x] + ys;
      forall j | 0 < j < |r| ensures !before(r[j], r[0]) {
        assert r[j] == ys[j - 1];
        if j > 1 { assert !before(ys[j - 1], ys[0]); }
      }
    } else if ys != [] {
      InsertSorted(x, ys[1..], before);
      var r := Insert(x, ys, before);
      var t := Insert(x, ys[1..], before);
      assert r == [ys[0]] + t;
      forall j | 0 < j < |r| ensures !before(r[j], r[0]) {
        assert r[j] in multiset(t);
        assert r[j] in multiset(ys[1..]) + multiset{x};
        if r[j] != x {
          assert r[j] in ys[1..];
          var k :| 0 <= k < |ys[1..]| && ys[1..][k] == r[j];
          assert ys[k + 1] == r[j];
        }
      }
    }
  }

  /** The sort orders its result. */
  lemma {:induction false} SortBySorted<T(!new)>(xs: seq<T>, before: (T, T) -> bool)
    requires StrictOrder(before)
    ensures SortedBy(SortBy(xs, before), before)
  {
    if xs != [] {
      SortBySorted(xs[..|xs| - 1], before);
      InsertSorted(xs[|xs| - 1], SortBy(xs[..|xs| - 1], before), before);
    }
  }
  /** No two elements of `s` share a `key`. */
  predicate Unique<T, K(==)>(s: seq<T>, key: T -> K) {
    forall i, j :: 0 <= i < j < |s| ==> key(s[i]) != key(s[j])
  }

  lemma {:induction false} InsertUnique<T(!new), K>(x: T, ys: seq<T>, before: (T, T) -> bool, key: T -> K)
    requires Unique(ys, key) && forall y :: y in ys ==> key(y) != key(x)
    ensures Unique(Insert(x, ys, before), key)
  {
    if ys != [] && !before(x, ys[0]) {
      var t := Insert(x, ys[1..], before);
      InsertUnique(x, ys[1..], before, key);
      forall y | y in t ensures key(y) != key(ys[0]) {
        assert y in multiset(ys[1..]) + multiset{x};
        if y != x {
          var k :| 0 <= k < |ys[1..]| && ys[1..][k] == y;
          assert ys[k + 1] == y;
        }
      }
      var r := Insert(x, ys, before);
      assert r == [ys[0]] + t;
      forall i, j | 0 <= i < j < |r| ensures key(r[i]) != key(r[j]) {
        assert r[j] == t[j - 1];
        if i > 0 { assert r[i] == t[i - 1]; } else { assert t[j - 1] in t; }
      }
    }
  }

  /** Sorting keeps the keys of the elements distinct. */
  lemma {:induction false} SortByUnique<T(!new), K>(xs: seq<T>, before: (T, T) -> bool, key: T -> K)
    requires Unique(xs, key)
    ensures Unique(SortBy(xs, before), key)
  {
    if xs != [] {
      var init := xs[..|xs| - 1];
      var last := xs[|xs| - 1];
      assert Unique(init, key) by {
        forall i, j | 0 <= i < j < |init| ensures key(init[i]) != key(init[j]) {
          assert init[i] == xs[i] && init[j] == xs[j];
        }
      }
      SortByUnique(init, before, key);
      var s := SortBy(init, before);
      forall y | y in s ensures key(y) != key(last) {
        assert y in multiset(init);
        var k :| 0 <= k < |init| && init[k] == y;
        assert xs[k] == y;
      }
      InsertUnique(last, s, before, key);
    }
  }

  /** Keeping the elements that satisfy `p` keeps the order. */
  lemma {:induction false} FilterSorted<T(!new)>(xs: seq<T>, p: T -> bool, before: (T, T) -> bool)
    requires SortedBy(xs, before)
    ensures SortedBy(Filter(xs, p), before)
  {
    if xs != [] {
      var init := xs[..|xs| - 1];
      var last := xs[|xs| - 1];
      assert SortedBy(init, before) by {
        forall i, j | 0 <= i < j < |init| ensures !before(init[j], init[i]) {
          assert init[i] == xs[i] && init[j] == xs[j];
        }
      }
      FilterSorted(init, p, before);
      if p(last) {
        var q := Filter(init, p);
        var r := Filter(xs, p);
        assert r == q + [last];
        forall i, j | 0 <= i < j < |r| ensures !before(r[j], r[i]) {
          assert r[i] == q[i];
          if j == |r| - 1 {
            assert q[i] in q;
            var k :| 0 <= k < |init| && init[k] == r[i];
            assert xs[k] == r[i];
          } else {
            assert r[j] == q[j];
          }
        }
      }
    }
  }

  /** Keeping the elements that satisfy `p` keeps their keys distinct. */
  lemma {:induction false} FilterUnique<T(!new), K>(xs: seq<T>, p: T -> bool, key: T -> K)
    requires Unique(xs, key)
    ensures Unique(Filter(xs, p), key)
  {
    if xs != [] {
      var init := xs[..|xs| - 1];
      var last := xs[|xs| - 1];
      assert Unique(init, key) by {
        forall i, j | 0 <= i < j < |init| ensures key(init[i]) != key(init[j]) {
          assert init[i] == xs[i] && init[j] == xs[j];
        }
      }
      FilterUnique(init, p, key);
      if p(last) {
        var q := Filter(init, p);
        var r := Filter(xs, p);
        assert r == q + [last];
        forall i, j | 0 <= i < j < |r| ensures key(r[i]) != key(r[j]) {
          assert r[i] == q[i];
          if j == |r| - 1 {
            assert q[i] in q;
            var k :| 0 <= k < |init| && init[k] == r[i];
            assert xs[k] == r[i];
          } else {
            assert r[j] == q[j];
          }
        }
      }
    }
  }
}
