/** Folds over sequences whose result depends only on the multiset of the elements. */
module Seqs {
  /** The concatenation of `f(x)` for every `x` of `xs`, in order. */
  function FlatMap<T, U>(xs: seq<T>, f: T -> seq<U>): (r: seq<U>)
    ensures xs == [] ==> r == []
  {
    if xs == [] then [] else FlatMap(xs[..|xs| - 1], f) + f(xs[|xs| - 1])
  }

  /** One more element of a prefix adds its image at the end. */
  lemma FlatMapStep<T, U>(xs: seq<T>, k: nat, f: T -> seq<U>)
    requires k < |xs|
    ensures FlatMap(xs[..k + 1], f) == FlatMap(xs[..k], f) + f(xs[k])
  {
    assert xs[..k + 1][..k] == xs[..k];
  }

  lemma {:induction false} FlatMapAppend<T, U>(xs: seq<T>, ys: seq<T>, f: T -> seq<U>)
    ensures FlatMap(xs + ys, f) == FlatMap(xs, f) + FlatMap(ys, f)
    decreases |ys|
  {
    if ys == [] {
      assert xs + ys == xs;
    } else {
      assert (xs + ys)[..|xs + ys| - 1] == xs + ys[..|ys| - 1];
      FlatMapAppend(xs, ys[..|ys| - 1], f);
    }
  }

  /** Functions that agree on the elements give the same concatenation. */
  lemma {:induction false} FlatMapCongruence<T, U>(xs: seq<T>, f: T -> seq<U>, g: T -> seq<U>)
    requires forall i :: 0 <= i < |xs| ==> f(xs[i]) == g(xs[i])
    ensures FlatMap(xs, f) == FlatMap(xs, g)
    decreases |xs|
  {
    if xs != [] {
      FlatMapCongruence(xs[..|xs| - 1], f, g);
    }
  }

  /** The sum of `f(x)` over the elements of `xs`. */
  function Sum<T>(xs: seq<T>, f: T -> nat): nat {
    if xs == [] then 0 else Sum(xs[..|xs| - 1], f) + f(xs[|xs| - 1])
  }

  lemma {:induction false} SumAppend<T>(xs: seq<T>, ys: seq<T>, f: T -> nat)
    ensures Sum(xs + ys, f) == Sum(xs, f) + Sum(ys, f)
    decreases |ys|
  {
    if ys == [] {
      assert xs + ys == xs;
    } else {
      assert (xs + ys)[..|xs + ys| - 1] == xs + ys[..|ys| - 1];
      SumAppend(xs, ys[..|ys| - 1], f);
    }
  }

  /** The elements of `xs` that satisfy `p`, in their order: `[x for x in xs if p(x)]`. */
  function Filter<T(!new)>(xs: seq<T>, p: T -> bool): (r: seq<T>)
    ensures |r| <= |xs|
    ensures forall x :: x in r <==> x in xs && p(x)
  {
    if xs == [] then []
    else
      var init := Filter(xs[..|xs| - 1], p);
      assert xs == xs[..|xs| - 1] + [xs[|xs| - 1]];
      if p(xs[|xs| - 1]) then init + [xs[|xs| - 1]] else init
  }

  /** An element of a permutation of `xs` is found in `xs`, at the index returned. */
  lemma PermutedIndex<T>(xs: seq<T>, ys: seq<T>, y: T) returns (i: nat)
    requires multiset(xs) == multiset(ys) && y in ys
    ensures i < |xs| && xs[i] == y
  {
    assert y in multiset(ys);
    i :| 0 <= i < |xs| && xs[i] == y;
  }

  /** A log that grew by `done` and then by `more` grew by `done + more`. */
  lemma AppendAfter<T>(log0: seq<T>, done: seq<T>, more: seq<T>, log: seq<T>, log': seq<T>)
    requires log == log0 + done && log' == log + more
    ensures log' == log0 + (done + more)
  {
    assert log0 + (done + more) == (log0 + done) + more;
  }

  /** Dropping the last element of a sequence without repeats leaves one without repeats
      and without that element. */
  lemma DistinctLast<T>(xs: seq<T>)
    requires xs != [] && forall i, j :: 0 <= i < j < |xs| ==> xs[i] != xs[j]
    ensures var p := xs[..|xs| - 1];
            && (forall i, j :: 0 <= i < j < |p| ==> p[i] != p[j])
            && xs[|xs| - 1] !in p
  {
    var p := xs[..|xs| - 1];
    assert forall k :: 0 <= k < |p| ==> p[k] == xs[k];
  }

  /** A permutation of a non-empty sequence holds its last element at some index `k`,
      and the rest of it is a permutation of the rest. */
  lemma LastInPermutation<T>(xs: seq<T>, ys: seq<T>) returns (k: nat)
    requires |xs| > 0 && multiset(xs) == multiset(ys)
    ensures k < |ys| && ys[k] == xs[|xs| - 1]
    ensures ys == ys[..k] + [ys[k]] + ys[k + 1..]
    ensures multiset(xs[..|xs| - 1]) == multiset(ys[..k] + ys[k + 1..])
  {
    var x := xs[|xs| - 1];
    assert xs == xs[..|xs| - 1] + [x];
    assert x in multiset(ys);
    k :| 0 <= k < |ys| && ys[k] == x;
    assert ys == ys[..k] + [ys[k]] + ys[k + 1..];
    calc {
      multiset(ys[..k] + ys[k + 1..]);
      multiset(ys[..k]) + multiset(ys[k + 1..]);
      multiset(ys) - multiset{x};
      multiset(xs) - multiset{x};
      multiset(xs[..|xs| - 1]);
    }
  }

  /** Permuting the input permutes the concatenation. */
  lemma {:induction false} FlatMapPermutation<T, U>(xs: seq<T>, ys: seq<T>, f: T -> seq<U>)
    requires multiset(xs) == multiset(ys)
    ensures multiset(FlatMap(xs, f)) == multiset(FlatMap(ys, f))
    decreases |xs|
  {
    if xs == [] {
      assert |ys| == |multiset(ys)| == 0;
    } else {
      var k := LastInPermutation(xs, ys);
      var rest := ys[..k] + ys[k + 1..];
      FlatMapPermutation(xs[..|xs| - 1], rest, f);
      FlatMapAppend(ys[..k], [ys[k]], f);
      FlatMapAppend(ys[..k] + [ys[k]], ys[k + 1..], f);
      FlatMapAppend(ys[..k], ys[k + 1..], f);
      assert FlatMap([ys[k]], f) == f(ys[k]) by {
        assert [ys[k]][..0] == [];
      }
    }
  }

  /** Permuting the input leaves the sum unchanged. */
  lemma {:induction false} SumPermutation<T>(xs: seq<T>, ys: seq<T>, f: T -> nat)
    requires multiset(xs) == multiset(ys)
    ensures Sum(xs, f) == Sum(ys, f)
    decreases |xs|
  {
    if xs == [] {
      assert |ys| == |multiset(ys)| == 0;
    } else {
      var k := LastInPermutation(xs, ys);
      var rest := ys[..k] + ys[k + 1..];
      SumPermutation(xs[..|xs| - 1], rest, f);
      SumAppend(ys[..k], [ys[k]], f);
      SumAppend(ys[..k] + [ys[k]], ys[k + 1..], f);
      SumAppend(ys[..k], ys[k + 1..], f);
      assert Sum([ys[k]], f) == f(ys[k]) by {
        assert [ys[k]][..0] == [];
      }
    }
  }

  function Identity<T>(s: seq<T>): seq<T> { s }

  /** The concatenation of a sequence of sequences. */
  function Flatten<T>(ss: seq<seq<T>>): seq<T> {
    FlatMap(ss, Identity)
  }

  function Min(a: int, b: int): int { if a <= b then a else b }

  /** The slices `xs[i*size : i*size + size]` for `i` in `range(0, len(xs), size)`. */
  function Chunks<T>(xs: seq<T>, size: nat): (r: seq<seq<T>>)
    requires size > 0
  {
    seq((|xs| + size - 1) / size, i requires 0 <= i < (|xs| + size - 1) / size =>
      xs[Min(i * size, |xs|)..Min(i * size + size, |xs|)])
  }

  /** ceil(n/size) chunks cover `n` elements, and one fewer would not. */
  lemma CeilDivision(n: nat, size: nat)
    requires size > 0
    ensures (n + size - 1) / size * size >= n
    ensures (n + size - 1) / size * size < n + size
  {
    var d := n + size - 1;
    var q := d / size;
    assert d == q * size + d % size;
  }

  /** The i-th chunk starts at i*size, inside the sequence. */
  lemma ChunkBounds(n: nat, size: nat, i: nat)
    requires size > 0 && i < (n + size - 1) / size
    ensures i * size < n
  {
    var m := (n + size - 1) / size;
    CeilDivision(n, size);
    assert (i + 1) * size <= m * size by {
      assert i + 1 <= m;
      MultiplyMonotone(i + 1, m, size);
    }
    assert (i + 1) * size == i * size + size;
  }

  lemma MultiplyMonotone(a: nat, b: nat, c: nat)
    requires a <= b
    ensures a * c <= b * c
  {
    assert b * c == a * c + (b - a) * c;
  }

  /** There are ceil(n/size) chunks; all but the last hold `size` elements, the last
      between 1 and `size`; and together they give back the sequence. */
  lemma {:induction false} ChunksPartition<T>(xs: seq<T>, size: nat)
    requires size > 0
    ensures |Chunks(xs, size)| * size >= |xs| && |Chunks(xs, size)| * size < |xs| + size
    ensures forall i :: 0 <= i < |Chunks(xs, size)| - 1 ==> |Chunks(xs, size)[i]| == size
    ensures forall i :: 0 <= i < |Chunks(xs, size)| ==> 1 <= |Chunks(xs, size)[i]| <= size
    ensures Flatten(Chunks(xs, size)) == xs
  {
    var c := Chunks(xs, size);
    var m := |c|;
    var n := |xs|;
    CeilDivision(n, size);
    forall i | 0 <= i < m
      ensures 1 <= |c[i]| <= size
      ensures i < m - 1 ==> |c[i]| == size
    {
      ChunkBounds(n, size, i);
      if i < m - 1 {
        ChunkBounds(n, size, i + 1);
        assert (i + 1) * size == i * size + size;
      }
    }
    FlattenChunks(xs, size, m);
    assert c[..m] == c;
  }

  lemma {:induction false} FlattenChunks<T>(xs: seq<T>, size: nat, k: nat)
    requires size > 0 && k <= |Chunks(xs, size)|
    ensures Flatten(Chunks(xs, size)[..k]) == xs[..Min(k * size, |xs|)]
  {
    var c := Chunks(xs, size);
    if k == 0 {
      assert c[..0] == [];
    } else {
      FlattenChunks(xs, size, k - 1);
      ChunkBounds(|xs|, size, k - 1);
      assert c[..k][..k - 1] == c[..k - 1];
      assert k * size == (k - 1) * size + size;
      var lo := (k - 1) * size;
      assert c[k - 1] == xs[lo..Min(lo + size, |xs|)];
      assert Flatten(c[..k]) == Flatten(c[..k - 1]) + c[k - 1];
      assert xs[..lo] + xs[lo..Min(lo + size, |xs|)] == xs[..Min(lo + size, |xs|)];
    }
  }
}
