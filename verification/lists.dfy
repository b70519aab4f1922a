/** Sequence operations shared by the two pipeline views: JavaScript's
    `Array.prototype.filter` and `map`, order-preserving subsequences, and
    the distinct values of a sequence in order of first occurrence. */
module Lists {

  /** `xs.filter(p)`: the elements satisfying `p`, in their original order. */
  function Filter<T>(xs: seq<T>, p: T -> bool): (r: seq<T>)
    ensures |r| <= |xs|
    ensures forall i :: 0 <= i < |r| ==> p(r[i]) && r[i] in xs
  {
    if |xs| == 0 then []
    else Filter(xs[..|xs| - 1], p) + (if p(xs[|xs| - 1]) then [xs[|xs| - 1]] else [])
  }

  /** `xs.map(f)`. */
  function Map<T, U>(xs: seq<T>, f: T -> U): (r: seq<U>)
    ensures |r| == |xs| && forall i :: 0 <= i < |xs| ==> r[i] == f(xs[i])
  {
    if |xs| == 0 then [] else Map(xs[..|xs| - 1], f) + [f(xs[|xs| - 1])]
  }

  /** Filtering keeps exactly the occurrences that satisfy the predicate:
      each such value as often as in the input, every other value never. */
  lemma {:induction false} FilterMultiset<T>(xs: seq<T>, p: T -> bool, x: T)
    ensures multiset(Filter(xs, p))[x] == if p(x) then multiset(xs)[x] else 0
  {
    if |xs| > 0 {
      var n := |xs| - 1;
      FilterMultiset(xs[..n], p, x);
      assert xs == xs[..n] + [xs[n]];
    }
  }

  /** `a` is `b` with some elements left out, the rest in the same order. */
  predicate IsSubseq<T(==)>(a: seq<T>, b: seq<T>)
    decreases |b|
  {
    if |a| == 0 then true
    else if |b| == 0 then false
    else if a[|a| - 1] == b[|b| - 1] then IsSubseq(a[..|a| - 1], b[..|b| - 1])
    else IsSubseq(a, b[..|b| - 1])
  }

  lemma {:induction false} SubseqExtend<T>(a: seq<T>, b: seq<T>, x: T)
    requires IsSubseq(a, b)
    ensures IsSubseq(a, b + [x])
    decreases |a| + |b|, 1
  {
    var bx := b + [x];
    assert bx[..|bx| - 1] == b;
    if |a| > 0 && a[|a| - 1] == x {
      SubseqShrink(a, b);
    }
  }

  /** Dropping the last element of `a` keeps it a subsequence. */
  lemma {:induction false} SubseqShrink<T>(a: seq<T>, b: seq<T>)
    requires |a| > 0 && IsSubseq(a, b)
    ensures IsSubseq(a[..|a| - 1], b)
    decreases |a| + |b|, 0
  {
    var b' := b[..|b| - 1];
    assert b' + [b[|b| - 1]] == b;
    if a[|a| - 1] == b[|b| - 1] {
      SubseqExtend(a[..|a| - 1], b', b[|b| - 1]);
    } else {
      SubseqShrink(a, b');
      SubseqExtend(a[..|a| - 1], b', b[|b| - 1]);
    }
  }

  /** Filtering preserves the relative order of the kept elements. */
  lemma {:induction false} FilterIsSubseq<T>(xs: seq<T>, p: T -> bool)
    ensures IsSubseq(Filter(xs, p), xs)
  {
    if |xs| > 0 {
      var n := |xs| - 1;
      FilterIsSubseq(xs[..n], p);
      if p(xs[n]) {
        var f := Filter(xs, p);
        assert f[..|f| - 1] == Filter(xs[..n], p);
      } else {
        assert Filter(xs, p) == Filter(xs[..n], p);
        SubseqExtend(Filter(xs[..n], p), xs[..n], xs[n]);
        assert xs[..n] + [xs[n]] == xs;
      }
    }
  }

  /** The indices whose elements satisfy `p`. */
  function Indices<T>(xs: seq<T>, p: T -> bool): set<nat> {
    set i: nat | i < |xs| && p(xs[i])
  }

  /** The filtered length counts the satisfying positions. */
  lemma {:induction false} FilterLengthCountsIndices<T>(xs: seq<T>, p: T -> bool)
    ensures |Filter(xs, p)| == |Indices(xs, p)|
  {
    if |xs| > 0 {
      var n := |xs| - 1;
      FilterLengthCountsIndices(xs[..n], p);
      var before := Indices(xs[..n], p);
      if p(xs[n]) {
        assert Indices(xs, p) == before + {n};
        assert n !in before;
      } else {
        assert Indices(xs, p) == before;
      }
    } else {
      assert Indices(xs, p) == {};
    }
  }

  lemma {:induction false} FilterAll<T>(xs: seq<T>, p: T -> bool)
    requires forall i :: 0 <= i < |xs| ==> p(xs[i])
    ensures Filter(xs, p) == xs
  {
    if |xs| > 0 {
      FilterAll(xs[..|xs| - 1], p);
    }
  }

  lemma {:induction false} FilterNone<T>(xs: seq<T>, p: T -> bool)
    requires forall i :: 0 <= i < |xs| ==> !p(xs[i])
    ensures Filter(xs, p) == []
  {
    if |xs| > 0 {
      FilterNone(xs[..|xs| - 1], p);
    }
  }

  /** The distinct values of `xs` in order of first occurrence. */
  function FirstOccurrences<T(==)>(xs: seq<T>): (r: seq<T>)
    ensures forall i :: 0 <= i < |r| ==> r[i] in xs
    ensures forall i :: 0 <= i < |xs| ==> xs[i] in r
    ensures forall i, j :: 0 <= i < j < |r| ==> r[i] != r[j]
  {
    if |xs| == 0 then []
    else
      var d := FirstOccurrences(xs[..|xs| - 1]);
      if xs[|xs| - 1] in d then d else d + [xs[|xs| - 1]]
  }

  /** The index of the first occurrence of `x` in `xs`. */
  function FirstIndex<T(==)>(xs: seq<T>, x: T): (k: nat)
    requires x in xs
    ensures k < |xs| && xs[k] == x && x !in xs[..k]
  {
    if xs[0] == x then 0 else 1 + FirstIndex(xs[1..], x)
  }

  /** A value listed earlier by `FirstOccurrences` first occurs earlier. */
  lemma {:induction false} FirstOccurrencesOrdered<T>(xs: seq<T>, i: nat, j: nat)
    requires i < j < |FirstOccurrences(xs)|
    ensures FirstIndex(xs, FirstOccurrences(xs)[i]) < FirstIndex(xs, FirstOccurrences(xs)[j])
  {
    var n := |xs| - 1;
    var init := xs[..n];
    var d := FirstOccurrences(init);
    var r := FirstOccurrences(xs);
    FirstIndexPrefix(xs, n, r[i]);
    if j < |d| {
      FirstIndexPrefix(xs, n, r[j]);
      FirstOccurrencesOrdered(init, i, j);
    } else {
      // r[j] is the last element, first seen at position n
      assert r[j] == xs[n] && r[j] !in init;
      forall k | 0 <= k < n ensures xs[k] != r[j] {
        assert xs[k] == init[k];
      }
      assert FirstIndex(xs, r[j]) == n;
    }
  }

  /** First indices of values already present in a prefix are unchanged by
      extending it. */
  lemma FirstIndexPrefix<T>(xs: seq<T>, n: nat, x: T)
    requires n <= |xs| && x in xs[..n]
    ensures x in xs && FirstIndex(xs, x) == FirstIndex(xs[..n], x)
  {
    var k := FirstIndex(xs[..n], x);
    var k' := FirstIndex(xs, x);
    forall i | 0 <= i < k' ensures xs[i] != x {
      assert xs[..k'][i] == xs[i];
    }
    forall i | 0 <= i < k ensures xs[i] != x {
      assert xs[..n][..k][i] == xs[i];
    }
    assert xs[k] == x;
  }
}
