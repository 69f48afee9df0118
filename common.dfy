/** Small shared vocabulary: an Option type for Python's `None`-or-value
    fields, integer maxima, and sums of reals over sequences together with the
    facts the aggregators need (concatenation, permutation invariance, and
    bounds). */
module Common {

  datatype Option<T> = None | Some(value: T) {
    /** Python's `d.get(key, default)` once the key lookup is done. */
    function GetOr(default: T): T {
      match this
      case Some(v) => v
      case None => default
    }
  }

  function Max(a: int, b: int): (m: int)
    ensures m >= a && m >= b && (m == a || m == b)
  {
    if a >= b then a else b
  }

  function Min(a: int, b: int): (m: int)
    ensures m <= a && m <= b && (m == a || m == b)
  {
    if a <= b then a else b
  }

  /** Sum of `f` over the elements of `s`, accumulated left to right as the
      source's `for` loops do. */
  function SumBy<T>(s: seq<T>, f: T -> real): real
  {
    if |s| == 0 then 0.0 else SumBy(s[..|s| - 1], f) + f(s[|s| - 1])
  }

  lemma {:induction false} SumByConcat<T>(u: seq<T>, v: seq<T>, f: T -> real)
    ensures SumBy(u + v, f) == SumBy(u, f) + SumBy(v, f)
  {
    if |v| == 0 {
      assert u + v == u;
    } else {
      assert (u + v)[..|u + v| - 1] == u + v[..|v| - 1];
      SumByConcat(u, v[..|v| - 1], f);
    }
  }

  /** Removing one element takes exactly its contribution out of the sum. */
  lemma {:induction false} SumByRemove<T>(s: seq<T>, i: nat, f: T -> real)
    requires i < |s|
    ensures SumBy(s, f) == SumBy(s[..i] + s[i + 1..], f) + f(s[i])
  {
    assert s == s[..i] + ([s[i]] + s[i + 1..]);
    SumByConcat(s[..i], [s[i]] + s[i + 1..], f);
    SumByConcat([s[i]], s[i + 1..], f);
    assert SumBy([s[i]], f) == f(s[i]) by {
      assert [s[i]][..0] == [];
    }
    SumByConcat(s[..i], s[i + 1..], f);
  }

  /** The sum depends only on the multiset of elements, not on their order. */
  lemma {:induction false} SumByPermutation<T>(a: seq<T>, b: seq<T>, f: T -> real)
    requires multiset(a) == multiset(b)
    ensures SumBy(a, f) == SumBy(b, f)
  {
    if |a| == 0 {
      assert |b| == |multiset(b)| == 0;
    } else {
      var x := a[|a| - 1];
      var a' := a[..|a| - 1];
      assert a == a' + [x];
      assert x in multiset(b);
      var i :| 0 <= i < |b| && b[i] == x;
      var b' := b[..i] + b[i + 1..];
      assert b == b[..i] + [x] + b[i + 1..];
      assert multiset(b') == multiset(b) - multiset{x};
      assert multiset(a') == multiset(a) - multiset{x};
      SumByPermutation(a', b', f);
      SumByRemove(b, i, f);
    }
  }

  /** If every element contributes at least `lo` times its weight, the sum is
      at least `lo` times the total weight (and symmetrically for `hi`). */
  lemma {:induction false} SumByLowerBound<T>(s: seq<T>, f: T -> real, w: T -> real, lo: real)
    requires forall i :: 0 <= i < |s| ==> lo * w(s[i]) <= f(s[i])
    ensures lo * SumBy(s, w) <= SumBy(s, f)
  {
    if |s| > 0 {
      SumByLowerBound(s[..|s| - 1], f, w, lo);
    }
  }

  lemma {:induction false} SumByUpperBound<T>(s: seq<T>, f: T -> real, w: T -> real, hi: real)
    requires forall i :: 0 <= i < |s| ==> f(s[i]) <= hi * w(s[i])
    ensures SumBy(s, f) <= hi * SumBy(s, w)
  {
    if |s| > 0 {
      SumByUpperBound(s[..|s| - 1], f, w, hi);
    }
  }

  lemma {:induction false} SumByPositive<T>(s: seq<T>, w: T -> real)
    requires forall i :: 0 <= i < |s| ==> w(s[i]) > 0.0
    ensures |s| > 0 <==> SumBy(s, w) > 0.0
    ensures SumBy(s, w) >= 0.0
  {
    if |s| > 0 {
      SumByPositive(s[..|s| - 1], w);
    }
  }

  /** `[f(x) for x in s]`, built left to right. */
  function MapSeq<A, B>(s: seq<A>, f: A -> B): (r: seq<B>)
    ensures |r| == |s|
    ensures forall i :: 0 <= i < |s| ==> r[i] == f(s[i])
  {
    if |s| == 0 then [] else MapSeq(s[..|s| - 1], f) + [f(s[|s| - 1])]
  }

  lemma {:induction false} MapSeqConcat<A, B>(u: seq<A>, v: seq<A>, f: A -> B)
    ensures MapSeq(u + v, f) == MapSeq(u, f) + MapSeq(v, f)
  {
  }

  /** Extending the mapped prefix by one element. */
  lemma {:induction false} MapSeqPrefixSnoc<A, B>(s: seq<A>, i: nat, f: A -> B)
    requires i < |s|
    ensures MapSeq(s[..i + 1], f) == MapSeq(s[..i], f) + [f(s[i])]
  {
    assert s[..i + 1][..i] == s[..i];
  }

  /** Mapping a permutation gives a permutation of the mapped sequence. */
  lemma {:induction false} MapSeqPermutation<A, B>(a: seq<A>, b: seq<A>, f: A -> B)
    requires multiset(a) == multiset(b)
    ensures multiset(MapSeq(a, f)) == multiset(MapSeq(b, f))
  {
    if |a| == 0 {
      assert |b| == |multiset(b)| == 0;
    } else {
      var x := a[|a| - 1];
      var a' := a[..|a| - 1];
      assert a == a' + [x];
      assert x in multiset(b);
      var i :| 0 <= i < |b| && b[i] == x;
      var b' := b[..i] + b[i + 1..];
      assert b == b[..i] + [x] + b[i + 1..];
      assert multiset(b') == multiset(b) - multiset{x};
      assert multiset(a') == multiset(a) - multiset{x};
      MapSeqPermutation(a', b', f);
      MapSeqMultisetLast(a, f);
      MapSeqMultisetAt(b, i, f);
    }
  }

  /** The mapped last element joins the mapped rest. */
  lemma {:induction false} MapSeqMultisetLast<A, B>(a: seq<A>, f: A -> B)
    requires |a| > 0
    ensures multiset(MapSeq(a, f)) == multiset(MapSeq(a[..|a| - 1], f)) + multiset{f(a[|a| - 1])}
  {
  }

  /** The mapped element at `i` joins the mapped rest. */
  lemma {:induction false} MapSeqMultisetAt<A, B>(b: seq<A>, i: nat, f: A -> B)
    requires i < |b|
    ensures multiset(MapSeq(b, f)) == multiset(MapSeq(b[..i] + b[i + 1..], f)) + multiset{f(b[i])}
  {
    MapSeqAround(b, i, f);
    MapSeqConcat(b[..i], b[i + 1..], f);
    var front, back := MapSeq(b[..i], f), MapSeq(b[i + 1..], f);
    assert multiset(front + [f(b[i])] + back) == multiset(front) + multiset{f(b[i])} + multiset(back);
  }

  lemma {:induction false} MapSeqAround<A, B>(b: seq<A>, i: nat, f: A -> B)
    requires i < |b|
    ensures MapSeq(b, f) == MapSeq(b[..i], f) + [f(b[i])] + MapSeq(b[i + 1..], f)
  {
    var whole := MapSeq(b, f);
    var parts := MapSeq(b[..i], f) + [f(b[i])] + MapSeq(b[i + 1..], f);
    forall k | 0 <= k < |b|
      ensures parts[k] == whole[k]
    {
      if k > i {
        assert parts[k] == MapSeq(b[i + 1..], f)[k - i - 1];
      }
    }
  }

  // Real arithmetic the weighted means need, one step at a time.

  lemma {:induction false} ScaleMonotone(x: real, y: real, w: real)
    requires x <= y && w > 0.0
    ensures x * w <= y * w
  {
    assert (y - x) * w >= 0.0;
  }

  lemma {:induction false} CancelPositive(x: real, y: real, w: real)
    requires w > 0.0 && x * w <= y * w
    ensures x <= y
  {
  }

  lemma {:induction false} QuotientAtLeast(lo: real, ws: real, w: real)
    requires w > 0.0 && lo * w <= ws
    ensures lo <= ws / w
  {
    assert ws / w * w == ws;
    CancelPositive(lo, ws / w, w);
  }

  lemma {:induction false} QuotientAtMost(hi: real, ws: real, w: real)
    requires w > 0.0 && ws <= hi * w
    ensures ws / w <= hi
  {
    assert ws / w * w == ws;
    CancelPositive(ws / w, hi, w);
  }
}
