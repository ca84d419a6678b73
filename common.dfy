/** Helpers shared by the pipeline: a value that may be missing, the
    "keeps some rows, in order, unchanged" relation between tables, and sums. */
module Common {

  /** A value that may be missing; pandas writes a missing value as NaN. */
  datatype Option<T> = None | Some(value: T)

  /** `a` is `b` with some elements deleted and the others left unchanged
      and in their original order. */
  predicate IsSubseq<T(==)>(a: seq<T>, b: seq<T>)
    decreases |b|
  {
    if a == [] then true
    else if b == [] then false
    else (a[0] == b[0] && IsSubseq(a[1..], b[1..])) || IsSubseq(a, b[1..])
  }

  lemma {:induction false} SubseqRefl<T>(s: seq<T>)
    ensures IsSubseq(s, s)
    decreases |s|
  {
    if s != [] {
      SubseqRefl(s[1..]);
    }
  }

  lemma {:induction false} SubseqTrans<T>(a: seq<T>, b: seq<T>, c: seq<T>)
    requires IsSubseq(a, b) && IsSubseq(b, c)
    ensures IsSubseq(a, c)
    decreases |c|
  {
    if a != [] {
      if b[0] == c[0] && IsSubseq(b[1..], c[1..]) {
        if a[0] == b[0] && IsSubseq(a[1..], b[1..]) {
          SubseqTrans(a[1..], b[1..], c[1..]);
        } else {
          SubseqTrans(a, b[1..], c[1..]);
        }
      } else {
        SubseqTrans(a, b, c[1..]);
      }
    }
  }

  /** Deleting elements never adds an element nor raises its multiplicity. */
  lemma {:induction false} SubseqMultiset<T>(a: seq<T>, b: seq<T>)
    requires IsSubseq(a, b)
    ensures multiset(a) <= multiset(b)
    ensures |a| <= |b|
    decreases |b|
  {
    if a != [] {
      assert a == [a[0]] + a[1..];
      assert b == [b[0]] + b[1..];
      if a[0] == b[0] && IsSubseq(a[1..], b[1..]) {
        SubseqMultiset(a[1..], b[1..]);
      } else {
        SubseqMultiset(a, b[1..]);
      }
    }
  }

  /** The only subsequence of the empty table is the empty table. */
  lemma SubseqOfEmpty<T>(a: seq<T>)
    requires IsSubseq(a, [])
    ensures a == []
  {
  }

  /** No element occurs twice. */
  predicate Distinct<T(==)>(s: seq<T>)
  {
    forall i, j :: 0 <= i < j < |s| ==> s[i] != s[j]
  }

  function Sum(xs: seq<real>): real
  {
    if xs == [] then 0.0 else xs[0] + Sum(xs[1..])
  }

  lemma {:induction false} SumAppend(a: seq<real>, b: seq<real>)
    ensures Sum(a + b) == Sum(a) + Sum(b)
    decreases |a|
  {
    if a == [] {
      assert a + b == b;
    } else {
      assert (a + b)[1..] == a[1..] + b;
      SumAppend(a[1..], b);
    }
  }

  /** Every element lies in [lo, hi], so the sum lies in [n * lo, n * hi]. */
  lemma {:induction false} SumBounds(xs: seq<real>, lo: real, hi: real)
    requires forall i :: 0 <= i < |xs| ==> lo <= xs[i] <= hi
    ensures (|xs| as real) * lo <= Sum(xs) <= (|xs| as real) * hi
    decreases |xs|
  {
    if xs != [] {
      SumBounds(xs[1..], lo, hi);
    }
  }
}
