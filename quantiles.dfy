/** `Series.quantile` with pandas' default linear interpolation, and the
    interquartile-range fences built from it (dashboard/dashboard.py:24-28). */
module Quantiles {
  import opened Common

  predicate Sorted(s: seq<real>)
  {
    forall i, j :: 0 <= i <= j < |s| ==> s[i] <= s[j]
  }

  function Insert(x: real, s: seq<real>): (r: seq<real>)
    requires Sorted(s)
    ensures Sorted(r)
    ensures multiset(r) == multiset(s) + multiset{x}
    ensures r[0] == x || (s != [] && r[0] == s[0])
    decreases |s|
  {
    if s == [] || x <= s[0] then [x] + s
    else
      assert s == [s[0]] + s[1..];
      [s[0]] + Insert(x, s[1..])
  }

  /** The column's values in ascending order; the quantile reads ranks from it. */
  function SortAscending(s: seq<real>): (r: seq<real>)
    ensures Sorted(r)
    ensures multiset(r) == multiset(s)
  {
    if s == [] then []
    else
      assert s == [s[0]] + s[1..];
      Insert(s[0], SortAscending(s[1..]))
  }

  /** Sorting a column that is already in order leaves it as it is. */
  lemma {:induction false} SortAscendingOfSorted(s: seq<real>)
    requires Sorted(s)
    ensures SortAscending(s) == s
    decreases |s|
  {
    if s != [] {
      SortAscendingOfSorted(s[1..]);
      assert s == [s[0]] + s[1..];
    }
  }

  /** The value at rank p/4 of a non-empty sorted sample, where p counts
      quarter steps: between the ranks p/4 and p/4 + 1 the value moves on a
      straight line, as pandas' `interpolation='linear'` does. */
  function Interpolate(x: seq<real>, p: nat): (v: real)
    requires Sorted(x) && 0 < |x| && p <= 4 * (|x| - 1)
    ensures x[p / 4] <= v
    ensures p % 4 == 0 ==> v == x[p / 4]
    ensures p % 4 != 0 ==> p / 4 + 1 < |x| && v <= x[p / 4 + 1]
  {
    var i := p / 4;
    // p % 4 quarters of the way from rank i to rank i + 1
    if p % 4 == 0 then x[i]
    else if p % 4 == 1 then x[i] + (x[i + 1] - x[i]) / 4.0
    else if p % 4 == 2 then x[i] + (x[i + 1] - x[i]) / 2.0
    else x[i] + 3.0 * (x[i + 1] - x[i]) / 4.0
  }

  /** A later rank never gives a smaller value. */
  lemma InterpolateMonotone(x: seq<real>, p1: nat, p2: nat)
    requires Sorted(x) && 0 < |x| && p1 <= p2 <= 4 * (|x| - 1)
    ensures Interpolate(x, p1) <= Interpolate(x, p2)
  {
    if p1 / 4 < p2 / 4 {
      if p1 % 4 != 0 {
        assert x[p1 / 4 + 1] <= x[p2 / 4];
      } else {
        assert x[p1 / 4] <= x[p2 / 4];
      }
    }
  }

  /** `quantile(0.25)`: rank (n - 1) / 4, a value within the sample's range. */
  function FirstQuartile(x: seq<real>): (q1: real)
    requires Sorted(x) && 0 < |x|
    ensures x[0] <= q1 <= x[|x| - 1]
  {
    Interpolate(x, |x| - 1)
  }

  /** `quantile(0.75)`: rank 3 (n - 1) / 4, a value within the sample's range
      and never below the first quartile. */
  function ThirdQuartile(x: seq<real>): (q3: real)
    requires Sorted(x) && 0 < |x|
    ensures FirstQuartile(x) <= q3 <= x[|x| - 1]
  {
    InterpolateMonotone(x, |x| - 1, 3 * (|x| - 1));
    Interpolate(x, 3 * (|x| - 1))
  }

  /** The quartiles of one column and the outlier fences 1.5 IQR beyond them. */
  datatype Fences = Fences(q1: real, q3: real)
  {
    function Iqr(): real { q3 - q1 }
    function Lower(): real { q1 - 1.5 * Iqr() }
    function Upper(): real { q3 + 1.5 * Iqr() }
  }

  /** The fences of a column; an empty column has NaN quartiles, written
      here as no fences at all. */
  function FencesOf(values: seq<real>): (f: Option<Fences>)
    ensures f.Some? <==> |values| > 0
    ensures f.Some? ==> f.value.Lower() <= f.value.q1 <= f.value.q3 <= f.value.Upper()
  {
    if values == [] then None
    else
      var x := SortAscending(values);
      InterpolateMonotone(x, |x| - 1, 3 * (|x| - 1));
      Some(Fences(FirstQuartile(x), ThirdQuartile(x)))
  }

  /** A sorted non-empty sample has an element inside its own fences. */
  lemma SortedWithinFences(x: seq<real>) returns (k: nat)
    requires Sorted(x) && 0 < |x|
    ensures k < |x|
    ensures Fences(FirstQuartile(x), ThirdQuartile(x)).Lower() <= x[k]
    ensures x[k] <= Fences(FirstQuartile(x), ThirdQuartile(x)).Upper()
  {
    var m := |x| - 1;
    var q1, q3 := FirstQuartile(x), ThirdQuartile(x);
    InterpolateMonotone(x, m, 3 * m);
    if m % 4 == 0 {
      // Q1 is itself an element.
      k := m / 4;
    } else if m == 1 {
      // Two elements: Q1 = x0 + d/4 and Q3 = x0 + 3d/4, so the lower fence is x0 - d/2.
      k := 0;
    } else {
      // The rank just above Q1 is at most the rank of Q3.
      k := m / 4 + 1;
      assert k <= (3 * m) / 4;
      assert x[k] <= x[(3 * m) / 4] <= q3;
    }
  }

  /** A non-empty column always has a value inside its own fences (so the
      filter can never empty a non-empty table). */
  lemma SomeValueWithinFences(values: seq<real>) returns (i: nat)
    requires |values| > 0
    ensures i < |values|
    ensures FencesOf(values).value.Lower() <= values[i] <= FencesOf(values).value.Upper()
  {
    var x := SortAscending(values);
    var k := SortedWithinFences(x);
    assert x[k] in multiset(values);
    i :| 0 <= i < |values| && values[i] == x[k];
  }
}
