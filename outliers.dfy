/** `remove_outliers` (dashboard/dashboard.py:19-31): the numeric columns are
    taken once, then each column in table order filters the table as it
    stands after the columns before it, keeping the rows inside that
    column's 1.5 IQR fences. */
module Outliers {
  import opened Common
  import opened Records
  import opened Quantiles

  /** `df[col]`: one column of the table, row by row. */
  function ColumnValues(t: seq<MergedRecord>, c: Column): (vs: seq<real>)
    ensures |vs| == |t|
    ensures forall i :: 0 <= i < |t| ==> vs[i] == Value(t[i], c)
  {
    seq(|t|, i requires 0 <= i < |t| => Value(t[i], c))
  }

  /** The fences of column `c` computed on table `t`; none when `t` is empty. */
  function ColumnFences(t: seq<MergedRecord>, c: Column): Option<Fences>
  {
    FencesOf(ColumnValues(t, c))
  }

  /** `row` lies inside the fences of column `c` computed on table `t`. */
  predicate WithinFences(row: MergedRecord, t: seq<MergedRecord>, c: Column)
  {
    var f := ColumnFences(t, c);
    f.Some? && f.value.Lower() <= Value(row, c) <= f.value.Upper()
  }

  /** `df[(df[col] >= lower_bound) & (df[col] <= upper_bound)]` */
  function Keep(t: seq<MergedRecord>, c: Column, lower: real, upper: real): (kept: seq<MergedRecord>)
    ensures IsSubseq(kept, t)
    ensures forall row :: row in kept <==> row in t && lower <= Value(row, c) <= upper
  {
    if t == [] then []
    else if lower <= Value(t[0], c) <= upper then [t[0]] + Keep(t[1..], c, lower, upper)
    else Keep(t[1..], c, lower, upper)
  }

  /** One turn of the loop: the quartiles of `c` on the current table, then
      the filter. An empty table has NaN quartiles and no row passes. */
  function Step(t: seq<MergedRecord>, c: Column): (r: seq<MergedRecord>)
    ensures IsSubseq(r, t)
    ensures forall row :: row in r <==> row in t && WithinFences(row, t, c)
  {
    match ColumnFences(t, c)
    case None => []
    case Some(f) => KeepWithin(t, c, f); Keep(t, c, f.Lower(), f.Upper())
  }

  /** The mask filter with the fences of `c` on `t` keeps exactly the rows
      inside those fences. */
  lemma KeepWithin(t: seq<MergedRecord>, c: Column, f: Fences)
    requires ColumnFences(t, c) == Some(f)
    ensures forall row :: row in Keep(t, c, f.Lower(), f.Upper()) <==> row in t && WithinFences(row, t, c)
  {
    forall row
      ensures row in Keep(t, c, f.Lower(), f.Upper()) <==> row in t && WithinFences(row, t, c)
    {
      WithinGivenFences(row, t, c, f);
    }
  }

  lemma WithinGivenFences(row: MergedRecord, t: seq<MergedRecord>, c: Column, f: Fences)
    requires ColumnFences(t, c) == Some(f)
    ensures WithinFences(row, t, c) <==> f.Lower() <= Value(row, c) <= f.Upper()
  {
  }

  /** The whole loop over `cols`, each column filtering the previous result. */
  function Pass(t: seq<MergedRecord>, cols: seq<Column>): seq<MergedRecord>
    decreases |cols|
  {
    if cols == [] then t else Pass(Step(t, cols[0]), cols[1..])
  }

  /** One turn of the loop (dashboard/dashboard.py:24-29). */
  method FilterColumn(df: seq<MergedRecord>, col: Column) returns (kept: seq<MergedRecord>)
    ensures kept == Step(df, col)
  {
    var values := ColumnValues(df, col);
    if values == [] {
      // the quartiles of an empty column are NaN: no comparison holds
      kept := [];
    } else {
      var sorted := SortAscending(values);
      var q1 := FirstQuartile(sorted);
      var q3 := ThirdQuartile(sorted);
      var iqr := q3 - q1;
      var lowerBound := q1 - 1.5 * iqr;
      var upperBound := q3 + 1.5 * iqr;
      kept := Keep(df, col, lowerBound, upperBound);
      QuartileFences(df, col);
      StepIsKeep(df, col, Fences(q1, q3), lowerBound, upperBound);
    }
  }

  /** The fences of a column of a non-empty table are those of its sorted
      values' quartiles. */
  lemma QuartileFences(t: seq<MergedRecord>, c: Column)
    requires t != []
    ensures ColumnFences(t, c) ==
      Some(Fences(FirstQuartile(SortAscending(ColumnValues(t, c))),
                  ThirdQuartile(SortAscending(ColumnValues(t, c)))))
  {
  }

  /** With the fences of column `c` on `t`, the step is the mask filter. */
  lemma StepIsKeep(t: seq<MergedRecord>, c: Column, f: Fences, lower: real, upper: real)
    requires ColumnFences(t, c) == Some(f)
    requires lower == f.Lower() && upper == f.Upper()
    ensures Step(t, c) == Keep(t, c, lower, upper)
  {
  }

  /** `remove_outliers(df)`: the column list is fixed before the loop, and
      each column filters the table left by the columns before it. */
  method RemoveOutliers(df: seq<MergedRecord>) returns (clean: seq<MergedRecord>)
    ensures clean == Pass(df, NumericColumns)
  {
    var numericCols := NumericColumns;
    clean := df;
    var i := 0;
    while i < |numericCols|
      invariant 0 <= i <= |numericCols|
      invariant clean == Pass(df, numericCols[..i])
    {
      PassPrefixStep(df, numericCols, i);
      clean := FilterColumn(clean, numericCols[i]);
      i := i + 1;
    }
    assert numericCols[..i] == numericCols;
  }

  /** Running the loop over `a + b` is running it over `a`, then over `b`. */
  /** One more column of the loop is one more step. */
  lemma PassPrefixStep(t: seq<MergedRecord>, cols: seq<Column>, i: nat)
    requires i < |cols|
    ensures Pass(t, cols[..i + 1]) == Step(Pass(t, cols[..i]), cols[i])
  {
    assert cols[..i + 1] == cols[..i] + [cols[i]];
    PassAppend(t, cols[..i], [cols[i]]);
  }

  lemma {:induction false} PassAppend(t: seq<MergedRecord>, a: seq<Column>, b: seq<Column>)
    ensures Pass(t, a + b) == Pass(Pass(t, a), b)
    decreases |a|
  {
    if a == [] {
      assert a + b == b;
    } else {
      assert (a + b)[0] == a[0];
      assert (a + b)[1..] == a[1..] + b;
      PassAppend(Step(t, a[0]), a[1..], b);
    }
  }

  /** The filter only deletes rows: the result is the input with some rows
      removed, the others unchanged and in their original order. */
  lemma {:induction false} PassSubseq(t: seq<MergedRecord>, cols: seq<Column>)
    ensures IsSubseq(Pass(t, cols), t)
    ensures |Pass(t, cols)| <= |t|
    ensures t == [] ==> Pass(t, cols) == []
    decreases |cols|
  {
    if cols == [] {
      SubseqRefl(t);
    } else {
      PassSubseq(Step(t, cols[0]), cols[1..]);
      SubseqTrans(Pass(t, cols), Step(t, cols[0]), t);
    }
    SubseqMultiset(Pass(t, cols), t);
  }

  /** A row survives the whole pass exactly when it is in the input and lies
      inside every column's fences, each computed on the table as it stood
      when that column's turn came. */
  lemma {:induction false} PassMembership(t: seq<MergedRecord>, cols: seq<Column>, row: MergedRecord)
    ensures row in Pass(t, cols) <==> row in t && WithinAllFences(row, t, cols)
    decreases |cols|
  {
    if cols != [] {
      PassMembership(Step(t, cols[0]), cols[1..], row);
      WithinAllFencesCons(row, t, cols);
    }
  }

  /** `row` lies inside the fences of every column of `cols`, each computed
      on the table the columns before it left. */
  predicate WithinAllFences(row: MergedRecord, t: seq<MergedRecord>, cols: seq<Column>)
  {
    forall j :: 0 <= j < |cols| ==> WithinFences(row, Pass(t, cols[..j]), cols[j])
  }

  lemma WithinAllFencesCons(row: MergedRecord, t: seq<MergedRecord>, cols: seq<Column>)
    requires cols != []
    ensures WithinAllFences(row, t, cols) <==>
      WithinFences(row, t, cols[0]) && WithinAllFences(row, Step(t, cols[0]), cols[1..])
  {
    var next := Step(t, cols[0]);
    forall j | 0 <= j < |cols[1..]|
      ensures Pass(next, cols[1..][..j]) == Pass(t, cols[..j + 1])
    {
      assert cols[..j + 1] == [cols[0]] + cols[1..][..j];
    }
    assert cols[..0] == [];
    if WithinAllFences(row, t, cols) {
      forall j | 0 <= j < |cols[1..]|
        ensures WithinFences(row, Pass(next, cols[1..][..j]), cols[1..][j])
      {
        assert WithinFences(row, Pass(t, cols[..j + 1]), cols[j + 1]);
      }
    }
    if WithinFences(row, t, cols[0]) && WithinAllFences(row, next, cols[1..]) {
      forall j | 0 <= j < |cols|
        ensures WithinFences(row, Pass(t, cols[..j]), cols[j])
      {
        if j > 0 {
          assert cols[j] == cols[1..][j - 1];
          assert WithinFences(row, Pass(next, cols[1..][..j - 1]), cols[1..][j - 1]);
        }
      }
    }
  }

  /** In every step Q1 and Q3 lie inside the fences, so every row whose value
      lies between the quartiles of the current table survives that step. */
  lemma StepKeepsInterquartileRows(t: seq<MergedRecord>, c: Column, row: MergedRecord)
    requires row in t
    ensures ColumnFences(t, c).Some?
    ensures ColumnFences(t, c).value.q1 <= ColumnFences(t, c).value.q3
    ensures ColumnFences(t, c).value.q1 <= Value(row, c) <= ColumnFences(t, c).value.q3
      ==> row in Step(t, c)
  {
  }

  /** The filter never empties a non-empty table: some row always lies
      inside the current fences. */
  lemma {:induction false} PassKeepsSomeRow(t: seq<MergedRecord>, cols: seq<Column>)
    requires |t| > 0
    ensures |Pass(t, cols)| > 0
    decreases |cols|
  {
    if cols != [] {
      var i := SomeValueWithinFences(ColumnValues(t, cols[0]));
      assert t[i] in Step(t, cols[0]);
      PassKeepsSomeRow(Step(t, cols[0]), cols[1..]);
    }
  }

  /** Every row of `t` has the same value in column `c`. */
  predicate ConstantIn(t: seq<MergedRecord>, c: Column)
  {
    forall r1, r2 :: r1 in t && r2 in t ==> Value(r1, c) == Value(r2, c)
  }

  /** Deleting rows keeps a column without spread without spread. */
  lemma ConstantInSubseq(a: seq<MergedRecord>, b: seq<MergedRecord>, c: Column)
    requires IsSubseq(a, b) && ConstantIn(b, c)
    ensures ConstantIn(a, c)
  {
    SubseqMultiset(a, b);
    assert forall r :: r in a ==> r in multiset(b);
  }

  lemma {:induction false} KeepAll(t: seq<MergedRecord>, c: Column, lower: real, upper: real)
    requires forall row :: row in t ==> lower <= Value(row, c) <= upper
    ensures Keep(t, c, lower, upper) == t
    decreases |t|
  {
    if t != [] {
      KeepAll(t[1..], c, lower, upper);
    }
  }

  lemma {:induction false} KeepAppend(a: seq<MergedRecord>, b: seq<MergedRecord>, c: Column, lower: real, upper: real)
    ensures Keep(a + b, c, lower, upper) == Keep(a, c, lower, upper) + Keep(b, c, lower, upper)
    decreases |a|
  {
    if a == [] {
      assert a + b == b;
    } else {
      assert (a + b)[0] == a[0];
      assert (a + b)[1..] == a[1..] + b;
      KeepAppend(a[1..], b, c, lower, upper);
    }
  }

  /** A column with no spread has Q1 = Q3 and fences collapsed onto that one
      value, which every row has: the step keeps the table as it is. */
  lemma ConstantColumnStep(t: seq<MergedRecord>, c: Column)
    requires ConstantIn(t, c)
    ensures Step(t, c) == t
  {
    if t != [] {
      var v := Value(t[0], c);
      var values := ColumnValues(t, c);
      var x := SortAscending(values);
      forall k | 0 <= k < |x|
        ensures x[k] == v
      {
        assert x[k] in multiset(values);
        var i :| 0 <= i < |values| && values[i] == x[k];
        assert t[i] in t;
      }
      assert FirstQuartile(x) == v && ThirdQuartile(x) == v;
      var f := Fences(v, v);
      assert ColumnFences(t, c) == Some(f);
      assert f.Lower() == v && f.Upper() == v;
      KeepAll(t, c, v, v);
    }
  }

  /** Columns without spread on the input table remove nothing, however many. */
  lemma {:induction false} PassConstantColumns(t: seq<MergedRecord>, cols: seq<Column>)
    requires forall c :: c in cols ==> ConstantIn(t, c)
    ensures Pass(t, cols) == t
    decreases |cols|
  {
    if cols != [] {
      ConstantColumnStep(t, cols[0]);
      PassConstantColumns(t, cols[1..]);
    }
  }

  /** When `cnt_hour` is the only column with any spread, the whole pass is
      the `cnt_hour` step. */
  lemma OnlyCountVaries(t: seq<MergedRecord>)
    requires forall c :: c != CntHour ==> ConstantIn(t, c)
    ensures Pass(t, NumericColumns) == Step(t, CntHour)
  {
    var s := Step(t, CntHour);
    CountAfterConstants(t);
    ConstantInSubseq(s, t, CntDay);
    ConstantColumnStep(s, CntDay);
    assert NumericColumns == NumericColumns[..16] + [CntDay];
    PassAppend(t, NumericColumns[..16], [CntDay]);
  }

  /** The columns before `cnt_hour` remove nothing when they have no spread. */
  lemma CountAfterConstants(t: seq<MergedRecord>)
    requires forall c :: c != CntHour ==> ConstantIn(t, c)
    ensures Pass(t, NumericColumns[..16]) == Step(t, CntHour)
  {
    var before := NumericColumns[..15];
    assert NumericColumns[..16] == before + [CntHour];
    assert forall c :: c in before ==> c != CntHour;
    PassConstantColumns(t, before);
    PassAppend(t, before, [CntHour]);
  }

  /** An hour with all-zero columns except its count. */
  function Sample(n: int): MergedRecord
  {
    MergedRecord(0, "2011-01-01", 0, 0, 0, 0, 0, 0, 0, 0, 0.0, 0.0, 0.0, 0.0, 0, 0, n, 0)
  }

  /** A sample is zero in every column but `cnt_hour`. */
  lemma SampleValues()
    ensures forall n, c :: c != CntHour ==> Value(Sample(n), c) == 0.0
  {
  }

  /** A table of samples varies in its count only. */
  lemma SampleOnlyCountVaries(t: seq<MergedRecord>)
    requires forall r :: r in t ==> r == Sample(r.cnt_hour)
    ensures Pass(t, NumericColumns) == Step(t, CntHour)
  {
    SampleValues();
    OnlyCountVaries(t);
  }

  /** The filter is not idempotent: on counts 0, 0, 0, 0, 1, 2, 10 the first
      pass drops 10 (fences -2.25 and 3.75), and on what is left a second
      pass drops 2 as well (fences -1.125 and 1.875). */
  lemma SecondPassRemovesMore(t: seq<MergedRecord>)
    requires t == [Sample(0), Sample(0), Sample(0), Sample(0), Sample(1), Sample(2), Sample(10)]
    ensures |Pass(t, NumericColumns)| == 6
    ensures |Pass(Pass(t, NumericColumns), NumericColumns)| == 5
  {
    FirstPassOnSample(t);
    SecondPassOnSample(t[..6]);
  }

  lemma FirstPassOnSample(t: seq<MergedRecord>)
    requires t == [Sample(0), Sample(0), Sample(0), Sample(0), Sample(1), Sample(2), Sample(10)]
    ensures Pass(t, NumericColumns) == t[..6]
  {
    SampleOnlyCountVaries(t);
    FirstSampleFences(t);
    FirstSampleKeep(t);
  }

  /** Counts 0, 0, 0, 0, 1, 2, 10: Q1 = 0 and Q3 = 1.5. */
  lemma FirstSampleFences(t: seq<MergedRecord>)
    requires t == [Sample(0), Sample(0), Sample(0), Sample(0), Sample(1), Sample(2), Sample(10)]
    ensures Step(t, CntHour) == Keep(t, CntHour, -2.25, 3.75)
  {
    var v := [0.0, 0.0, 0.0, 0.0, 1.0, 2.0, 10.0];
    assert FirstQuartile(v) == 0.0 && ThirdQuartile(v) == 1.5;
    CountStep(t, v, 0.0, 1.5);
  }

  /** Only the count 10 lies outside [-2.25, 3.75]. */
  lemma FirstSampleKeep(t: seq<MergedRecord>)
    requires t == [Sample(0), Sample(0), Sample(0), Sample(0), Sample(1), Sample(2), Sample(10)]
    ensures Keep(t, CntHour, -2.25, 3.75) == t[..6]
  {
    DropLast(t, -2.25, 3.75);
  }

  lemma SecondPassOnSample(t: seq<MergedRecord>)
    requires t == [Sample(0), Sample(0), Sample(0), Sample(0), Sample(1), Sample(2)]
    ensures Pass(t, NumericColumns) == t[..5]
  {
    SampleOnlyCountVaries(t);
    SecondSampleFences(t);
    SecondSampleKeep(t);
  }

  /** Counts 0, 0, 0, 0, 1, 2: Q1 = 0 and Q3 = 0.75. */
  lemma SecondSampleFences(t: seq<MergedRecord>)
    requires t == [Sample(0), Sample(0), Sample(0), Sample(0), Sample(1), Sample(2)]
    ensures Step(t, CntHour) == Keep(t, CntHour, -1.125, 1.875)
  {
    var v := [0.0, 0.0, 0.0, 0.0, 1.0, 2.0];
    assert FirstQuartile(v) == 0.0 && ThirdQuartile(v) == 0.75;
    CountStep(t, v, 0.0, 0.75);
  }

  /** Only the count 2 lies outside [-1.125, 1.875]. */
  lemma SecondSampleKeep(t: seq<MergedRecord>)
    requires t == [Sample(0), Sample(0), Sample(0), Sample(0), Sample(1), Sample(2)]
    ensures Keep(t, CntHour, -1.125, 1.875) == t[..5]
  {
    DropLast(t, -1.125, 1.875);
  }

  /** The `cnt_hour` step on a table whose counts are the sorted values `v`. */
  lemma CountStep(t: seq<MergedRecord>, v: seq<real>, q1: real, q3: real)
    requires |t| == |v| > 0 && Sorted(v)
    requires forall i :: 0 <= i < |t| ==> Value(t[i], CntHour) == v[i]
    requires FirstQuartile(v) == q1 && ThirdQuartile(v) == q3
    ensures Step(t, CntHour) == Keep(t, CntHour, Fences(q1, q3).Lower(), Fences(q1, q3).Upper())
  {
    assert ColumnValues(t, CntHour) == v;
    SortAscendingOfSorted(v);
  }

  /** Keeping rows whose count lies in [lower, upper] when only the last
      row's count lies outside. */
  lemma DropLast(t: seq<MergedRecord>, lower: real, upper: real)
    requires |t| > 0
    requires forall i :: 0 <= i < |t| - 1 ==> lower <= Value(t[i], CntHour) <= upper
    requires Value(t[|t| - 1], CntHour) > upper
    ensures Keep(t, CntHour, lower, upper) == t[..|t| - 1]
  {
    var n := |t| - 1;
    assert t == t[..n] + [t[n]];
    KeepAppend(t[..n], [t[n]], CntHour, lower, upper);
    KeepAll(t[..n], CntHour, lower, upper);
  }
}
