/** `groupby(key)["cnt_hour"].mean()` and `.sum()` over the joined table
    (dashboard/dashboard.py:76, 80, 85, 271), and the working-day comparison
    (dashboard/dashboard.py:150-154). */
module Aggregate {
  import opened Common

  /** One row as a `groupby` sees it: its key, missing when the key column
      holds NaN, and its `cnt_hour`. */
  datatype Entry<K> = Entry(key: Option<K>, value: real)

  function Values<K>(es: seq<Entry<K>>): (vs: seq<real>)
    ensures |vs| == |es|
    ensures forall i :: 0 <= i < |es| ==> vs[i] == es[i].value
  {
    if es == [] then [] else [es[0].value] + Values(es[1..])
  }

  /** The values of the rows whose key is `k`, in table order. */
  function Group<K(==)>(es: seq<Entry<K>>, k: K): (g: seq<real>)
    ensures |g| <= |es|
    ensures g == [] <==> forall i :: 0 <= i < |es| ==> es[i].key != Some(k)
  {
    if es == [] then []
    else if es[0].key == Some(k) then [es[0].value] + Group(es[1..], k)
    else Group(es[1..], k)
  }

  /** `Series.mean()` of a non-empty series. */
  function Mean(xs: seq<real>): (m: real)
    requires xs != []
    ensures m * (|xs| as real) == Sum(xs)
  {
    Sum(xs) / (|xs| as real)
  }

  /** The mean lies between any lower and upper bound of the values. */
  lemma MeanBetween(xs: seq<real>, lo: real, hi: real)
    requires xs != []
    requires forall i :: 0 <= i < |xs| ==> lo <= xs[i] <= hi
    ensures lo <= Mean(xs) <= hi
  {
    SumBounds(xs, lo, hi);
    var n := |xs| as real;
    var m := Mean(xs);
    assert lo * n == n * lo && hi * n == n * hi;
    assert lo * n <= m * n <= hi * n;
    CancelFactor(lo, m, n);
    CancelFactor(m, hi, n);
  }

  lemma CancelFactor(a: real, b: real, n: real)
    requires 0.0 < n && a * n <= b * n
    ensures a <= b
  {
  }

  /** `Series.mean()` of any series: NaN, written `None`, when it is empty. */
  function MeanOrMissing(xs: seq<real>): (m: Option<real>)
    ensures m.Some? <==> xs != []
    ensures m.Some? ==> m.value * (|xs| as real) == Sum(xs)
  {
    if xs == [] then None else Some(Mean(xs))
  }

  function Keys<K, V>(ps: seq<(K, V)>): (ks: seq<K>)
    ensures |ks| == |ps|
    ensures forall i :: 0 <= i < |ps| ==> ks[i] == ps[i].0
  {
    if ps == [] then [] else [ps[0].0] + Keys(ps[1..])
  }

  function TotalOf<K>(ps: seq<(K, real)>): real
  {
    if ps == [] then 0.0 else ps[0].1 + TotalOf(ps[1..])
  }

  /** `groupby(key)[...].mean()`: one row per key that occurs, in the order
      `order` gives the keys (pandas sorts them); rows whose key is missing
      form no group. */
  function GroupMeans<K(==,!new)>(es: seq<Entry<K>>, order: seq<K>): (r: seq<(K, real)>)
    ensures forall p :: p in r <==>
      p.0 in order && Group(es, p.0) != [] && p.1 == Mean(Group(es, p.0))
    ensures IsSubseq(Keys(r), order)
    ensures Distinct(order) ==> Distinct(Keys(r))
  {
    if order == [] then []
    else
      var rest := GroupMeans(es, order[1..]);
      var g := Group(es, order[0]);
      if g == [] then
        SubseqDropHead(Keys(rest), order);
        DistinctSubseq(Keys(rest), order);
        rest
      else
        var r := [(order[0], Mean(g))] + rest;
        assert Keys(r)[1..] == Keys(rest);
        DistinctSubseq(Keys(r), order);
        r
  }

  /** `groupby(key)[...].sum()`, with the same rows and order as `GroupMeans`. */
  function GroupSums<K(==,!new)>(es: seq<Entry<K>>, order: seq<K>): (r: seq<(K, real)>)
    ensures forall p :: p in r <==>
      p.0 in order && Group(es, p.0) != [] && p.1 == Sum(Group(es, p.0))
    ensures IsSubseq(Keys(r), order)
    ensures Distinct(order) ==> Distinct(Keys(r))
  {
    if order == [] then []
    else
      var rest := GroupSums(es, order[1..]);
      var g := Group(es, order[0]);
      if g == [] then
        SubseqDropHead(Keys(rest), order);
        DistinctSubseq(Keys(rest), order);
        rest
      else
        var r := [(order[0], Sum(g))] + rest;
        assert Keys(r)[1..] == Keys(rest);
        DistinctSubseq(Keys(r), order);
        r
  }

  /** Keys listed in a subsequence of a list without repeats do not repeat. */
  lemma {:induction false} DistinctSubseq<T>(a: seq<T>, b: seq<T>)
    requires IsSubseq(a, b)
    ensures Distinct(b) ==> Distinct(a)
    decreases |b|
  {
    if a != [] && Distinct(b) {
      assert Distinct(b[1..]);
      if a[0] == b[0] && IsSubseq(a[1..], b[1..]) {
        DistinctSubseq(a[1..], b[1..]);
        SubseqMultiset(a[1..], b[1..]);
        forall k | 0 < k < |a|
          ensures a[k] != a[0]
        {
          assert a[k] in multiset(a[1..]);
          assert a[k] in b[1..];
        }
      } else {
        DistinctSubseq(a, b[1..]);
      }
    }
  }

  lemma SubseqDropHead<T>(a: seq<T>, b: seq<T>)
    requires b != [] && IsSubseq(a, b[1..])
    ensures IsSubseq(a, b)
  {
  }

  /** `groupby` over a categorical key with every category kept: one row per
      category in the categories' order, with a missing mean for a category
      no row has. */
  function CategoryMeans<K(==)>(es: seq<Entry<K>>, categories: seq<K>): (r: seq<(K, Option<real>)>)
    ensures |r| == |categories|
    ensures forall i :: 0 <= i < |r| ==> r[i].0 == categories[i]
    ensures forall i :: 0 <= i < |r| ==>
      (r[i].1.Some? <==> exists j :: 0 <= j < |es| && es[j].key == Some(categories[i]))
    ensures forall i :: 0 <= i < |r| && r[i].1.Some? ==>
      r[i].1.value * (|Group(es, categories[i])| as real) == Sum(Group(es, categories[i]))
  {
    seq(|categories|, i requires 0 <= i < |categories| =>
      (categories[i], MeanOrMissing(Group(es, categories[i]))))
  }

  /** The total of the group of `k`, for each `k` in `order`. */
  function SumOfGroups<K(==)>(es: seq<Entry<K>>, order: seq<K>): real
  {
    if order == [] then 0.0 else Sum(Group(es, order[0])) + SumOfGroups(es, order[1..])
  }

  lemma {:induction false} GroupSumsTotal<K(!new)>(es: seq<Entry<K>>, order: seq<K>)
    ensures TotalOf(GroupSums(es, order)) == SumOfGroups(es, order)
    decreases |order|
  {
    if order != [] {
      GroupSumsTotal(es, order[1..]);
      var rest := GroupSums(es, order[1..]);
      if Group(es, order[0]) != [] {
        var r := [(order[0], Sum(Group(es, order[0])))] + rest;
        assert r[1..] == rest;
      }
    }
  }

  /** Adding row `e` in front adds its value to the one group it belongs to. */
  lemma {:induction false} SumOfGroupsCons<K>(e: Entry<K>, rest: seq<Entry<K>>, order: seq<K>)
    requires Distinct(order)
    ensures SumOfGroups([e] + rest, order) ==
      SumOfGroups(rest, order) + (if e.key.Some? && e.key.value in order then e.value else 0.0)
    decreases |order|
  {
    var es := [e] + rest;
    assert es[1..] == rest;
    if order != [] {
      assert Distinct(order[1..]);
      SumOfGroupsCons(e, rest, order[1..]);
      if e.key == Some(order[0]) {
        assert Sum(Group(es, order[0])) == e.value + Sum(Group(rest, order[0])) by {
          assert ([e.value] + Group(rest, order[0]))[1..] == Group(rest, order[0]);
        }
        assert e.key.value !in order[1..];
      } else if e.key.Some? && e.key.value in order {
        assert e.key.value in order[1..];
      }
    }
  }

  /** When every row has a key listed once in `order`, the groups partition
      the rows: their totals add up to the table's total. */
  lemma {:induction false} SumOfGroupsCovers<K>(es: seq<Entry<K>>, order: seq<K>)
    requires Distinct(order)
    requires forall i :: 0 <= i < |es| ==> es[i].key.Some? && es[i].key.value in order
    ensures SumOfGroups(es, order) == Sum(Values(es))
    decreases |es|
  {
    if es == [] {
      SumOfGroupsEmpty(es, order);
    } else {
      assert es == [es[0]] + es[1..];
      SumOfGroupsCovers(es[1..], order);
      SumOfGroupsCons(es[0], es[1..], order);
      assert Values(es)[1..] == Values(es[1..]);
    }
  }

  lemma {:induction false} SumOfGroupsEmpty<K>(es: seq<Entry<K>>, order: seq<K>)
    requires es == []
    ensures SumOfGroups(es, order) == 0.0
    decreases |order|
  {
    if order != [] {
      SumOfGroupsEmpty(es, order[1..]);
    }
  }

  /** The per-group totals of `groupby(...).sum()` add up to the total of the
      whole column when every key is one of the listed keys. */
  lemma GroupSumsPartition<K(!new)>(es: seq<Entry<K>>, order: seq<K>)
    requires Distinct(order)
    requires forall i :: 0 <= i < |es| ==> es[i].key.Some? && es[i].key.value in order
    ensures TotalOf(GroupSums(es, order)) == Sum(Values(es))
  {
    GroupSumsTotal(es, order);
    SumOfGroupsCovers(es, order);
  }

  /** The working-day table: the mean count on working days, on other days,
      and their difference; each is NaN, written `None`, when undefined. */
  datatype WorkingDayComparison = WorkingDayComparison(
    working: Option<real>, holiday: Option<real>, difference: Option<real>)

  /** Rows keyed by `workingday`: the mean of the rows with 1, the mean of the
      rows with 0, and the first minus the second (NaN when either is NaN). */
  function CompareWorkingDays(es: seq<Entry<int>>): (c: WorkingDayComparison)
    ensures c.working.Some? <==> exists i :: 0 <= i < |es| && es[i].key == Some(1)
    ensures c.holiday.Some? <==> exists i :: 0 <= i < |es| && es[i].key == Some(0)
    ensures c.working.Some? ==> c.working.value == Mean(Group(es, 1))
    ensures c.holiday.Some? ==> c.holiday.value == Mean(Group(es, 0))
    ensures c.difference.Some? <==> c.working.Some? && c.holiday.Some?
    ensures c.difference.Some? ==> c.difference.value == c.working.value - c.holiday.value
  {
    var working := MeanOrMissing(Group(es, 1));
    var holiday := MeanOrMissing(Group(es, 0));
    var difference := if working.Some? && holiday.Some? then Some(working.value - holiday.value) else None;
    WorkingDayComparison(working, holiday, difference)
  }

  /** When `workingday` is always 0 or 1, the two groups the means are taken
      over split the table: their sizes and their totals add up to the
      table's. */
  lemma {:induction false} WorkingDaysPartition(es: seq<Entry<int>>)
    requires forall i :: 0 <= i < |es| ==> es[i].key == Some(0) || es[i].key == Some(1)
    ensures |Group(es, 1)| + |Group(es, 0)| == |es|
    ensures Sum(Group(es, 1)) + Sum(Group(es, 0)) == Sum(Values(es))
    decreases |es|
  {
    if es != [] {
      WorkingDaysPartition(es[1..]);
      assert Values(es) == [es[0].value] + Values(es[1..]);
      if es[0].key == Some(1) {
        assert Group(es, 1) == [es[0].value] + Group(es[1..], 1);
      } else {
        assert Group(es, 0) == [es[0].value] + Group(es[1..], 0);
      }
    }
  }
}
