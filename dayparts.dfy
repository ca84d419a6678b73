/** The daypart binning of the hour (dashboard/dashboard.py:257-268) and the
    per-daypart totals in their natural order (dashboard/dashboard.py:271-277). */
module Dayparts {
  import opened Common
  import opened Aggregate

  datatype Daypart = Morning | Afternoon | Evening | Night
  {
    /** The position in the ordered categorical Morning < Afternoon <
        Evening < Night. */
    function Rank(): nat
    {
      match this
      case Morning => 0
      case Afternoon => 1
      case Evening => 2
      case Night => 3
    }

    function Name(): string
    {
      match this
      case Morning => "Morning"
      case Afternoon => "Afternoon"
      case Evening => "Evening"
      case Night => "Night"
    }
  }

  /** `categorize_time`: total on every integer; whatever is not in [0, 18),
      negative hours and hours from 24 on included, is Night. */
  function CategorizeTime(hour: int): (d: Daypart)
    ensures d == Morning <==> 0 <= hour < 6
    ensures d == Afternoon <==> 6 <= hour < 12
    ensures d == Evening <==> 12 <= hour < 18
    ensures d == Night <==> hour < 0 || 18 <= hour
  {
    if 0 <= hour < 6 then Morning
    else if 6 <= hour < 12 then Afternoon
    else if 12 <= hour < 18 then Evening
    else Night
  }

  /** Within a day a later hour never falls in an earlier daypart. */
  lemma CategorizeTimeMonotone(h1: int, h2: int)
    requires 0 <= h1 <= h2
    ensures CategorizeTime(h1).Rank() <= CategorizeTime(h2).Rank()
  {
  }

  /** The order `groupby('daypart')` gives its rows: the labels sorted as strings. */
  const DaypartGroupOrder: seq<Daypart> := [Afternoon, Evening, Morning, Night]

  /** Lexicographic order on strings, as pandas sorts string keys. */
  predicate StringBefore(a: string, b: string)
  {
    if a == [] then b != []
    else if b == [] then false
    else a[0] < b[0] || (a[0] == b[0] && StringBefore(a[1..], b[1..]))
  }

  /** The group order is the labels' alphabetical order. */
  lemma DaypartGroupOrderSorted()
    ensures forall i, j :: 0 <= i < j < |DaypartGroupOrder| ==>
      StringBefore(DaypartGroupOrder[i].Name(), DaypartGroupOrder[j].Name())
  {
    assert StringBefore("Afternoon", "Evening");
    assert StringBefore("Evening", "Morning");
    assert StringBefore("Morning", "Night");
    assert StringBefore("Afternoon", "Morning");
    assert StringBefore("Afternoon", "Night");
    assert StringBefore("Evening", "Night");
  }

  /** The group order lists every daypart. */
  lemma DaypartListed(d: Daypart)
    ensures d in DaypartGroupOrder
  {
    match d
    case Afternoon => assert DaypartGroupOrder[0] == d;
    case Evening => assert DaypartGroupOrder[1] == d;
    case Morning => assert DaypartGroupOrder[2] == d;
    case Night => assert DaypartGroupOrder[3] == d;
  }

  /** No daypart is listed twice. */
  lemma DaypartGroupOrderDistinct()
    ensures Distinct(DaypartGroupOrder)
  {
    forall i, j | 0 <= i < j < |DaypartGroupOrder|
      ensures DaypartGroupOrder[i] != DaypartGroupOrder[j]
    {
      assert DaypartGroupOrder[i].Rank() != DaypartGroupOrder[j].Rank();
    }
  }

  lemma AllDaypartsListed()
    ensures forall d: Daypart :: d in DaypartGroupOrder
  {
    forall d: Daypart
      ensures d in DaypartGroupOrder
    {
      DaypartListed(d);
    }
  }

  /** Strictly increasing in the categorical order, hence no daypart twice. */
  predicate StrictlyRanked(ps: seq<(Daypart, real)>)
  {
    forall i, j :: 0 <= i < j < |ps| ==> ps[i].0.Rank() < ps[j].0.Rank()
  }

  /** One step of `sort_values('daypart')` on rows whose dayparts differ. */
  function InsertByRank(p: (Daypart, real), s: seq<(Daypart, real)>): (r: seq<(Daypart, real)>)
    requires StrictlyRanked(s)
    requires forall q :: q in s ==> q.0 != p.0
    ensures StrictlyRanked(r)
    ensures forall q :: q in r <==> q == p || q in s
    ensures |r| == |s| + 1
    ensures TotalOf(r) == p.1 + TotalOf(s)
  {
    if s == [] || p.0.Rank() < s[0].0.Rank() then
      var r := [p] + s;
      assert r[1..] == s;
      RankedCons(p, s);
      r
    else
      assert s[0] in s;
      RankInjective(p.0, s[0].0);
      var rest := InsertByRank(p, s[1..]);
      forall q | q in s[1..]
        ensures s[0].0.Rank() < q.0.Rank()
      {
        var j :| 0 <= j < |s[1..]| && s[1..][j] == q;
        assert s[j + 1] == q;
      }
      RankedCons(s[0], rest);
      assert s == [s[0]] + s[1..];
      var r := [s[0]] + rest;
      assert r[1..] == rest;
      r
  }

  lemma RankInjective(a: Daypart, b: Daypart)
    ensures a.Rank() == b.Rank() ==> a == b
  {
  }

  lemma RankedCons(x: (Daypart, real), rest: seq<(Daypart, real)>)
    requires StrictlyRanked(rest)
    requires forall q :: q in rest ==> x.0.Rank() < q.0.Rank()
    ensures StrictlyRanked([x] + rest)
  {
    var r := [x] + rest;
    forall i, j | 0 <= i < j < |r|
      ensures r[i].0.Rank() < r[j].0.Rank()
    {
      assert r[j] == rest[j - 1];
      if i > 0 {
        assert r[i] == rest[i - 1];
      } else {
        assert rest[j - 1] in rest;
      }
    }
  }

  /** `sort_values('daypart')` on an ordered categorical: the same rows,
      ordered Morning, Afternoon, Evening, Night. */
  function SortByRank(s: seq<(Daypart, real)>): (r: seq<(Daypart, real)>)
    requires Distinct(Keys(s))
    ensures StrictlyRanked(r)
    ensures forall q :: q in r <==> q in s
    ensures |r| == |s|
    ensures TotalOf(r) == TotalOf(s)
  {
    if s == [] then []
    else
      assert Keys(s[1..]) == Keys(s)[1..];
      var rest := SortByRank(s[1..]);
      forall q | q in rest
        ensures q.0 != s[0].0
      {
        var j :| 0 <= j < |s[1..]| && s[1..][j] == q;
        assert Keys(s)[j + 1] == q.0;
      }
      InsertByRank(s[0], rest)
  }

  /** Total rentals per daypart: `groupby('daypart')['cnt_hour'].sum()`, then
      sorted by the ordered categorical. */
  function DaypartTotals(es: seq<Entry<Daypart>>): (r: seq<(Daypart, real)>)
    ensures StrictlyRanked(r)
    ensures forall i :: 0 <= i < |r| ==> Group(es, r[i].0) != [] && r[i].1 == Sum(Group(es, r[i].0))
  {
    DaypartGroupOrderDistinct();
    SortByRank(GroupSums(es, DaypartGroupOrder))
  }

  /** The daypart table: ordered Morning, Afternoon, Evening, Night; a daypart
      has a row exactly when some hour falls in it, holding the total of its
      hours; and the rows add up to the table's total. */
  lemma {:induction false} DaypartTotalsPartition(es: seq<Entry<Daypart>>)
    requires forall i :: 0 <= i < |es| ==> es[i].key.Some?
    ensures forall d: Daypart :: Group(es, d) != [] ==> (d, Sum(Group(es, d))) in DaypartTotals(es)
    ensures TotalOf(DaypartTotals(es)) == Sum(Values(es))
  {
    AllDaypartsListed();
    GroupSumsPartition(es, DaypartGroupOrder);
  }
}
