/** The inner join of the hourly table with the daily totals on `dteday`
    (dashboard/dashboard.py:13). */
module Join {
  import opened Common
  import opened Records

  /** The joined row made of hourly row `h` and daily row `d`. */
  function Combine(h: HourRecord, d: DayRecord): (m: MergedRecord)
    ensures HourPart(m) == h
    ensures m.cnt_day == d.cnt
  {
    MergedRecord(h.instant, h.dteday, h.season, h.yr, h.mnth, h.hr,
                 h.holiday, h.weekday, h.workingday, h.weathersit,
                 h.temp, h.atemp, h.hum, h.windspeed,
                 h.casual, h.registered, h.cnt, d.cnt)
  }

  /** The hourly row a joined row was made from (its count renamed back). */
  function HourPart(m: MergedRecord): HourRecord
  {
    HourRecord(m.instant, m.dteday, m.season, m.yr, m.mnth, m.hr,
               m.holiday, m.weekday, m.workingday, m.weathersit,
               m.temp, m.atemp, m.hum, m.windspeed,
               m.casual, m.registered, m.cnt_hour)
  }

  function HourParts(ms: seq<MergedRecord>): (hs: seq<HourRecord>)
    ensures |hs| == |ms|
    ensures forall i :: 0 <= i < |ms| ==> hs[i] == HourPart(ms[i])
  {
    if ms == [] then [] else [HourPart(ms[0])] + HourParts(ms[1..])
  }

  /** The `dteday` column of the daily table. */
  function Dates(day: seq<DayRecord>): (ds: seq<Date>)
    ensures |ds| == |day|
    ensures forall i :: 0 <= i < |day| ==> ds[i] == day[i].dteday
  {
    if day == [] then [] else [day[0].dteday] + Dates(day[1..])
  }

  /** The joined rows hourly row `h` yields: one per daily row with the same
      date, in the daily table's order. */
  function RowsFor(h: HourRecord, day: seq<DayRecord>): (ms: seq<MergedRecord>)
    ensures forall m :: m in ms <==>
      exists d :: d in day && d.dteday == h.dteday && m == Combine(h, d)
    ensures |ms| == multiset(Dates(day))[h.dteday]
    ensures |ms| <= |day|
  {
    if day == [] then []
    else
      assert Dates(day) == [day[0].dteday] + Dates(day[1..]);
      if day[0].dteday == h.dteday then [Combine(h, day[0])] + RowsFor(h, day[1..])
      else RowsFor(h, day[1..])
  }

  /** The number of (hourly row, daily row) pairs that share a date. */
  function MatchingPairs(hour: seq<HourRecord>, day: seq<DayRecord>): nat
  {
    if hour == [] then 0 else multiset(Dates(day))[hour[0].dteday] + MatchingPairs(hour[1..], day)
  }

  /** `hour_df.merge(day_df[['dteday', 'cnt']], on='dteday', suffixes=('_hour', '_day'))`:
      an inner join that keeps the hourly rows' order, with one row per pair
      of an hourly and a daily row that share a date. */
  function Merge(hour: seq<HourRecord>, day: seq<DayRecord>): (ms: seq<MergedRecord>)
    ensures |ms| == MatchingPairs(hour, day)
  {
    if hour == [] then [] else RowsFor(hour[0], day) + Merge(hour[1..], day)
  }

  /** A joined row exists exactly for each pair of an hourly row and a daily
      row with the same date, and it carries the hourly row's fields, its
      count as `cnt_hour` and the daily count as `cnt_day`. */
  lemma {:induction false} MergeMembership(hour: seq<HourRecord>, day: seq<DayRecord>)
    ensures forall m :: m in Merge(hour, day) <==>
      exists h, d :: h in hour && d in day && h.dteday == d.dteday && m == Combine(h, d)
    decreases |hour|
  {
    if hour != [] {
      MergeMembership(hour[1..], day);
      forall m
        ensures m in Merge(hour, day) <==>
          exists h, d :: h in hour && d in day && h.dteday == d.dteday && m == Combine(h, d)
      {
        if m in RowsFor(hour[0], day) {
          var d :| d in day && d.dteday == hour[0].dteday && m == Combine(hour[0], d);
          assert hour[0] in hour;
        }
        if exists h, d :: h in hour && d in day && h.dteday == d.dteday && m == Combine(h, d) {
          var h, d :| h in hour && d in day && h.dteday == d.dteday && m == Combine(h, d);
          if h != hour[0] {
            assert h in hour[1..];
          }
        }
      }
    }
  }

  /** Only dates of the daily table survive the join: an hourly row whose
      date has no daily row contributes nothing. */
  lemma MergeDates(hour: seq<HourRecord>, day: seq<DayRecord>, m: MergedRecord)
    requires m in Merge(hour, day)
    ensures exists d :: d in day && d.dteday == m.dteday && m.cnt_day == d.cnt
    ensures HourPart(m) in hour
  {
    MergeMembership(hour, day);
  }

  /** No two daily rows share a date. */
  predicate UniqueDates(day: seq<DayRecord>)
  {
    Distinct(Dates(day))
  }

  /** An hourly row whose date has no daily row yields no joined row. */
  lemma {:induction false} RowsForNoMatch(h: HourRecord, day: seq<DayRecord>)
    requires forall d :: d in day ==> d.dteday != h.dteday
    ensures RowsFor(h, day) == []
    decreases |day|
  {
    if day != [] {
      RowsForNoMatch(h, day[1..]);
    }
  }

  lemma {:induction false} RowsForUnique(h: HourRecord, day: seq<DayRecord>)
    requires UniqueDates(day)
    ensures |RowsFor(h, day)| <= 1
    ensures |RowsFor(h, day)| == 1 ==> HourPart(RowsFor(h, day)[0]) == h
    decreases |day|
  {
    if day != [] {
      RowsForUnique(h, day[1..]);
      if day[0].dteday == h.dteday {
        forall d | d in day[1..]
          ensures d.dteday != h.dteday
        {
          var j :| 0 <= j < |day[1..]| && day[1..][j] == d;
          assert day[j + 1] == d;
        }
        RowsForNoMatch(h, day[1..]);
      }
    }
  }

  /** With unique daily dates the join never duplicates an hourly row: the
      joined rows, read back as hourly rows, are the hourly table with some
      rows deleted and the others in their original order. */
  lemma {:induction false} MergeUniqueKeepsHourOrder(hour: seq<HourRecord>, day: seq<DayRecord>)
    requires UniqueDates(day)
    ensures IsSubseq(HourParts(Merge(hour, day)), hour)
    ensures |Merge(hour, day)| <= |hour|
    decreases |hour|
  {
    if hour == [] {
    } else {
      var rest := Merge(hour[1..], day);
      var own := RowsFor(hour[0], day);
      MergeUniqueKeepsHourOrder(hour[1..], day);
      RowsForUnique(hour[0], day);
      assert Merge(hour, day) == own + rest;
      if own == [] {
        assert HourParts(Merge(hour, day)) == HourParts(rest);
        assert IsSubseq(HourParts(rest), hour);
      } else {
        var hp := HourParts(own + rest);
        assert hp[0] == hour[0];
        assert hp[1..] == HourParts(rest);
      }
      SubseqMultiset(HourParts(Merge(hour, day)), hour);
    }
  }
}
