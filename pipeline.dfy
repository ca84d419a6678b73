/** The dashboard script's data state: `merged_df` built once per run
    (dashboard/dashboard.py:13, 33), the label columns the pages add to it
    in place (dashboard/dashboard.py:65, 73, 84, 268), and the tables those
    pages compute from it. */
module Pipeline {
  import opened Common
  import opened Records
  import opened Join
  import opened Outliers
  import opened Binning
  import opened Aggregate
  import opened Dayparts

  /** A label column next to the `cnt_hour` column, as `groupby` sees them. */
  function Zip<K>(keys: seq<Option<K>>, counts: seq<real>): (es: seq<Entry<K>>)
    requires |keys| == |counts|
    ensures |es| == |keys|
    ensures forall i :: 0 <= i < |es| ==> es[i].key == keys[i] && es[i].value == counts[i]
  {
    seq(|keys|, i requires 0 <= i < |keys| => Entry(keys[i], counts[i]))
  }

  /** An integer column used as a key: never missing. */
  function Present<K>(codes: seq<K>): (keys: seq<Option<K>>)
    ensures |keys| == |codes|
    ensures forall i :: 0 <= i < |codes| ==> keys[i] == Some(codes[i])
  {
    seq(|codes|, i requires 0 <= i < |codes| => Some(codes[i]))
  }

  /** `Series.map(mapping)` on a column of codes. */
  function Relabel(codes: seq<int>, name: int -> Option<string>): (labels: seq<Option<string>>)
    ensures |labels| == |codes|
    ensures forall i :: 0 <= i < |codes| ==> labels[i] == name(codes[i])
  {
    seq(|codes|, i requires 0 <= i < |codes| => name(codes[i]))
  }

  /** Grouping by the names a one-to-one map gives the codes is grouping by
      the codes: the rows named `name(code)` are the rows holding `code`. */
  lemma {:induction false} GroupByNameIsGroupByCode(codes: seq<int>, counts: seq<real>,
                                                    name: int -> Option<string>, code: int)
    requires |codes| == |counts|
    requires name(code).Some?
    requires forall c :: name(c) == name(code) ==> c == code
    ensures Group(Zip(Relabel(codes, name), counts), name(code).value) ==
            Group(Zip(Present(codes), counts), code)
    decreases |codes|
  {
    if codes != [] {
      GroupByNameIsGroupByCode(codes[1..], counts[1..], name, code);
      assert Zip(Relabel(codes, name), counts)[1..] == Zip(Relabel(codes[1..], name), counts[1..]);
      assert Zip(Present(codes), counts)[1..] == Zip(Present(codes[1..]), counts[1..]);
    }
  }

  function SeasonCodes(rows: seq<MergedRecord>): (codes: seq<int>)
    ensures |codes| == |rows|
    ensures forall i :: 0 <= i < |rows| ==> codes[i] == rows[i].season
  {
    seq(|rows|, i requires 0 <= i < |rows| => rows[i].season)
  }

  function WeatherCodes(rows: seq<MergedRecord>): (codes: seq<int>)
    ensures |codes| == |rows|
    ensures forall i :: 0 <= i < |rows| ==> codes[i] == rows[i].weathersit
  {
    seq(|rows|, i requires 0 <= i < |rows| => rows[i].weathersit)
  }

  function WorkingDayCodes(rows: seq<MergedRecord>): (codes: seq<int>)
    ensures |codes| == |rows|
    ensures forall i :: 0 <= i < |rows| ==> codes[i] == rows[i].workingday
  {
    seq(|rows|, i requires 0 <= i < |rows| => rows[i].workingday)
  }

  /** The `temp_category` column. */
  function TempCategoryColumn(rows: seq<MergedRecord>): (cats: seq<Option<TempCategory>>)
    ensures |cats| == |rows|
    ensures forall i :: 0 <= i < |rows| ==> cats[i] == TempCategoryOf(rows[i].temp)
  {
    seq(|rows|, i requires 0 <= i < |rows| => TempCategoryOf(rows[i].temp))
  }

  /** The `daypart` column: `hr.apply(categorize_time)`. */
  function DaypartColumn(rows: seq<MergedRecord>): (parts: seq<Daypart>)
    ensures |parts| == |rows|
    ensures forall i :: 0 <= i < |rows| ==> parts[i] == CategorizeTime(rows[i].hr)
  {
    seq(|rows|, i requires 0 <= i < |rows| => CategorizeTime(rows[i].hr))
  }

  /** The orders `groupby` gives the season and weather names: sorted as strings. */
  const SeasonGroupOrder: seq<string> := ["Fall", "Spring", "Summer", "Winter"]
  const WeatherGroupOrder: seq<string> := ["Clear/Partly Cloudy", "Light Snow/Rain", "Mist/Cloudy"]

  /** Each season's average is the mean count of the rows holding its code. */
  lemma SeasonAverageByCode(rows: seq<MergedRecord>, code: int)
    requires 1 <= code <= 4
    ensures Group(Zip(Relabel(SeasonCodes(rows), SeasonName), ColumnValues(rows, CntHour)), SeasonName(code).value) ==
            Group(Zip(Present(SeasonCodes(rows)), ColumnValues(rows, CntHour)), code)
  {
    forall c | SeasonName(c) == SeasonName(code)
      ensures c == code
    {
      SeasonNameInjective(code, c);
    }
    GroupByNameIsGroupByCode(SeasonCodes(rows), ColumnValues(rows, CntHour), SeasonName, code);
  }

  /** Each weather average is the mean count of the rows holding its code. */
  lemma WeatherAverageByCode(rows: seq<MergedRecord>, code: int)
    requires 1 <= code <= 3
    ensures Group(Zip(Relabel(WeatherCodes(rows), WeatherName), ColumnValues(rows, CntHour)), WeatherName(code).value) ==
            Group(Zip(Present(WeatherCodes(rows)), ColumnValues(rows, CntHour)), code)
  {
    forall c | WeatherName(c) == WeatherName(code)
      ensures c == code
    {
      WeatherNameInjective(code, c);
    }
    GroupByNameIsGroupByCode(WeatherCodes(rows), ColumnValues(rows, CntHour), WeatherName, code);
  }

  /** The script's data: `merged_df`, and the label columns a page adds to it.
      A label column is empty until the page that builds it has run. The
      script filters `merged_df` once, before any page runs; `filtered`
      records whether that has happened. */
  class Dashboard {
    var rows: seq<MergedRecord>
    var season: seq<Option<string>>
    var weathersit: seq<Option<string>>
    var tempCategory: seq<Option<TempCategory>>
    var daypart: seq<Daypart>
    ghost var filtered: bool

    /** Line 13: `merged_df` is the inner join of the two tables, not yet
        filtered, with no label column yet. */
    constructor(hour: seq<HourRecord>, day: seq<DayRecord>)
      ensures rows == Merge(hour, day) && !filtered
      ensures season == [] && weathersit == [] && tempCategory == [] && daypart == []
    {
      rows := Merge(hour, day);
      filtered := false;
      season, weathersit, tempCategory, daypart := [], [], [], [];
    }

    /** Line 33: `merged_df` is replaced, once, by its copy without outliers,
        which keeps some of its rows, unchanged and in order. */
    method DropOutliers()
      requires !filtered
      modifies this`rows, this`filtered
      ensures filtered
      ensures rows == Pass(old(rows), NumericColumns)
      ensures IsSubseq(rows, old(rows))
    {
      var before := rows;
      var clean := RemoveOutliers(before);
      PassSubseq(before, NumericColumns);
      assert IsSubseq(clean, before);
      filtered := true;
      rows := clean;
    }

    /** The "Pertanyaan Satu" page: names the season and weather codes,
        bins the temperature, and averages `cnt_hour` per season, weather
        and temperature category. */
    method QuestionOne() returns (seasonAvg: seq<(string, real)>, weatherAvg: seq<(string, real)>,
                                  tempAvg: seq<(TempCategory, Option<real>)>)
      requires filtered
      modifies this`season, this`weathersit, this`tempCategory
      ensures season == Relabel(SeasonCodes(rows), SeasonName)
      ensures weathersit == Relabel(WeatherCodes(rows), WeatherName)
      ensures tempCategory == TempCategoryColumn(rows)
      ensures seasonAvg == GroupMeans(Zip(season, ColumnValues(rows, CntHour)), SeasonGroupOrder)
      ensures weatherAvg == GroupMeans(Zip(weathersit, ColumnValues(rows, CntHour)), WeatherGroupOrder)
      ensures tempAvg == CategoryMeans(Zip(tempCategory, ColumnValues(rows, CntHour)), TempCategories)
    {
      var counts := ColumnValues(rows, CntHour);
      season := Relabel(SeasonCodes(rows), SeasonName);
      weathersit := Relabel(WeatherCodes(rows), WeatherName);
      seasonAvg := GroupMeans(Zip(season, counts), SeasonGroupOrder);
      weatherAvg := GroupMeans(Zip(weathersit, counts), WeatherGroupOrder);
      tempCategory := TempCategoryColumn(rows);
      tempAvg := CategoryMeans(Zip(tempCategory, counts), TempCategories);
    }

    /** The "Pertanyaan Dua" page: mean `cnt_hour` on working days and on
        other days, and their difference. */
    method QuestionTwo() returns (comparison: WorkingDayComparison)
      requires filtered
      ensures comparison == CompareWorkingDays(Zip(Present(WorkingDayCodes(rows)), ColumnValues(rows, CntHour)))
    {
      comparison := CompareWorkingDays(Zip(Present(WorkingDayCodes(rows)), ColumnValues(rows, CntHour)));
    }

    /** The "Binning" page: adds the `daypart` column and totals `cnt_hour`
        per daypart, ordered Morning, Afternoon, Evening, Night; the totals
        add up to the whole table's. */
    method Binning() returns (totals: seq<(Daypart, real)>)
      requires filtered
      modifies this`daypart
      ensures daypart == DaypartColumn(rows)
      ensures totals == DaypartTotals(Zip(Present(daypart), ColumnValues(rows, CntHour)))
      ensures StrictlyRanked(totals)
      ensures TotalOf(totals) == Sum(ColumnValues(rows, CntHour))
    {
      daypart := DaypartColumn(rows);
      var es := Zip(Present(daypart), ColumnValues(rows, CntHour));
      totals := DaypartTotals(es);
      DaypartTotalsPartition(es);
      assert Values(es) == ColumnValues(rows, CntHour);
    }
  }
}
