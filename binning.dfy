/** Turning codes and measurements into labels: the season and weather
    code maps (dashboard/dashboard.py:64-73) and the temperature bins of
    `pd.cut` (dashboard/dashboard.py:84). */
module Binning {
  import opened Common

  /** `pd.cut(x, bins, labels)` with its defaults `right=True` and
      `include_lowest=False`: bin i is the half-open interval
      (bins[i], bins[i + 1]], and a value outside (bins[0], bins[last]]
      gets no label (NaN). */
  function Cut<L(==)>(bins: seq<real>, labels: seq<L>, x: real): (r: Option<L>)
    requires |bins| == |labels| + 1
    requires forall i, j :: 0 <= i < j < |bins| ==> bins[i] < bins[j]
    ensures r.Some? <==> bins[0] < x <= bins[|bins| - 1]
    ensures forall i :: 0 <= i < |labels| && bins[i] < x <= bins[i + 1] ==> r == Some(labels[i])
    decreases |labels|
  {
    if labels == [] then None
    else if bins[0] < x <= bins[1] then Some(labels[0])
    else Cut(bins[1..], labels[1..], x)
  }

  /** The labels of the temperature bins, coldest first. */
  datatype TempCategory = VeryCold | Cold | Warm | Hot
  {
    function Name(): string
    {
      match this
      case VeryCold => "Very Cold"
      case Cold => "Cold"
      case Warm => "Warm"
      case Hot => "Hot"
    }

    function Rank(): nat
    {
      match this
      case VeryCold => 0
      case Cold => 1
      case Warm => 2
      case Hot => 3
    }
  }

  /** The bin edges for the normalised temperature. */
  const TempBins: seq<real> := [0.0, 0.25, 0.5, 0.75, 1.0]

  const TempCategories: seq<TempCategory> := [VeryCold, Cold, Warm, Hot]

  /** The `temp_category` of a row. Each bin is closed on the right, and
      neither 0 nor anything above 1 gets a category. */
  function TempCategoryOf(temp: real): (c: Option<TempCategory>)
    ensures c == Some(VeryCold) <==> 0.0 < temp <= 0.25
    ensures c == Some(Cold) <==> 0.25 < temp <= 0.5
    ensures c == Some(Warm) <==> 0.5 < temp <= 0.75
    ensures c == Some(Hot) <==> 0.75 < temp <= 1.0
    ensures c == None <==> temp <= 0.0 || 1.0 < temp
  {
    var r := Cut(TempBins, TempCategories, temp);
    assert TempBins[1] == 0.25 && TempBins[2] == 0.5 && TempBins[3] == 0.75;
    r
  }

  /** A warmer temperature never falls in a colder bin. */
  lemma TempCategoryMonotone(t1: real, t2: real)
    requires t1 <= t2
    requires TempCategoryOf(t1).Some? && TempCategoryOf(t2).Some?
    ensures TempCategoryOf(t1).value.Rank() <= TempCategoryOf(t2).value.Rank()
  {
    var c1, c2 := TempCategoryOf(t1).value, TempCategoryOf(t2).value;
    assert TempCategoryOf(t1) == Some(c1) && TempCategoryOf(t2) == Some(c2);
  }

  /** `Series.map(mapping)`: a code the mapping lacks becomes missing. */
  function MapCode(mapping: map<int, string>, code: int): (name: Option<string>)
    ensures name.Some? <==> code in mapping
    ensures name.Some? ==> name.value == mapping[code]
  {
    if code in mapping then Some(mapping[code]) else None
  }

  const SeasonMapping: map<int, string> :=
    map[1 := "Spring", 2 := "Summer", 3 := "Fall", 4 := "Winter"]

  const WeatherMapping: map<int, string> :=
    map[1 := "Clear/Partly Cloudy", 2 := "Mist/Cloudy", 3 := "Light Snow/Rain"]

  /** The season name of a code: codes 1 to 4 have one, every other code
      becomes missing. */
  function SeasonName(code: int): (name: Option<string>)
    ensures name.Some? <==> 1 <= code <= 4
    ensures name == Some("Spring") <==> code == 1
    ensures name == Some("Summer") <==> code == 2
    ensures name == Some("Fall") <==> code == 3
    ensures name == Some("Winter") <==> code == 4
  {
    MapCode(SeasonMapping, code)
  }

  /** The weather name of a code: codes 1 to 3 have one, every other code
      (the dataset's 4, heavy rain, among them) becomes missing. */
  function WeatherName(code: int): (name: Option<string>)
    ensures name.Some? <==> 1 <= code <= 3
    ensures name == Some("Clear/Partly Cloudy") <==> code == 1
    ensures name == Some("Mist/Cloudy") <==> code == 2
    ensures name == Some("Light Snow/Rain") <==> code == 3
  {
    MapCode(WeatherMapping, code)
  }

  /** Two codes with the same season name are the same code. */
  lemma SeasonNameInjective(a: int, b: int)
    requires SeasonName(a).Some? && SeasonName(a) == SeasonName(b)
    ensures a == b
  {
  }

  /** Two codes with the same weather name are the same code. */
  lemma WeatherNameInjective(a: int, b: int)
    requires WeatherName(a).Some? && WeatherName(a) == WeatherName(b)
    ensures a == b
  {
  }
}
