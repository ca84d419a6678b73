/** The tables of the bike-sharing dataset. Field names are the dataset's
    column names; integer columns are `int`, the normalised weather columns
    are exact `real`s. */
module Records {

  /** The `dteday` column: an opaque key that is only compared for equality. */
  type Date = string

  /** One row of the hourly table (`hour.csv`). */
  datatype HourRecord = HourRecord(
    instant: int, dteday: Date, season: int, yr: int, mnth: int, hr: int,
    holiday: int, weekday: int, workingday: int, weathersit: int,
    temp: real, atemp: real, hum: real, windspeed: real,
    casual: int, registered: int, cnt: int)

  /** The two columns of the daily table (`day.csv`) that take part in the
      join: its date and its daily total. */
  datatype DayRecord = DayRecord(dteday: Date, cnt: int)

  /** A row of the joined table: the hourly row, with its count renamed to
      `cnt_hour`, followed by the daily total of the same date as `cnt_day`. */
  datatype MergedRecord = MergedRecord(
    instant: int, dteday: Date, season: int, yr: int, mnth: int, hr: int,
    holiday: int, weekday: int, workingday: int, weathersit: int,
    temp: real, atemp: real, hum: real, windspeed: real,
    casual: int, registered: int, cnt_hour: int, cnt_day: int)

  /** The numeric columns of the joined table (every column but `dteday`). */
  datatype Column =
    | Instant | Season | Yr | Mnth | Hr | Holiday | Weekday | Workingday
    | Weathersit | Temp | Atemp | Hum | Windspeed | Casual | Registered
    | CntHour | CntDay

  /** The numeric columns in the order they stand in the joined table:
      the hourly columns, then the daily count appended by the join. */
  const NumericColumns: seq<Column> :=
    [Instant, Season, Yr, Mnth, Hr, Holiday, Weekday, Workingday, Weathersit,
     Temp, Atemp, Hum, Windspeed, Casual, Registered, CntHour, CntDay]

  /** `select_dtypes(include=[np.number])` on the joined table lists every
      numeric column exactly once. */
  lemma NumericColumnsComplete()
    ensures forall c: Column :: c in NumericColumns
    ensures forall i, j :: 0 <= i < j < |NumericColumns| ==> NumericColumns[i] != NumericColumns[j]
  {
    forall c: Column
      ensures c in NumericColumns
    {
      ColumnListed(c);
    }
  }

  lemma ColumnListed(c: Column)
    ensures c in NumericColumns
  {
    match c
    case Instant => assert NumericColumns[0] == c;
    case Season => assert NumericColumns[1] == c;
    case Yr => assert NumericColumns[2] == c;
    case Mnth => assert NumericColumns[3] == c;
    case Hr => assert NumericColumns[4] == c;
    case Holiday => assert NumericColumns[5] == c;
    case Weekday => assert NumericColumns[6] == c;
    case Workingday => assert NumericColumns[7] == c;
    case Weathersit => assert NumericColumns[8] == c;
    case Temp => assert NumericColumns[9] == c;
    case Atemp => assert NumericColumns[10] == c;
    case Hum => assert NumericColumns[11] == c;
    case Windspeed => assert NumericColumns[12] == c;
    case Casual => assert NumericColumns[13] == c;
    case Registered => assert NumericColumns[14] == c;
    case CntHour => assert NumericColumns[15] == c;
    case CntDay => assert NumericColumns[16] == c;
  }

  /** The value of a numeric column, as a number. */
  function Value(r: MergedRecord, c: Column): real
  {
    match c
    case Instant => r.instant as real
    case Season => r.season as real
    case Yr => r.yr as real
    case Mnth => r.mnth as real
    case Hr => r.hr as real
    case Holiday => r.holiday as real
    case Weekday => r.weekday as real
    case Workingday => r.workingday as real
    case Weathersit => r.weathersit as real
    case Temp => r.temp
    case Atemp => r.atemp
    case Hum => r.hum
    case Windspeed => r.windspeed
    case Casual => r.casual as real
    case Registered => r.registered as real
    case CntHour => r.cnt_hour as real
    case CntDay => r.cnt_day as real
  }
}
