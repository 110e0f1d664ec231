/**
 * The sensor reader of backEnd.py: `get_latest_sensor_data`.  The store query
 * is not modelled; its result is the list of points it returned (newest
 * first).  pandas' timestamp parsing and timezone conversion is an injected
 * `parseTime`.  The one-row DataFrame the reader builds and hands on is a
 * `Frame` object whose columns are updated in place.
 */
module SensorReader {
  import opened Wrappers
  import opened Decimal
  import opened Calendar

  /** A cell of the one-row frame; `Null` is NaN / NaT / None. */
  datatype Value = Null | Num(n: int) | Text(s: string) | Stamp(t: Timestamp)

  /** Values as the store returns them: never an already-parsed timestamp. */
  type RawValue = v: Value | !v.Stamp? witness Null

  /** One point of a query result: field name to value. */
  type RawPoint = map<string, RawValue>

  /** What `pd.to_datetime(..., errors='coerce')` made of the raw `time` value. */
  datatype ParsedTime =
    | NotATime                  // coerced to NaT
    | NaiveTime(local: Timestamp) // parsed, but without a UTC offset
    | AwareTime(utc: Timestamp)   // parsed with an offset, as an instant in UTC

  const Features: seq<string> :=
    ["brightness_raw", "humidity", "light_state", "occupancy",
     "temperature", "hour", "dayofweek", "month", "dayofyear"]
  const NumericFeatures: seq<string> :=
    ["brightness_raw", "humidity", "temperature", "hour", "dayofweek", "month", "dayofyear"]
  const CategoricalFeatures: seq<string> := ["light_state", "occupancy"]
  /** The features derived from the timestamp rather than read from the store. */
  const CalendarFeatures: seq<string> := ["hour", "dayofweek", "month", "dayofyear"]

  /** The columns the reader coerces to numbers: the numeric features that are not calendar fields. */
  predicate IsCoerced(name: string) {
    name in NumericFeatures && name !in CalendarFeatures
  }

  lemma CoercedColumns()
    ensures forall k :: IsCoerced(k) <==> k in ["brightness_raw", "humidity", "temperature"]
  {
  }

  /** Text of an optionally signed decimal integer. */
  function ParseInt(s: string): Option<int> {
    if |s| > 0 && s[0] == '-' then
      match ParseNat(s[1..])
      case Some(n) => Some(-(n as int))
      case None => None
    else if |s| > 0 && s[0] == '+' then
      match ParseNat(s[1..])
      case Some(n) => Some(n)
      case None => None
    else
      match ParseNat(s)
      case Some(n) => Some(n)
      case None => None
  }

  /** `pd.to_numeric(x, errors='coerce')` on one value: numbers stay, numeric text is read, the rest is null. */
  function ToNumeric(v: RawValue): (r: RawValue)
    ensures !r.Text?
    ensures v.Num? ==> r == v
    ensures v.Null? ==> r.Null?
  {
    if v.Num? then v
    else if v.Text? then (match ParseInt(v.s) case Some(n) => Num(n) case None => Null)
    else Null
  }

  /** A one-row pandas DataFrame: column name to cell. */
  class Frame {
    var cells: map<string, Value>

    constructor (cells: map<string, Value>)
      ensures this.cells == cells
    {
      this.cells := cells;
    }

    /** `df[name] = v` */
    method SetColumn(name: string, v: Value)
      modifies this
      ensures cells == old(cells)[name := v]
    {
      cells := cells[name := v];
    }
  }

  /** The row `get_latest_sensor_data` returns for a query result, or `None`. */
  function LatestSample(points: seq<RawPoint>, parseTime: RawValue -> ParsedTime): Option<map<string, Value>> {
    if |points| == 0 then None
    else
      var p := points[0];
      if "time" !in p || p["time"].Null? then None
      else
        match parseTime(p["time"])
        case AwareTime(t) =>
          Some(map k | k in p :: if k == "time" then Stamp(t) else if IsCoerced(k) then ToNumeric(p[k]) else p[k])
        case _ => None
  }

  /** Only the `time` column of a sample holds a timestamp. */
  predicate StampOnlyAtTime(cells: map<string, Value>) {
    forall k :: k in cells && cells[k].Stamp? ==> k == "time"
  }

  /** No sample: no points, a missing or null `time`, or a `time` that does not parse to an instant. */
  lemma LatestSampleNone(points: seq<RawPoint>, parseTime: RawValue -> ParsedTime)
    ensures LatestSample(points, parseTime).None? <==>
      || |points| == 0
      || "time" !in points[0]
      || points[0]["time"].Null?
      || !parseTime(points[0]["time"]).AwareTime?
  {
  }

  /**
   * A sample has the point's columns; `time` is the parsed instant; brightness,
   * humidity and temperature are coerced; every other column, the calendar
   * fields included, is the stored value.
   */
  lemma LatestSampleShape(points: seq<RawPoint>, parseTime: RawValue -> ParsedTime)
    requires LatestSample(points, parseTime).Some?
    ensures var row := LatestSample(points, parseTime).value;
      && row.Keys == points[0].Keys
      && row["time"] == Stamp(parseTime(points[0]["time"]).utc)
      && StampOnlyAtTime(row)
      && (forall k :: k in row && k in CalendarFeatures ==> row[k] == points[0][k])
      && (forall k :: k in row && k in ["brightness_raw", "humidity", "temperature"] ==> row[k] == ToNumeric(points[0][k]))
      && (forall k :: k in row && k != "time" && k !in NumericFeatures ==> row[k] == points[0][k])
  {
    CoercedColumns();
  }

  /** `get_latest_sensor_data(client, measurement)` given the points the query returned. */
  method GetLatestSensorData(points: seq<RawPoint>, parseTime: RawValue -> ParsedTime) returns (frame: Frame?)
    ensures frame == null <==> LatestSample(points, parseTime).None?
    ensures frame != null ==> frame.cells == LatestSample(points, parseTime).value
  {
    if |points| == 0 {
      return null;
    }
    var latest := points[0];
    var df := new Frame(latest);
    if "time" !in df.cells || df.cells["time"].Null? {
      return null;
    }
    var parsed := parseTime(latest["time"]);
    if !parsed.AwareTime? {
      // NaT, or a naive result on which `tz_convert(None)` raises: both answer None
      return null;
    }
    df.SetColumn("time", Stamp(parsed.utc));
    CoerceNumericColumns(df, latest, parsed.utc);
    return df;
  }

  /** The loop over `NUMERIC_FEATURES`: each present column that is not a calendar field goes through `to_numeric`. */
  method CoerceNumericColumns(df: Frame, latest: RawPoint, t: Timestamp)
    requires df.cells.Keys == latest.Keys && "time" in latest && df.cells["time"] == Stamp(t)
    requires forall k :: k in latest && k != "time" ==> df.cells[k] == latest[k]
    modifies df
    ensures df.cells == map k | k in latest :: if k == "time" then Stamp(t) else if IsCoerced(k) then ToNumeric(latest[k]) else latest[k]
  {
    var i := 0;
    while i < |NumericFeatures|
      invariant 0 <= i <= |NumericFeatures|
      invariant df.cells.Keys == latest.Keys
      invariant df.cells["time"] == Stamp(t)
      invariant forall k :: k in latest && k != "time" ==>
        df.cells[k] == if IsCoerced(k) && k in NumericFeatures[..i] then ToNumeric(latest[k]) else latest[k]
    {
      var col := NumericFeatures[i];
      if col in df.cells && col !in CalendarFeatures {
        assert col != "time" && col !in NumericFeatures[..i];
        df.SetColumn(col, ToNumeric(latest[col]));
      }
      i := i + 1;
    }
    assert NumericFeatures[..i] == NumericFeatures;
    forall k | k in latest
      ensures df.cells[k] == if k == "time" then Stamp(t) else if IsCoerced(k) then ToNumeric(latest[k]) else latest[k]
    {
    }
  }
}
