/**
 * The formatting half of daily_update_sunset.py: `format_data_for_influxdb`
 * and the guard of `write_to_influxdb`.  The HKO sunrise/sunset response is
 * a decoded JSON value; the store write is an injected boolean outcome.
 * Every exception the formatter can meet (a `len` of a number, `row[0]` on
 * an object, an unhashable field name) is caught there and answers `None`.
 */
module SunTimes {
  import opened Wrappers
  import opened Calendar
  import opened Json

  const Measurement := "sensor_data"

  /** One point as the InfluxDB client takes it. */
  datatype Point = Point(measurement: string, time: string, tags: map<string, string>, fields: map<string, Json>)

  // ---- row search ----

  /** What the test `row and len(row) > 0 and row[0] == requested_date_str` does with one row. */
  datatype Verdict = Skip | Match | Raise

  /**
   * The verdict on one row.  Falsy rows are skipped; a list matches when its
   * first cell is the requested date.  A non-empty string row could only match
   * a one-character date, which never parses later, so it is skipped.  `len`
   * of a number or boolean and `row[0]` on an object (whose keys are strings) raise.
   */
  function RowVerdict(row: Json, date: string): (v: Verdict)
    ensures v.Match? <==> row.JArr? && |row.items| > 0 && row.items[0] == JStr(date)
    ensures !Truthy(row) ==> v.Skip?
  {
    if !Truthy(row) then Skip
    else match row
      case JArr(items) => if items[0] == JStr(date) then Match else Skip
      case JStr(_) => Skip
      case _ => Raise
  }

  datatype Search = Found(index: nat) | NotFound | Raised(at: nat)

  /** The `for row in data` search with `break`, from position `i` on. */
  function SearchRows(rows: seq<Json>, date: string, i: nat): (r: Search)
    requires i <= |rows|
    ensures r.Found? ==> i <= r.index < |rows| && RowVerdict(rows[r.index], date).Match?
    ensures r.Raised? ==> i <= r.at < |rows| && RowVerdict(rows[r.at], date).Raise?
    ensures r.Found? ==> forall j :: i <= j < r.index ==> RowVerdict(rows[j], date).Skip?
    ensures r.Raised? ==> forall j :: i <= j < r.at ==> RowVerdict(rows[j], date).Skip?
    ensures r.NotFound? <==> forall j :: i <= j < |rows| ==> RowVerdict(rows[j], date).Skip?
    decreases |rows| - i
  {
    if i == |rows| then NotFound
    else match RowVerdict(rows[i], date)
      case Match => Found(i)
      case Raise => Raised(i)
      case Skip => SearchRows(rows, date, i + 1)
  }

  /** The search stops at the first row that is not skipped, whatever lies after it. */
  lemma SearchStopsAtFirstDecidedRow(rows: seq<Json>, date: string, k: nat)
    requires k < |rows| && !RowVerdict(rows[k], date).Skip?
    requires forall j :: 0 <= j < k ==> RowVerdict(rows[j], date).Skip?
    ensures SearchRows(rows, date, 0) == if RowVerdict(rows[k], date).Match? then Found(k) else Raised(k)
  {
    var r := SearchRows(rows, date, 0);
    if r.Found? {
      assert r.index == k;
    } else if r.Raised? {
      assert r.at == k;
    }
  }

  // ---- dict(zip(field_names, data_row)) ----

  /** A JSON value Python can use as a dictionary key. */
  predicate Hashable(j: Json) {
    !j.JArr? && !j.JObj?
  }

  /**
   * The string-keyed entries of `dict(zip(names, cells))` for lists of equal
   * length, pair by pair from the left: a later name overrides an earlier one
   * and an unhashable name raises.  Entries under non-string names are
   * dropped, since only string keys are looked up afterwards.
   */
  function ZipPairs(names: seq<Json>, cells: seq<Json>): Option<map<string, Json>>
    requires |names| == |cells|
    decreases |names|
  {
    if |names| == 0 then Some(map[])
    else
      var n := |names| - 1;
      match ZipPairs(names[..n], cells[..n])
      case None => None
      case Some(d) =>
        if !Hashable(names[n]) then None
        else if names[n].JStr? then Some(d[names[n].s := cells[n]])
        else Some(d)
  }

  /** The pairing raises exactly when some paired name is unhashable. */
  lemma {:induction false} ZipPairsRaises(names: seq<Json>, cells: seq<Json>)
    requires |names| == |cells|
    ensures ZipPairs(names, cells).None? <==> exists i :: 0 <= i < |names| && !Hashable(names[i])
    decreases |names|
  {
    if |names| > 0 {
      var n := |names| - 1;
      ZipPairsRaises(names[..n], cells[..n]);
      if exists i :: 0 <= i < n && !Hashable(names[..n][i]) {
        var i :| 0 <= i < n && !Hashable(names[..n][i]);
        assert !Hashable(names[i]);
      }
      if exists i :: 0 <= i < |names| && !Hashable(names[i]) {
        var i :| 0 <= i < |names| && !Hashable(names[i]);
        if i < n {
          assert !Hashable(names[..n][i]);
        }
      }
    }
  }

  /** The keys are the string names paired. */
  lemma {:induction false} ZipPairsKeys(names: seq<Json>, cells: seq<Json>)
    requires |names| == |cells| && ZipPairs(names, cells).Some?
    ensures forall s :: s in ZipPairs(names, cells).value <==> JStr(s) in names
    decreases |names|
  {
    if |names| > 0 {
      var n := |names| - 1;
      assert names == names[..n] + [names[n]];
      ZipPairsKeys(names[..n], cells[..n]);
    }
  }

  /** Each key holds the cell paired with its last occurrence. */
  lemma {:induction false} ZipPairsLastWins(names: seq<Json>, cells: seq<Json>, i: nat)
    requires |names| == |cells| && ZipPairs(names, cells).Some?
    requires i < |names| && names[i].JStr? && names[i] !in names[i + 1..]
    ensures names[i].s in ZipPairs(names, cells).value
    ensures ZipPairs(names, cells).value[names[i].s] == cells[i]
    decreases |names|
  {
    var n := |names| - 1;
    if i < n {
      assert names[i + 1..] == names[..n][i + 1..] + [names[n]];
      ZipPairsLastWins(names[..n], cells[..n], i);
    }
  }

  /**
   * The keys are the string names paired, and each maps to the cell paired
   * with its last occurrence.
   */
  lemma ZipPairsEntries(names: seq<Json>, cells: seq<Json>)
    requires |names| == |cells| && ZipPairs(names, cells).Some?
    ensures forall s :: s in ZipPairs(names, cells).value <==> JStr(s) in names
    ensures forall i :: 0 <= i < |names| && names[i].JStr? && names[i] !in names[i + 1..] ==>
      ZipPairs(names, cells).value[names[i].s] == cells[i]
  {
    ZipPairsKeys(names, cells);
    forall i | 0 <= i < |names| && names[i].JStr? && names[i] !in names[i + 1..]
      ensures ZipPairs(names, cells).value[names[i].s] == cells[i]
    {
      ZipPairsLastWins(names, cells, i);
    }
  }

  /** How many pairs `zip` forms: the length of the shorter list. */
  function Paired(names: seq<Json>, cells: seq<Json>): (n: nat)
    ensures n <= |names| && n <= |cells| && (n == |names| || n == |cells|)
  {
    if |names| < |cells| then |names| else |cells|
  }

  /**
   * The string-keyed entries of `dict(zip(names, cells))`: pairs are taken
   * position by position up to the shorter list (surplus names or cells are
   * dropped), and an unhashable name among the paired ones raises.
   */
  function ZipToDict(names: seq<Json>, cells: seq<Json>): (r: Option<map<string, Json>>)
    ensures r.None? <==> exists i :: 0 <= i < Paired(names, cells) && !Hashable(names[i])
  {
    var n := Paired(names, cells);
    ZipPairsRaises(names[..n], cells[..n]);
    assert forall i :: 0 <= i < n ==> names[..n][i] == names[i];
    ZipPairs(names[..n], cells[..n])
  }

  /**
   * The dictionary's keys are the paired string names, and each key holds
   * the cell paired with its last occurrence among the paired names.
   */
  lemma ZipToDictEntries(names: seq<Json>, cells: seq<Json>)
    requires ZipToDict(names, cells).Some?
    ensures var n := Paired(names, cells);
      forall s :: s in ZipToDict(names, cells).value <==> JStr(s) in names[..n]
    ensures var n := Paired(names, cells);
      forall i :: 0 <= i < n && names[i].JStr? && names[i] !in names[i + 1..n] ==>
        ZipToDict(names, cells).value[names[i].s] == cells[i]
  {
    var n := Paired(names, cells);
    var ns, cs := names[..n], cells[..n];
    ZipPairsEntries(ns, cs);
    var d := ZipPairs(ns, cs).value;
    assert ZipToDict(names, cells).value == d;
    forall i | 0 <= i < n && names[i].JStr? && names[i] !in names[i + 1..n]
      ensures d[names[i].s] == cells[i]
    {
      assert ns[i] == names[i] && cs[i] == cells[i];
      assert ns[i + 1..] == names[i + 1..n];
    }
  }

  /** `.get(key)` followed by the truthiness test of `all([...])`. */
  predicate Present(d: map<string, Json>, key: string) {
    key in d && Truthy(d[key])
  }

  /** `datetime.combine(date, time(0, 0), tzinfo=timezone.utc).isoformat()` */
  function MidnightUtc(d: Date): (s: string)
    requires PythonDate(d)
    ensures |s| == 25 && s[..10] == FormatDate(d)
  {
    FormatDate(d) + "T00:00:00+00:00"
  }

  /** The one point built from the three extracted values. */
  function SunPoint(date: string, day: Date, rise: Json, transit: Json, sunset: Json): Point
    requires PythonDate(day)
  {
    Point(Measurement, MidnightUtc(day),
          map["source" := "weather.gov.hk", "data_type" := "sun_rise_set", "requested_date" := date],
          map["sunrise" := rise, "solar_transit" := transit, "sunset" := sunset])
  }

  /** The `api_data['data']` value is usable as the list of rows. */
  predicate HasRows(apiData: Json) {
    && apiData.JObj? && "fields" in apiData.fields && "data" in apiData.fields
    && Truthy(apiData.fields["data"]) && apiData.fields["data"].JArr?
  }

  /** `format_data_for_influxdb(api_data, requested_date_str)` */
  function FormatSpec(apiData: Json, date: string): Option<seq<Point>> {
    if !HasRows(apiData) then None
    else
      match SearchRows(apiData.fields["data"].items, date, 0)
      case NotFound => None
      case Raised(_) => None
      case Found(i) =>
        var row := apiData.fields["data"].items[i].items;
        var names := apiData.fields["fields"];
        if !names.JArr? then None
        else
          match ZipToDict(names.items, row)
          case None => None
          case Some(d) =>
            if !(Present(d, "RISE") && Present(d, "TRAN.") && Present(d, "SET")) then None
            else
              match ParseDate(date)
              case None => None
              case Some(day) => Some([SunPoint(date, day, d["RISE"], d["TRAN."], d["SET"])])
  }

  /** `format_data_for_influxdb`, with its search loop and `break`. */
  method FormatDataForInfluxdb(apiData: Json, date: string) returns (points: Option<seq<Point>>)
    ensures points == FormatSpec(apiData, date)
  {
    if !apiData.JObj? {
      return None;
    }
    if "fields" !in apiData.fields || "data" !in apiData.fields {
      return None;
    }
    if !Truthy(apiData.fields["data"]) {
      return None;
    }
    var data := apiData.fields["data"];
    if !data.JArr? {
      // a truthy number or boolean is not iterable; a string or an object yields string rows
      return None;
    }
    var fieldNames := apiData.fields["fields"];
    var found: Option<nat> := None;
    var i := 0;
    while i < |data.items|
      invariant 0 <= i <= |data.items|
      invariant forall j :: 0 <= j < i ==> RowVerdict(data.items[j], date).Skip?
      invariant SearchRows(data.items, date, 0) == SearchRows(data.items, date, i)
    {
      var verdict := RowVerdict(data.items[i], date);
      if verdict.Raise? {
        return None;
      }
      if verdict.Match? {
        found := Some(i);
        break;
      }
      i := i + 1;
    }
    if found.None? {
      return None;
    }
    var row := data.items[found.value].items;
    if !fieldNames.JArr? {
      return None;
    }
    var raw := ZipToDict(fieldNames.items, row);
    if raw.None? {
      return None;
    }
    var d := raw.value;
    if !(Present(d, "RISE") && Present(d, "TRAN.") && Present(d, "SET")) {
      return None;
    }
    var day := ParseDate(date);
    if day.None? {
      return None;
    }
    points := Some([SunPoint(date, day.value, d["RISE"], d["TRAN."], d["SET"])]);
  }

  /** A response that is not an object, lacks `fields` or `data`, or has an empty `data`, gives no point. */
  lemma FormatRejectsMalformed(apiData: Json, date: string)
    requires || !apiData.JObj?
             || "fields" !in apiData.fields || "data" !in apiData.fields
             || apiData.fields["data"] == JArr([])
    ensures FormatSpec(apiData, date).None?
  {
  }

  /** When no row has the requested date in its first cell, there is no point. */
  lemma NoMatchingRow(apiData: Json, date: string)
    requires HasRows(apiData)
    requires forall j :: 0 <= j < |apiData.fields["data"].items| ==>
      !RowVerdict(apiData.fields["data"].items[j], date).Match?
    ensures FormatSpec(apiData, date).None?
  {
  }

  /**
   * A result is exactly one point for the first matching row: the measurement
   * and tags are fixed, the fields are the row's `RISE`, `TRAN.` and `SET`
   * cells (all truthy), and the time is midnight UTC of the requested date,
   * written as the date itself followed by `T00:00:00+00:00`.
   */
  lemma FormatResult(apiData: Json, date: string)
    requires FormatSpec(apiData, date).Some?
    ensures HasRows(apiData) && apiData.fields["fields"].JArr?
    ensures var rows := apiData.fields["data"].items;
      && SearchRows(rows, date, 0).Found?
      && var i := SearchRows(rows, date, 0).index;
      && (forall j :: 0 <= j < i ==> !RowVerdict(rows[j], date).Match?)
      && rows[i].JArr? && rows[i].items[0] == JStr(date)
      && ZipToDict(apiData.fields["fields"].items, rows[i].items).Some?
    ensures var rows := apiData.fields["data"].items;
      var d := ZipToDict(apiData.fields["fields"].items, rows[SearchRows(rows, date, 0).index].items).value;
      var points := FormatSpec(apiData, date).value;
      && |points| == 1
      && points[0].measurement == "sensor_data"
      && points[0].tags == map["source" := "weather.gov.hk", "data_type" := "sun_rise_set", "requested_date" := date]
      && points[0].fields == map["sunrise" := d["RISE"], "solar_transit" := d["TRAN."], "sunset" := d["SET"]]
      && Truthy(d["RISE"]) && Truthy(d["TRAN."]) && Truthy(d["SET"])
    ensures ParseDate(date).Some? && FormatSpec(apiData, date).value[0].time == date + "T00:00:00+00:00"
  {
    var rows := apiData.fields["data"].items;
    var i := SearchRows(rows, date, 0).index;
    var d := ZipToDict(apiData.fields["fields"].items, rows[i].items).value;
    var day := ParseDate(date).value;
    assert FormatSpec(apiData, date) == Some([SunPoint(date, day, d["RISE"], d["TRAN."], d["SET"])]);
    ParseDateRoundTrip(date);
  }

  /** A missing or empty `RISE`, `TRAN.` or `SET` in the matched row gives no point. */
  lemma MissingSunTimeRejected(apiData: Json, date: string, key: string)
    requires HasRows(apiData) && apiData.fields["fields"].JArr?
    requires SearchRows(apiData.fields["data"].items, date, 0).Found?
    requires key in {"RISE", "TRAN.", "SET"}
    requires var rows := apiData.fields["data"].items;
      var d := ZipToDict(apiData.fields["fields"].items, rows[SearchRows(rows, date, 0).index].items);
      d.Some? && (key !in d.value || d.value[key] == JStr(""))
    ensures FormatSpec(apiData, date).None?
  {
  }

  // ---- a response in the shape the HKO sunrise/sunset service sends ----

  const SampleNames: seq<Json> := [JStr("YYYY-MM-DD"), JStr("RISE"), JStr("TRAN."), JStr("SET")]
  const SampleRows: seq<Json> := [
    JArr([JStr("2024-02-29"), JStr("06:40"), JStr("12:25"), JStr("18:11")]),
    JArr([JStr("2024-03-01"), JStr("06:39"), JStr("12:25"), JStr("18:12")])]
  const SampleResponse: Json := JObj(map["fields" := JArr(SampleNames), "data" := JArr(SampleRows)])

  lemma SampleRowFound()
    ensures SearchRows(SampleRows, "2024-03-01", 0) == Found(1)
  {
    assert SampleRows[0].items[0] != JStr("2024-03-01") by {
      assert SampleRows[0].items[0].s[9] != '1';
    }
    SearchStopsAtFirstDecidedRow(SampleRows, "2024-03-01", 1);
  }

  lemma SampleZip()
    ensures ZipToDict(SampleNames, SampleRows[1].items) ==
      Some(map["YYYY-MM-DD" := JStr("2024-03-01"), "RISE" := JStr("06:39"), "TRAN." := JStr("12:25"), "SET" := JStr("18:12")])
  {
    var names, cells := SampleNames, SampleRows[1].items;
    assert names[..4] == names && cells[..4] == cells;
    assert names[..3][..2] == names[..2] && names[..2][..1] == names[..1] && names[..1][..0] == [];
    assert cells[..3][..2] == cells[..2] && cells[..2][..1] == cells[..1] && cells[..1][..0] == [];
    assert ZipPairs(names[..1], cells[..1]) == Some(map["YYYY-MM-DD" := cells[0]]);
    assert ZipPairs(names[..2], cells[..2]) == Some(map["YYYY-MM-DD" := cells[0], "RISE" := cells[1]]);
    assert ZipPairs(names[..3], cells[..3]) ==
      Some(map["YYYY-MM-DD" := cells[0], "RISE" := cells[1], "TRAN." := cells[2]]);
  }

  lemma SampleDate()
    ensures ParseDate("2024-03-01") == Some(Date(2024, 3, 1))
    ensures MidnightUtc(Date(2024, 3, 1)) == "2024-03-01T00:00:00+00:00"
  {
    assert FormatDate(Date(2024, 3, 1)) == "2024-03-01";
    FormatDateRoundTrip(Date(2024, 3, 1));
  }

  /** The row for the requested date is found after a row for another date. */
  lemma SampleResponseFormatted()
    ensures FormatSpec(SampleResponse, "2024-03-01")
      == Some([Point("sensor_data", "2024-03-01T00:00:00+00:00",
                 map["source" := "weather.gov.hk", "data_type" := "sun_rise_set", "requested_date" := "2024-03-01"],
                 map["sunrise" := JStr("06:39"), "solar_transit" := JStr("12:25"), "sunset" := JStr("18:12")])])
  {
    SampleRowFound();
    SampleZip();
    SampleDate();
    assert HasRows(SampleResponse);
  }

  /** Asking for a date the response does not list gives no point. */
  lemma SampleResponseOtherDate()
    ensures FormatSpec(SampleResponse, "2024-03-02").None?
  {
    assert SampleRows[0].items[0] != JStr("2024-03-02") by {
      assert SampleRows[0].items[0].s[9] != '2';
    }
    assert SampleRows[1].items[0] != JStr("2024-03-02") by {
      assert SampleRows[1].items[0].s[9] != '2';
    }
    NoMatchingRow(SampleResponse, "2024-03-02");
  }

  // ---- write_to_influxdb ----

  datatype WriteAttempt = NoPoints | Attempted(success: bool)

  /** `write_to_influxdb(points)`: an empty or missing list is refused before any connection. */
  function WriteToInfluxdb(points: Option<seq<Point>>, store: seq<Point> -> bool): (w: WriteAttempt)
    ensures w.NoPoints? <==> points.None? || |points.value| == 0
    ensures w.Attempted? ==> w.success == store(points.value)
  {
    if points.None? || |points.value| == 0 then NoPoints else Attempted(store(points.value))
  }

  /** Whether `write_to_influxdb` answered True. */
  predicate Written(w: WriteAttempt) {
    w.Attempted? && w.success
  }
}
