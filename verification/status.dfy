/**
 * The `/status` endpoint of backEnd.py: `get_hko_weather` and `get_status`.
 * The response is the JSON object Flask's `jsonify` sends.  The two clock
 * strings (`%Z` and `%A` formats of the wall clock) are parameters, the HKO
 * request is an injected outcome, and the store is what its client did:
 * a connection fault, a query that raised, or the points it returned.
 */
module StatusAggregator {
  import opened Wrappers
  import opened Calendar
  import opened Json
  import opened SensorReader
  import opened Predictor

  /** What the HKO current-weather request came to. */
  datatype WeatherOutcome =
    | WeatherBody(body: Json)              // the decoded JSON of a 2xx response
    | WeatherRequestError(detail: string)  // a `RequestException`, with its text
    | WeatherUnexpected                    // any other exception

  /** `get_hko_weather()`: the decoded body, or an error object naming the failure. */
  function GetHkoWeather(o: WeatherOutcome): (j: Json)
    ensures o.WeatherBody? ==> j == o.body
    ensures !o.WeatherBody? ==> j.JObj? && j.fields.Keys == {"error"}
    ensures o.WeatherRequestError? ==> j.fields["error"] == JStr("Could not fetch HKO data: " + o.detail)
    ensures o.WeatherUnexpected? ==> j.fields["error"] == JStr("Unexpected error fetching HKO data")
  {
    match o
    case WeatherBody(body) => body
    case WeatherRequestError(detail) => ErrorObject("Could not fetch HKO data: " + detail)
    case WeatherUnexpected => ErrorObject("Unexpected error fetching HKO data")
  }

  /** The store as `get_status` met it. */
  datatype StoreAccess = StoreAccess(
    connectError: Option<string>,          // the client could not be set up: the exception's text
    query: Option<seq<RawPoint>>,          // the points of the latest-row query; `None` when it raised
    parseTime: RawValue -> ParsedTime)

  /** The sample `get_latest_sensor_data` hands back (a query that raised is caught there: no sample). */
  function Sample(store: StoreAccess): Option<map<string, Value>>
    requires store.connectError.None?
  {
    if store.query.None? then None else LatestSample(store.query.value, store.parseTime)
  }

  /** The `except` clause: an error object stands in only when nothing was assigned yet. */
  function RecordFault(sensorData: Option<Json>, message: string): (j: Json)
    ensures sensorData.Some? ==> j == sensorData.value
    ensures sensorData.None? ==> j == ErrorObject("Error processing sensor data: " + message)
  {
    if sensorData.None? then ErrorObject("Error processing sensor data: " + message) else sensorData.value
  }

  /** `'%Y-%m-%d %H:%M:%S'` of a timestamp: 19 characters that read back as the same instant. */
  function TimeText(t: Timestamp): (s: string)
    ensures |s| == 19
    ensures ParseDateTime(s) == Some(FromEpochSeconds(t))
  {
    TimestampYearInRange(t);
    FormatDateTimeRoundTrip(FromEpochSeconds(t));
    FormatDateTime(FromEpochSeconds(t))
  }

  /** The row dictionary after the `time` entry is rewritten: formatted, or a placeholder when absent. */
  function TimedRow(cells: map<string, Value>): (row: map<string, Value>)
    requires StampOnlyAtTime(cells)
    ensures row.Keys == cells.Keys + {"time"}
    ensures forall k :: k in row ==> !row[k].Stamp?
    ensures forall k :: k in cells && k != "time" ==> row[k] == cells[k]
    ensures "time" in cells && cells["time"].Stamp? ==> row["time"] == Text(TimeText(cells["time"].t))
    ensures "time" !in cells ==> row["time"] == Text("Missing Timestamp")
    ensures "time" in cells && !cells["time"].Stamp? ==> row["time"] == cells["time"]
  {
    if "time" in cells && cells["time"].Stamp? then cells["time" := Text(TimeText(cells["time"].t))]
    else if "time" !in cells then cells["time" := Text("Missing Timestamp")]
    else cells
  }

  /** A cell as JSON: NaN becomes null, numbers and text stay. */
  function ToJson(v: Value): (j: Json)
    requires !v.Stamp?
    ensures v.Null? <==> j.JNull?
  {
    if v.Num? then JNum(v.n) else if v.Text? then JStr(v.s) else JNull
  }

  /** `sensorData` for a sample. */
  function SensorJson(cells: map<string, Value>): Json
    requires StampOnlyAtTime(cells)
  {
    var row := TimedRow(cells);
    JObj(map k | k in row :: ToJson(row[k]))
  }

  /** `sensorData` and the two suggestions, in that order. */
  function Section(store: StoreAccess, m: ModelBundle): (Json, string, string) {
    if store.connectError.Some? then (RecordFault(None, store.connectError.value), "N/A", "N/A")
    else
      var sample := Sample(store);
      if sample.None? || sample.value == map[] then (ErrorObject("Could not retrieve sensor data"), "N/A", "N/A")
      else
        var p := Prediction(sample, m);
        LatestSampleShape(store.query.value, store.parseTime);
        (SensorJson(sample.value), if p.0.Some? then p.0.value else "N/A", if p.1.Some? then p.1.value else "N/A")
  }

  /** The object `jsonify` sends. */
  function Response(clockUtc: string, clockLocal: string, sensorData: Json, led: string, curtain: string, weather: Json): Json {
    JObj(map[
      "currentTimeUTC" := JStr(clockUtc),
      "currentTimeLocal" := JStr(clockLocal),
      "sensorData" := sensorData,
      "aiSuggestion" := JObj(map["led" := JStr(led), "curtain" := JStr(curtain)]),
      "hkoWeather" := weather])
  }

  /** The `/status` response for a store, a model bundle and a weather outcome. */
  function Status(clockUtc: string, clockLocal: string, store: StoreAccess, m: ModelBundle, weather: WeatherOutcome): Json {
    var s := Section(store, m);
    Response(clockUtc, clockLocal, s.0, s.1, s.2, GetHkoWeather(weather))
  }

  /** The loop over `sensor_data_dict.items()`: every entry made JSON-ready, NaN as null. */
  method JsonEntries(row: map<string, Value>) returns (out: map<string, Json>)
    requires forall k :: k in row ==> !row[k].Stamp?
    ensures out == map k | k in row :: ToJson(row[k])
  {
    out := map[];
    var pending := row.Keys;
    while pending != {}
      invariant pending <= row.Keys
      invariant out.Keys == row.Keys - pending
      invariant forall k :: k in out ==> out[k] == ToJson(row[k])
      decreases |pending|
    {
      var k :| k in pending;
      out := out[k := ToJson(row[k])];
      pending := pending - {k};
    }
  }

  /** `iloc[0].to_dict()`, the rewrite of its `time` entry and the conversion of every entry. */
  method ToDict(frame: Frame) returns (j: Json)
    requires StampOnlyAtTime(frame.cells)
    ensures j == SensorJson(frame.cells)
  {
    var row := frame.cells;
    if "time" in row && row["time"].Stamp? {
      row := row["time" := Text(TimeText(row["time"].t))];
    } else if "time" !in row {
      row := row["time" := Text("Missing Timestamp")];
    }
    assert row == TimedRow(frame.cells);
    var out := JsonEntries(row);
    j := JObj(out);
  }

  /** `get_status()`. */
  method GetStatus(clockUtc: string, clockLocal: string, store: StoreAccess, m: ModelBundle, weather: WeatherOutcome)
    returns (response: Json)
    ensures response == Status(clockUtc, clockLocal, store, m, weather)
  {
    var sensorData: Option<Json> := None;
    var aiLed := "N/A";
    var aiCurtain := "N/A";
    if store.connectError.Some? {
      sensorData := Some(RecordFault(sensorData, store.connectError.value));
    } else {
      var dict;
      dict, aiLed, aiCurtain := ReadAndPredict(store, m);
      sensorData := Some(dict);
    }
    var hkoData := GetHkoWeather(weather);
    response := Response(clockUtc, clockLocal, sensorData.value, aiLed, aiCurtain, hkoData);
  }

  /** The body of the `try` once the client is set up: read the sample, predict, convert. */
  method ReadAndPredict(store: StoreAccess, m: ModelBundle) returns (sensorData: Json, aiLed: string, aiCurtain: string)
    requires store.connectError.None?
    ensures (sensorData, aiLed, aiCurtain) == Section(store, m)
  {
    aiLed := "N/A";
    aiCurtain := "N/A";
    var latest: Frame? := null;
    if store.query.Some? {
      latest := GetLatestSensorData(store.query.value, store.parseTime);
    }
    if latest == null || latest.cells == map[] {
      sensorData := ErrorObject("Could not retrieve sensor data");
      return;
    }
    var predLed, predCurtain := PredictStates(latest, m);
    if predLed.Some? {
      aiLed := predLed.value;
    }
    if predCurtain.Some? {
      aiCurtain := predCurtain.value;
    }
    LatestSampleShape(store.query.value, store.parseTime);
    sensorData := ToDict(latest);
  }

  /** The response always has the same five keys and the two suggestion keys. */
  lemma StatusShape(clockUtc: string, clockLocal: string, store: StoreAccess, m: ModelBundle, weather: WeatherOutcome)
    ensures var r := Status(clockUtc, clockLocal, store, m, weather);
      && r.JObj?
      && r.fields.Keys == {"currentTimeUTC", "currentTimeLocal", "sensorData", "aiSuggestion", "hkoWeather"}
      && r.fields["aiSuggestion"].JObj?
      && r.fields["aiSuggestion"].fields.Keys == {"led", "curtain"}
      && r.fields["hkoWeather"] == GetHkoWeather(weather)
  {
  }

  /**
   * Each suggestion is its own prediction when that prediction exists and
   * "N/A" otherwise; without a sample both are "N/A".
   */
  lemma SuggestionsFromPrediction(store: StoreAccess, m: ModelBundle)
    ensures var s := Section(store, m);
      if store.connectError.None? && Sample(store).Some? && Sample(store).value != map[] then
        var p := Prediction(Sample(store), m);
        && (s.1 == if p.0.Some? then p.0.value else "N/A")
        && (s.2 == if p.1.Some? then p.1.value else "N/A")
      else s.1 == "N/A" && s.2 == "N/A"
  {
  }

  /** No models, no suggestion: with a slot unset both entries stay "N/A". */
  lemma NoModelsNoSuggestion(store: StoreAccess, m: ModelBundle)
    requires !ModelsLoaded(m)
    ensures Section(store, m).1 == "N/A" && Section(store, m).2 == "N/A"
  {
  }

  /** Without a sample, `sensorData` is the retrieval error; a connection fault gives the processing error. */
  lemma SensorDataErrors(store: StoreAccess, m: ModelBundle)
    ensures store.connectError.Some? ==>
      Section(store, m).0 == ErrorObject("Error processing sensor data: " + store.connectError.value)
    ensures store.connectError.None? && Sample(store).None? ==>
      Section(store, m).0 == ErrorObject("Could not retrieve sensor data")
    ensures store.connectError.None? && store.query.Some? && |store.query.value| == 0 ==>
      Section(store, m).0 == ErrorObject("Could not retrieve sensor data")
  {
  }

  /**
   * The JSON of a row has the row's columns; `time` is its formatted instant,
   * which reads back as that instant; null cells are JSON null; numbers and
   * text are unchanged.
   */
  lemma SensorJsonOfCells(cells: map<string, Value>)
    requires StampOnlyAtTime(cells) && "time" in cells && cells["time"].Stamp?
    ensures var j := SensorJson(cells);
      && j.JObj?
      && j.fields.Keys == cells.Keys
      && j.fields["time"] == JStr(TimeText(cells["time"].t))
      && (forall k :: k in cells && cells[k].Null? ==> j.fields[k] == JNull)
      && (forall k :: k in cells && cells[k].Num? ==> j.fields[k] == JNum(cells[k].n))
      && (forall k :: k in cells && cells[k].Text? ==> j.fields[k] == JStr(cells[k].s))
  {
    var row := TimedRow(cells);
    assert row["time"] == Text(TimeText(cells["time"].t));
  }

  /** `sensorData` for a sample is the sample's JSON, and its `time` reads back as the sample's instant. */
  lemma SensorDataOfSample(store: StoreAccess, m: ModelBundle)
    requires store.connectError.None? && Sample(store).Some?
    ensures var cells := Sample(store).value;
      var j := Section(store, m).0;
      && "time" in cells && cells["time"].Stamp?
      && j == SensorJson(cells)
      && j.fields.Keys == cells.Keys
      && ParseDateTime(j.fields["time"].s) == Some(FromEpochSeconds(cells["time"].t))
  {
    var cells := Sample(store).value;
    LatestSampleShape(store.query.value, store.parseTime);
    assert cells != map[] by { assert "time" in cells; }
    SensorJsonOfCells(cells);
  }
}
