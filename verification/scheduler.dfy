/**
 * The `__main__` loop of daily_update_sunset.py, one iteration at a time.
 * The script's state is the date of the last successful upload and the
 * module-level request parameters, both updated in place.  The current UTC
 * date, the HKO fetch and the store write are the tick's inputs: the fetch
 * answers the decoded JSON for the parameters it is given (`JNull` for
 * `None`), the store answers whether `write_points` succeeded.
 */
module DailyScheduler {
  import opened Wrappers
  import opened Decimal
  import opened Calendar
  import opened Json
  import opened SunTimes

  /** `API_PARAMS` before any date is added. */
  const BaseParams: map<string, string> := map["dataType" := "SRS", "lang" := "en", "rformat" := "json"]

  /** The tick does work: first run, or a UTC date later than the last successful one. */
  predicate Due(marker: Option<Date>, today: Date) {
    marker.None? || DateBefore(marker.value, today)
  }

  /** `strftime('%Y-%m-%d')` of the UTC date: the string the response rows are matched against. */
  function RequestedDate(today: Date): (s: string)
    requires PythonDate(today)
    ensures |s| == 10 && ParseDate(s) == Some(today)
  {
    FormatDateRoundTrip(today);
    FormatDate(today)
  }

  /** The parameters after `API_PARAMS['year']`, `['month']` and `['day']` are set. */
  function DatedParams(params: map<string, string>, today: Date): (p: map<string, string>)
    requires PythonDate(today)
    ensures p.Keys == params.Keys + {"year", "month", "day"}
    ensures forall k :: k in params && k !in {"year", "month", "day"} ==> p[k] == params[k]
  {
    params["year" := Pad4(today.year)]["month" := Pad2(today.month)]["day" := Pad2(today.day)]
  }

  /** The requested date is the zero-padded year, month and day parameters joined by dashes, and reads back as today. */
  lemma RequestedDateParts(params: map<string, string>, today: Date)
    requires PythonDate(today)
    ensures var p := DatedParams(params, today);
      && RequestedDate(today) == p["year"] + "-" + p["month"] + "-" + p["day"]
      && |p["year"]| == 4 && |p["month"]| == 2 && |p["day"]| == 2
      && DigitsValue(p["year"]) == today.year
      && DigitsValue(p["month"]) == today.month
      && DigitsValue(p["day"]) == today.day
  {
    Pad4RoundTrip(today.year);
    Pad2RoundTrip(today.month);
    Pad2RoundTrip(today.day);
  }

  datatype TickOutcome =
    | NotDue                      // already ingested today
    | FetchFailed                 // the fetch gave nothing usable
    | FormatFailed                // the response had no point for today
    | WriteFailed                 // the store refused the point
    | Ingested(points: seq<Point>)

  predicate Failed(o: TickOutcome) {
    o.FetchFailed? || o.FormatFailed? || o.WriteFailed?
  }

  /** Fetch, format and write for the date `today`, with the request parameters already dated. */
  function Stages(requestParams: map<string, string>, today: Date,
                  fetch: map<string, string> -> Json, store: seq<Point> -> bool): TickOutcome
    requires PythonDate(today)
  {
    var weather := fetch(requestParams);
    if !Truthy(weather) then FetchFailed
    else
      var influxData := FormatSpec(weather, RequestedDate(today));
      if influxData.None? || |influxData.value| == 0 then FormatFailed
      else if !Written(WriteToInfluxdb(influxData, store)) then WriteFailed
      else Ingested(influxData.value)
  }

  /** What one iteration of the loop does, given the state it starts in. */
  function Attempt(marker: Option<Date>, params: map<string, string>, today: Date,
                   fetch: map<string, string> -> Json, store: seq<Point> -> bool): TickOutcome
    requires PythonDate(today)
  {
    if !Due(marker, today) then NotDue else Stages(DatedParams(params, today), today, fetch, store)
  }

  /** A date already ingested (or an earlier one) is not attempted again. */
  lemma NotDueOnOrBeforeMarker(marker: Date, today: Date, params: map<string, string>,
                               fetch: map<string, string> -> Json, store: seq<Point> -> bool)
    requires PythonDate(today) && PythonDate(marker)
    requires DaysFromCivil(today) <= DaysFromCivil(marker)
    ensures Attempt(Some(marker), params, today, fetch, store) == NotDue
  {
    DateBeforeIsDayOrder(marker, today);
  }

  /**
   * A tick ingests exactly when it is due, the fetch is truthy, the response
   * formats, and the store accepts the formatted points; it then reports those points.
   */
  lemma IngestedExactlyOnFullSuccess(marker: Option<Date>, params: map<string, string>, today: Date,
                                     fetch: map<string, string> -> Json, store: seq<Point> -> bool)
    requires PythonDate(today)
    ensures var o := Attempt(marker, params, today, fetch, store);
      var weather := fetch(DatedParams(params, today));
      o.Ingested? <==>
        && Due(marker, today)
        && Truthy(weather)
        && FormatSpec(weather, RequestedDate(today)).Some?
        && store(FormatSpec(weather, RequestedDate(today)).value)
    ensures var o := Attempt(marker, params, today, fetch, store);
      o.Ingested? ==> Some(o.points) == FormatSpec(fetch(DatedParams(params, today)), RequestedDate(today))
  {
    var weather := fetch(DatedParams(params, today));
    var points := FormatSpec(weather, RequestedDate(today));
    if points.Some? {
      FormatResult(weather, RequestedDate(today));
    }
  }

  /**
   * The stages are gated: formatting is reached only with a truthy fetch,
   * writing only with a formatted point.
   */
  lemma StagesGated(marker: Option<Date>, params: map<string, string>, today: Date,
                    fetch: map<string, string> -> Json, store: seq<Point> -> bool)
    requires PythonDate(today)
    ensures var o := Attempt(marker, params, today, fetch, store);
      var weather := fetch(DatedParams(params, today));
      && (o.NotDue? <==> !Due(marker, today))
      && (o.FetchFailed? <==> Due(marker, today) && !Truthy(weather))
      && (o.FormatFailed? <==> Due(marker, today) && Truthy(weather) && FormatSpec(weather, RequestedDate(today)).None?)
      && (o.WriteFailed? ==> Truthy(weather) && FormatSpec(weather, RequestedDate(today)).Some?)
  {
    var weather := fetch(DatedParams(params, today));
    if FormatSpec(weather, RequestedDate(today)).Some? {
      FormatResult(weather, RequestedDate(today));
    }
  }

  /** After a failure the marker is unchanged, so the same date is due again on the next tick. */
  lemma FailureIsRetried(marker: Option<Date>, params: map<string, string>, today: Date,
                         fetch: map<string, string> -> Json, store: seq<Point> -> bool,
                         params': map<string, string>, fetch': map<string, string> -> Json, store': seq<Point> -> bool)
    requires PythonDate(today)
    requires Failed(Attempt(marker, params, today, fetch, store))
    ensures Attempt(marker, params', today, fetch', store') != NotDue
  {
  }

  /** Dates in strictly increasing order. */
  predicate StrictlyIncreasing(dates: seq<Date>) {
    forall i, j :: 0 <= i < j < |dates| ==> DateBefore(dates[i], dates[j])
  }

  /** Increasing dates are distinct: no date is ingested twice. */
  lemma IncreasingDatesDistinct(dates: seq<Date>)
    requires StrictlyIncreasing(dates)
    ensures forall i, j :: 0 <= i < |dates| && 0 <= j < |dates| && i != j ==> dates[i] != dates[j]
  {
    forall i, j | 0 <= i < |dates| && 0 <= j < |dates| && i != j
      ensures dates[i] != dates[j]
    {
      if i < j {
        assert DateBefore(dates[i], dates[j]);
      } else {
        assert DateBefore(dates[j], dates[i]);
      }
    }
  }

  lemma DateBeforeTransitive(a: Date, b: Date, c: Date)
    requires DateBefore(a, b) && DateBefore(b, c)
    ensures DateBefore(a, c)
  {
  }

  /** Appending a date later than the last keeps the dates increasing. */
  lemma ExtendIncreasing(dates: seq<Date>, d: Date)
    requires StrictlyIncreasing(dates)
    requires |dates| > 0 ==> DateBefore(dates[|dates| - 1], d)
    ensures StrictlyIncreasing(dates + [d])
  {
    var ext := dates + [d];
    forall i, j | 0 <= i < j < |ext|
      ensures DateBefore(ext[i], ext[j])
    {
      if j == |dates| && i < |dates| - 1 {
        DateBeforeTransitive(dates[i], dates[|dates| - 1], d);
      }
    }
  }

  /** Setting the date parameters again for the same day gives the same request: a retry asks for the same data. */
  lemma DatedParamsIdempotent(params: map<string, string>, today: Date)
    requires PythonDate(today)
    ensures DatedParams(DatedParams(params, today), today) == DatedParams(params, today)
  {
  }

  /** The running ingestion script. */
  class Scheduler {
    /** `last_successful_run_date` */
    var lastSuccessfulRunDate: Option<Date>
    /** `API_PARAMS` */
    var apiParams: map<string, string>
    /** The dates ingested so far, oldest first. */
    ghost var ingested: seq<Date>

    ghost predicate Valid()
      reads this
    {
      && StrictlyIncreasing(ingested)
      && (forall i :: 0 <= i < |ingested| ==> PythonDate(ingested[i]))
      && lastSuccessfulRunDate == (if |ingested| == 0 then None else Some(ingested[|ingested| - 1]))
      && (forall k :: k in BaseParams ==> k in apiParams && apiParams[k] == BaseParams[k])
    }

    /** The script starts with no successful run and the base parameters. */
    constructor ()
      ensures Valid()
      ensures lastSuccessfulRunDate.None? && apiParams == BaseParams && ingested == []
    {
      lastSuccessfulRunDate := None;
      apiParams := BaseParams;
      ingested := [];
    }

    /** One iteration of `while True`, on the UTC date `today`. */
    method Tick(today: Date, fetch: map<string, string> -> Json, store: seq<Point> -> bool)
      returns (outcome: TickOutcome)
      requires Valid() && PythonDate(today)
      modifies this
      ensures Valid()
      ensures outcome == Attempt(old(lastSuccessfulRunDate), old(apiParams), today, fetch, store)
      ensures lastSuccessfulRunDate == if outcome.Ingested? then Some(today) else old(lastSuccessfulRunDate)
      ensures ingested == if outcome.Ingested? then old(ingested) + [today] else old(ingested)
      ensures apiParams == if Due(old(lastSuccessfulRunDate), today) then DatedParams(old(apiParams), today)
                           else old(apiParams)
    {
      if lastSuccessfulRunDate.None? || DateBefore(lastSuccessfulRunDate.value, today) {
        SetRequestDate(today);
        outcome := RunStages(apiParams, today, fetch, store);
        if outcome.Ingested? {
          RecordSuccess(today);
        }
      } else {
        outcome := NotDue;
      }
    }

    /** `API_PARAMS['year']`, `['month']` and `['day']` set to today's zero-padded components. */
    method SetRequestDate(today: Date)
      requires Valid() && PythonDate(today)
      modifies this
      ensures Valid()
      ensures apiParams == DatedParams(old(apiParams), today)
      ensures lastSuccessfulRunDate == old(lastSuccessfulRunDate) && ingested == old(ingested)
    {
      apiParams := apiParams["year" := Pad4(today.year)];
      apiParams := apiParams["month" := Pad2(today.month)];
      apiParams := apiParams["day" := Pad2(today.day)];
      assert forall k :: k in BaseParams ==> k !in {"year", "month", "day"};
    }

    /** `last_successful_run_date = current_utc_date`, after fetch, format and write all succeeded. */
    method RecordSuccess(today: Date)
      requires Valid() && PythonDate(today) && Due(lastSuccessfulRunDate, today)
      modifies this
      ensures Valid()
      ensures lastSuccessfulRunDate == Some(today) && ingested == old(ingested) + [today]
      ensures apiParams == old(apiParams)
    {
      ExtendIncreasing(ingested, today);
      lastSuccessfulRunDate := Some(today);
      ingested := ingested + [today];
    }
  }

  /** The fetch, format and write sequence: each stage runs only when the one before it succeeded. */
  method RunStages(requestParams: map<string, string>, today: Date,
                   fetch: map<string, string> -> Json, store: seq<Point> -> bool)
    returns (outcome: TickOutcome)
    requires PythonDate(today)
    ensures outcome == Stages(requestParams, today, fetch, store)
  {
    var requestedDate := FormatDate(today);
    var weatherJson := fetch(requestParams);
    if !Truthy(weatherJson) {
      return FetchFailed;
    }
    var influxData := FormatDataForInfluxdb(weatherJson, requestedDate);
    if influxData.None? || |influxData.value| == 0 {
      return FormatFailed;
    }
    var writeSuccess := WriteToInfluxdb(influxData, store);
    if !Written(writeSuccess) {
      return WriteFailed;
    }
    return Ingested(influxData.value);
  }

  /**
   * With the same request, a store that refuses every write never ingests, and
   * one that accepts every write ingests wherever the refusing one failed to write.
   */
  lemma StoreDecidesWrite(requestParams: map<string, string>, today: Date, fetch: map<string, string> -> Json,
                          refuse: seq<Point> -> bool, accept: seq<Point> -> bool)
    requires PythonDate(today)
    requires forall ps :: !refuse(ps)
    requires forall ps :: accept(ps)
    ensures Failed(Stages(requestParams, today, fetch, refuse))
    ensures Stages(requestParams, today, fetch, refuse).WriteFailed? ==>
      Stages(requestParams, today, fetch, accept).Ingested?
  {
    var influxData := FormatSpec(fetch(requestParams), RequestedDate(today));
    if influxData.Some? {
      assert !refuse(influxData.value) && accept(influxData.value);
    }
  }

  /** A failed write is retried on the next tick; after the retry succeeds, the same day is not attempted again. */
  method RetryThenDone(s: Scheduler, today: Date, fetch: map<string, string> -> Json,
                       refuse: seq<Point> -> bool, accept: seq<Point> -> bool)
    returns (first: TickOutcome, second: TickOutcome, third: TickOutcome)
    requires s.Valid() && PythonDate(today) && Due(s.lastSuccessfulRunDate, today)
    requires forall ps :: !refuse(ps)
    requires forall ps :: accept(ps)
    modifies s
    ensures Failed(first)
    ensures first.WriteFailed? ==> second.Ingested?
    ensures second.Ingested? ==> third.NotDue? && s.lastSuccessfulRunDate == Some(today)
  {
    ghost var params := DatedParams(s.apiParams, today);
    DatedParamsIdempotent(s.apiParams, today);
    StoreDecidesWrite(params, today, fetch, refuse, accept);
    first := s.Tick(today, fetch, refuse);
    assert first == Stages(params, today, fetch, refuse);
    second := s.Tick(today, fetch, accept);
    assert second == Stages(params, today, fetch, accept);
    third := s.Tick(today, fetch, accept);
  }
}
