/**
 * The predictor of backEnd.py: `predict_states`.  It copies the sample's
 * frame, adds the four calendar columns derived from the sample's timestamp,
 * adds every missing feature as null, selects the features in the fixed
 * training order, fills null numerics with 0 and null categoricals with
 * 'Unknown', and hands the row to the LED and curtain classifiers.
 *
 * The trained scikit-learn pipelines and label encoders are opaque functions.
 * A pipeline answers the encoded class of a feature row, or `None` when
 * `predict` raises; an encoder answers the label of an encoded class, or
 * `None` when `inverse_transform` raises.
 */
module Predictor {
  import opened Wrappers
  import opened Calendar
  import opened SensorReader

  type Pipeline = seq<Value> -> Option<int>
  type Encoder = int -> Option<string>

  /** The four model slots; a slot is `None` when that artifact is not loaded. */
  datatype ModelBundle = ModelBundle(
    ledPipeline: Option<Pipeline>,
    curtainPipeline: Option<Pipeline>,
    ledEncoder: Option<Encoder>,
    curtainEncoder: Option<Encoder>)

  predicate ModelsLoaded(m: ModelBundle) {
    m.ledPipeline.Some? && m.curtainPipeline.Some? && m.ledEncoder.Some? && m.curtainEncoder.Some?
  }

  /** The cell of a column, null when the column is absent. */
  function Cell(cells: map<string, Value>, name: string): Value {
    if name in cells then cells[name] else Null
  }

  /** The sample with the calendar columns derived from its timestamp `t`. */
  function WithCalendar(cells: map<string, Value>, t: Timestamp): (r: map<string, Value>)
    ensures r.Keys == cells.Keys + {"hour", "dayofweek", "month", "dayofyear"}
    ensures forall k :: k in cells && k !in CalendarFeatures ==> r[k] == cells[k]
  {
    cells["hour" := Num(Hour(t))]["dayofweek" := Num(DayOfWeek(t))]
         ["month" := Num(Month(t))]["dayofyear" := Num(DayOfYear(t))]
  }

  /** The null-fill policy of one feature. */
  function Fill(name: string, v: Value): Value {
    if v.Null? && name in NumericFeatures then Num(0)
    else if v.Null? && name in CategoricalFeatures then Text("Unknown")
    else v
  }

  /** Every feature is numeric or categorical, and not both; no feature is listed twice. */
  lemma FeatureKinds()
    ensures forall i :: 0 <= i < |Features| ==>
      (Features[i] in NumericFeatures) != (Features[i] in CategoricalFeatures)
    ensures forall i, j :: 0 <= i < j < |Features| ==> Features[i] != Features[j]
    ensures forall f :: f in NumericFeatures ==> f in Features
    ensures forall f :: f in CategoricalFeatures ==> f in Features
  {
  }

  /**
   * `X_latest` after the fill: the features in training order, none null,
   * present values kept, null numerics 0 and null categoricals 'Unknown'.
   */
  function FeatureVector(cells: map<string, Value>): (x: seq<Value>)
    ensures |x| == |Features|
    ensures forall i :: 0 <= i < |x| ==> !x[i].Null?
    ensures forall i :: 0 <= i < |x| && !Cell(cells, Features[i]).Null? ==> x[i] == cells[Features[i]]
    ensures forall i :: 0 <= i < |x| && Cell(cells, Features[i]).Null? && Features[i] in NumericFeatures ==>
      x[i] == Num(0)
    ensures forall i :: 0 <= i < |x| && Cell(cells, Features[i]).Null? && Features[i] in CategoricalFeatures ==>
      x[i] == Text("Unknown")
  {
    FeatureKinds();
    seq(|Features|, i requires 0 <= i < |Features| => Fill(Features[i], Cell(cells, Features[i])))
  }

  /** The last four features are the calendar fields of the timestamp, in their ranges. */
  lemma CalendarFeaturesFromTimestamp(cells: map<string, Value>, t: Timestamp)
    ensures var x := FeatureVector(WithCalendar(cells, t));
      && x[5..] == [Num(Hour(t)), Num(DayOfWeek(t)), Num(Month(t)), Num(DayOfYear(t))]
      && 0 <= x[5].n <= 23 && 0 <= x[6].n <= 6 && 1 <= x[7].n <= 12 && 1 <= x[8].n <= 366
  {
    var x := FeatureVector(WithCalendar(cells, t));
    assert x[5..] == [x[5], x[6], x[7], x[8]];
  }

  /** Both classifiers and both encoders over one feature row; any failure gives no prediction at all. */
  function Classify(m: ModelBundle, x: seq<Value>): (r: (Option<string>, Option<string>))
    requires ModelsLoaded(m)
    ensures r.0.Some? <==> r.1.Some?
    ensures r.0.Some? ==>
      && m.ledPipeline.value(x).Some? && m.curtainPipeline.value(x).Some?
      && r.0 == m.ledEncoder.value(m.ledPipeline.value(x).value)
      && r.1 == m.curtainEncoder.value(m.curtainPipeline.value(x).value)
    ensures
      && m.ledPipeline.value(x).Some? && m.curtainPipeline.value(x).Some?
      && m.ledEncoder.value(m.ledPipeline.value(x).value).Some?
      && m.curtainEncoder.value(m.curtainPipeline.value(x).value).Some?
      ==> r.0.Some?
  {
    var ledCode := m.ledPipeline.value(x);
    var curtainCode := m.curtainPipeline.value(x);
    if ledCode.None? || curtainCode.None? then (None, None)
    else
      var led := m.ledEncoder.value(ledCode.value);
      var curtain := m.curtainEncoder.value(curtainCode.value);
      if led.None? || curtain.None? then (None, None) else (led, curtain)
  }

  /** `predict_states` may run the models: a non-empty frame, a timestamp in `time`, all four slots loaded. */
  predicate CanPredict(cells: Option<map<string, Value>>, m: ModelBundle) {
    && cells.Some? && cells.value != map[]
    && "time" in cells.value && cells.value["time"].Stamp?
    && ModelsLoaded(m)
  }

  /** The pair `predict_states` returns for a frame (`None` for no frame). */
  function Prediction(cells: Option<map<string, Value>>, m: ModelBundle): (r: (Option<string>, Option<string>))
    ensures r.0.Some? <==> r.1.Some?
    ensures !CanPredict(cells, m) ==> r == (None, None)
    ensures CanPredict(cells, m) ==>
      r == Classify(m, FeatureVector(WithCalendar(cells.value, cells.value["time"].t)))
  {
    if !CanPredict(cells, m) then (None, None)
    else
      var row := cells.value;
      Classify(m, FeatureVector(WithCalendar(row, row["time"].t)))
  }

  /**
   * Columns other than the features do not influence the prediction: two
   * samples with the same timestamp and the same feature cells get the same pair.
   */
  lemma PredictionIgnoresOtherColumns(a: map<string, Value>, b: map<string, Value>, m: ModelBundle)
    requires CanPredict(Some(a), m) && CanPredict(Some(b), m)
    requires a["time"] == b["time"]
    requires forall f :: f in Features ==> Cell(a, f) == Cell(b, f)
    ensures Prediction(Some(a), m) == Prediction(Some(b), m)
  {
    var t := a["time"].t;
    var xa := FeatureVector(WithCalendar(a, t));
    var xb := FeatureVector(WithCalendar(b, t));
    forall i | 0 <= i < |Features|
      ensures xa[i] == xb[i]
    {
      CalendarCell(a, t, Features[i]);
      CalendarCell(b, t, Features[i]);
    }
    assert xa == xb;
  }

  /** A cell after `WithCalendar`: the timestamp's field for a calendar column, the old cell otherwise. */
  lemma CalendarCell(cells: map<string, Value>, t: Timestamp, f: string)
    ensures Cell(WithCalendar(cells, t), f) ==
      if f == "hour" then Num(Hour(t))
      else if f == "dayofweek" then Num(DayOfWeek(t))
      else if f == "month" then Num(Month(t))
      else if f == "dayofyear" then Num(DayOfYear(t))
      else Cell(cells, f)
  {
  }

  /**
   * `predict_states(data_df)`.  It works on a copy: `df` is not in any
   * modifies clause, so the caller's frame is unchanged.
   */
  method PredictStates(df: Frame?, m: ModelBundle) returns (led: Option<string>, curtain: Option<string>)
    ensures (led, curtain) == Prediction(if df == null then None else Some(df.cells), m)
  {
    if df == null || df.cells == map[] {
      return None, None;
    }
    if "time" !in df.cells || !df.cells["time"].Stamp? {
      return None, None;
    }
    if !ModelsLoaded(m) {
      return None, None;
    }
    var processed := new Frame(df.cells);
    var timestamp := processed.cells["time"].t;
    AddCalendarColumns(processed, timestamp);
    var x := PrepareFeatures(processed);

    var ledCode := m.ledPipeline.value(x);
    var curtainCode := m.curtainPipeline.value(x);
    if ledCode.None? || curtainCode.None? {
      return None, None;
    }
    var ledLabel := m.ledEncoder.value(ledCode.value);
    var curtainLabel := m.curtainEncoder.value(curtainCode.value);
    if ledLabel.None? || curtainLabel.None? {
      return None, None;
    }
    return ledLabel, curtainLabel;
  }

  /** `data_df['hour']`, `['dayofweek']`, `['month']` and `['dayofyear']` from the timestamp. */
  method AddCalendarColumns(frame: Frame, timestamp: Timestamp)
    modifies frame
    ensures frame.cells == WithCalendar(old(frame.cells), timestamp)
  {
    frame.SetColumn("hour", Num(Hour(timestamp)));
    frame.SetColumn("dayofweek", Num(DayOfWeek(timestamp)));
    frame.SetColumn("month", Num(Month(timestamp)));
    frame.SetColumn("dayofyear", Num(DayOfYear(timestamp)));
  }

  /** The missing features added, the features selected in order, and the nulls filled: `X_latest`. */
  method PrepareFeatures(frame: Frame) returns (x: seq<Value>)
    modifies frame
    ensures x == FeatureVector(old(frame.cells))
  {
    ghost var cells := frame.cells;
    AddMissingFeatures(frame);
    x := SelectFeatures(frame);
    FeatureKinds();
    x := FillNulls(x, NumericFeatures, Num(0));
    x := FillNulls(x, CategoricalFeatures, Text("Unknown"));
    assert x == FeatureVector(cells);
  }

  /** `data_df[feature] = np.nan` for every feature the frame lacks. */
  method AddMissingFeatures(frame: Frame)
    modifies frame
    ensures forall k :: k in frame.cells <==> k in old(frame.cells) || k in Features
    ensures forall k :: k in frame.cells ==> frame.cells[k] == Cell(old(frame.cells), k)
  {
    var i := 0;
    while i < |Features|
      invariant 0 <= i <= |Features|
      invariant forall k :: k in frame.cells <==> k in old(frame.cells) || k in Features[..i]
      invariant forall k :: k in frame.cells ==> frame.cells[k] == Cell(old(frame.cells), k)
    {
      if Features[i] !in frame.cells {
        frame.SetColumn(Features[i], Null);
      }
      i := i + 1;
    }
    assert Features[..i] == Features;
  }

  /** `data_df[FEATURES]`: the feature columns in training order. */
  method SelectFeatures(frame: Frame) returns (x: seq<Value>)
    requires forall f :: f in Features ==> f in frame.cells
    ensures |x| == |Features|
    ensures forall j :: 0 <= j < |x| ==> x[j] == frame.cells[Features[j]]
  {
    x := [];
    var i := 0;
    while i < |Features|
      invariant 0 <= i <= |Features|
      invariant |x| == i
      invariant forall j :: 0 <= j < i ==> x[j] == frame.cells[Features[j]]
    {
      x := x + [frame.cells[Features[i]]];
      i := i + 1;
    }
  }

  /** `X[col] = X[col].fillna(filler)` for each column named in `cols`. */
  method FillNulls(x: seq<Value>, cols: seq<string>, filler: Value) returns (y: seq<Value>)
    requires |x| == |Features|
    requires forall c :: c in cols ==> c in Features
    ensures |y| == |x|
    ensures forall p :: 0 <= p < |y| ==> y[p] == if x[p].Null? && Features[p] in cols then filler else x[p]
  {
    y := x;
    var j := 0;
    while j < |cols|
      invariant 0 <= j <= |cols|
      invariant |y| == |x|
      invariant forall p :: 0 <= p < |y| ==> y[p] == if x[p].Null? && Features[p] in cols[..j] then filler else x[p]
    {
      var p := ColumnIndex(cols[j]);
      if y[p].Null? {
        y := y[p := filler];
      }
      assert forall q :: 0 <= q < |Features| ==>
        (Features[q] in cols[..j + 1] <==> Features[q] in cols[..j] || Features[q] == cols[j]);
      j := j + 1;
    }
    assert cols[..j] == cols;
  }

  /** The position of a feature column in `X_latest`. */
  method ColumnIndex(name: string) returns (p: nat)
    requires name in Features
    ensures p < |Features| && Features[p] == name
  {
    p := 0;
    while Features[p] != name
      invariant p < |Features|
      invariant name !in Features[..p]
      decreases |Features| - p
    {
      assert Features[..p + 1] == Features[..p] + [Features[p]];
      p := p + 1;
    }
  }
}
