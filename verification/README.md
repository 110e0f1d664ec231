# Smart-room back end and daily sun-time ingestion, modelled in Dafny

The system is a small smart-room controller:

- **backEnd.py** is a Flask service. It has three jobs:
  - It forwards LED and servo commands to a device on the local network.
  - It reads the newest sensor row from InfluxDB and derives calendar features from that row's timestamp.
  - It asks two trained classifiers for LED and curtain suggestions, then answers `/status` with the sensor row, the suggestions and the Hong Kong Observatory (HKO) current weather.
- **daily_update_sunset.py** runs continuously. Once per UTC day it asks the HKO for that day's sunrise, solar-transit and sunset times, formats them into one InfluxDB point and writes that point. It advances its "last successful date" only when fetch, format and write all succeed.

The model keeps the source's own shape:

- **Pure decisions are functions.** This covers route validation and URL building, `send_device_request`'s result classification, the HKO weather fallback, the response formatter's specification and the write guard.
- **Code that changes state step by step is imperative.** Each such method is proved against a specification function:
  - `predict_states` works on a copied one-row frame, column by column.
  - `get_latest_sensor_data` coerces columns in a loop.
  - `get_status` builds the JSON dictionary entry by entry.
  - `format_data_for_influxdb` searches its rows with `break`.
  - The main loop updates `last_successful_run_date` and `API_PARAMS` in place.

Lemmas then state what the source promises about those specification functions.

Everything outside the program is an input:

- HTTP calls, the InfluxDB client, the trained pipelines and label encoders, pandas' timestamp parsing, and the clock.
- A device request is a `Transport` outcome.
- A pipeline is a function from a feature row to `Option<int>`, where `None` means it raised. An encoder is a function from an int to `Option<string>`.
- The HKO fetch is a function from request parameters to decoded JSON, where `JNull` stands for `None`. A store write is a boolean function of the points.

Timestamps are integer seconds since the epoch, in naive UTC, within pandas' nanosecond range (years 1677 to 2262). The calendar fields `hour`, `dayofweek` (Monday = 0), `month` and `dayofyear` are integer arithmetic on the proleptic Gregorian calendar. The conversion from days to a civil date is proved to be the exact inverse of the conversion back.

Modules (one file each):

| Module | Contents |
|---|---|
| `Wrappers` | `Option` |
| `Decimal` | zero-padded digit text |
| `Calendar` | dates, epoch seconds, `%Y-%m-%d` and `%Y-%m-%d %H:%M:%S` text |
| `Json` | JSON values and Python truthiness |
| `DeviceControl` | device control |
| `SensorReader` | sensor reader, with the `Frame` class |
| `Predictor` | prediction |
| `StatusAggregator` | `/status` |
| `SunTimes` | formatting and the write guard |
| `DailyScheduler` | the daily tick, with the `Scheduler` class |

## Model

| member | source | states |
|---|---|---|
| DeviceControl.SendDeviceRequest | backEnd.py:81-105 | Success exactly when a response arrived with a non-error status. On success: that status code and no message. On every failure: a message that opens with the kind of failure followed by the URL. On failure, a status code is present exactly when a response (or the exception's response) carried one, and it is that status. |
| DeviceControl.FailureStatus | backEnd.py:254 | `status_code or 500`: the device's code when it is present and non-zero, 500 when it is missing or zero. The result is never 0. |
| DeviceControl.LedUrl | backEnd.py:242-247 | Only the states "on" and "off" have a URL, and that URL is the LED prefix followed by the state. |
| DeviceControl.ControlLedRoute | backEnd.py:239-254 | Any other state is answered with 400, "Invalid LED state" and no device request. "on"/"off" request the LED URL, and the answer is 200/"success" exactly when the device request succeeded. On failure the answer is "error", the status is `status_code or 500`, and the message is "Failed to control LED: " followed by the device error. |
| DeviceControl.ServoUrl | backEnd.py:259-263 | A URL exists exactly for a present angle within 0..180. |
| DeviceControl.ControlServoRoute | backEnd.py:256-269 | A missing or out-of-range angle is answered with 400 and no device request. A valid angle requests the servo URL, and the answer is 200/"success" exactly when the device request succeeded. On failure the answer is "error", the status is `status_code or 500`, and the message is "Failed to control servo: " followed by the device error. |
| DeviceControl.RouteFailureStatus | backEnd.py:249-254 | After a failed device request, the status a route answers follows from what the device did. A device HTTP error is passed through as that error status. Another request exception passes its non-zero status. A timeout, a failed connection or an unexpected error gives 500. |
| DeviceControl.ServoUrlCarriesAngle | backEnd.py:263 | The servo URL is the fixed prefix followed by decimal text that reads back as the requested angle. |
| DeviceControl.ServoUrlInjective | backEnd.py:263 | Different valid angles go to different URLs. |
| DeviceControl.LedUrlsDistinct | backEnd.py:243-245 | "on" and "off" go to `http://172.20.10.3/led/on` and `/led/off`, which differ. |
| DeviceControl.InvalidLedStateScenario | backEnd.py:246-247 | An unknown state such as "up" gets 400 before any device request. |
| DeviceControl.OutOfRangeAngleScenario | backEnd.py:260-261 | Angles -1 and 181 get 400 before any device request. |
| SensorReader.CoercedColumns | backEnd.py:135-138 | The columns coerced to numbers are exactly brightness_raw, humidity and temperature. The calendar fields are never coerced. |
| SensorReader.ToNumeric | backEnd.py:138 | The result is never text: numbers stay as they are, null stays null, other text becomes a number or null. |
| SensorReader.Frame.SetColumn | backEnd.py:126 | The column is set to the value and every other column is unchanged. |
| SensorReader.LatestSampleNone | backEnd.py:115-132 | There is no sample exactly when there are no points, `time` is missing or null, or `time` does not parse to an instant. |
| SensorReader.LatestSampleShape | backEnd.py:126-139 | A sample has the point's columns, and `time` is the parsed instant. Only the three sensor readings are coerced; every other column (the calendar fields included) is the stored value. Only `time` holds a timestamp. |
| SensorReader.GetLatestSensorData | backEnd.py:108-144 | It returns no frame exactly when the specification gives no sample. Otherwise the returned frame's cells are the sample. |
| SensorReader.CoerceNumericColumns | backEnd.py:135-138 | After the loop over the numeric features, each coerced column holds `to_numeric` of its stored value. `time` holds the instant, and every other column is unchanged. |
| Predictor.FeatureKinds | backEnd.py:37-42 | Every feature is numeric or categorical but not both. No feature is listed twice, and every numeric and categorical name is a feature. |
| Predictor.WithCalendar | backEnd.py:164-168 | The four calendar columns are added; every other column is kept. |
| Predictor.FeatureVector | backEnd.py:171-195 | `X_latest` after the fill has exactly the nine features in training order and no null. Present values are unchanged, a null numeric is 0 and a null categorical is 'Unknown'. |
| Predictor.CalendarFeaturesFromTimestamp | backEnd.py:164-168 | The last four features are the timestamp's hour, day of week, month and day of year, within 0..23, 0..6, 1..12 and 1..366. |
| Predictor.CalendarCell | backEnd.py:164-168 | After the calendar columns are added, a calendar column holds the timestamp's field and any other column its old cell. |
| Predictor.Classify | backEnd.py:199-205 | The two labels exist together or not at all. When they exist, each is its encoder's label for its pipeline's class. Both labels exist whenever both pipelines and both encoders answer. |
| Predictor.Prediction | backEnd.py:150-203 | Both labels or neither. No frame, an empty frame, a missing or non-timestamp `time`, or any unloaded model gives (None, None). Otherwise the pair is the classifiers applied to the filled feature row (`FeatureVector`) of the sample with its calendar columns added. |
| Predictor.PredictionIgnoresOtherColumns | backEnd.py:171-177 | Two samples with the same timestamp and the same feature cells get the same prediction. |
| Predictor.PredictStates | backEnd.py:146-216 | The returned pair is the specification's `Prediction` of the caller's frame. The method has no modifies clause, so the caller's frame is unchanged. |
| Predictor.AddCalendarColumns | backEnd.py:164-168 | The frame's cells become the old cells with the four calendar fields of the timestamp. |
| Predictor.PrepareFeatures | backEnd.py:171-195 | The feature row produced is `FeatureVector` of the frame's cells before the method ran. |
| Predictor.AddMissingFeatures | backEnd.py:171-174 | Afterwards the frame has its old columns plus every feature. An added column is null, and existing columns are unchanged. |
| Predictor.SelectFeatures | backEnd.py:177 | The row holds the frame's feature columns in the order of `FEATURES`. |
| Predictor.FillNulls | backEnd.py:183-195 | A null entry of a listed column becomes the filler. Every other entry is unchanged. |
| Predictor.ColumnIndex | backEnd.py:177 | The returned position holds the requested feature. |
| StatusAggregator.GetHkoWeather | backEnd.py:218-229 | The decoded body, or an object whose only key is "error", holding the source's message for a request failure or for an unexpected failure. |
| StatusAggregator.RecordFault | backEnd.py:320-325 | An error object replaces `sensorData` only when nothing was assigned yet. |
| StatusAggregator.TimeText | backEnd.py:301-304 | The formatted time has 19 characters and parses back to the same instant. |
| StatusAggregator.TimedRow | backEnd.py:298-308 | A timestamp in `time` becomes its formatted text, and an absent `time` becomes "Missing Timestamp". No timestamp is left, and the other entries are unchanged. |
| StatusAggregator.ToJson | backEnd.py:311-315 | A cell becomes JSON null exactly when it is NaN. |
| StatusAggregator.JsonEntries | backEnd.py:311-315 | After the loop over the entries, every key of the row maps to its JSON value. |
| StatusAggregator.ToDict | backEnd.py:298-315 | The converted dictionary is the specification's `SensorJson` of the frame. |
| StatusAggregator.ReadAndPredict | backEnd.py:287-318 | The sensor data and the two suggestions are the specification's `Section` for the store and the models. |
| StatusAggregator.GetStatus | backEnd.py:272-346 | The response is the specification's `Status`. |
| StatusAggregator.StatusShape | backEnd.py:335-344 | The response always has the five keys. The suggestion object always has `led` and `curtain`, and `hkoWeather` is the weather result. |
| StatusAggregator.SuggestionsFromPrediction | backEnd.py:277-294 | Each suggestion is its own prediction when that exists, and "N/A" otherwise, independently of the other. Without a sample, both are "N/A". |
| StatusAggregator.NoModelsNoSuggestion | backEnd.py:154-156 | With any model slot unset, both suggestions stay "N/A". |
| StatusAggregator.SensorDataErrors | backEnd.py:317-325 | A connection fault gives "Error processing sensor data: ..."; no sample, or an empty query result, gives "Could not retrieve sensor data". |
| StatusAggregator.SensorJsonOfCells | backEnd.py:298-315 | The JSON row has the sample's keys and `time` formatted. NaN becomes null; numbers and text are unchanged. |
| StatusAggregator.SensorDataOfSample | backEnd.py:289-315 | With a sample, `sensorData` is that sample's JSON, with the same keys, and its `time` text reads back as the sample's instant. |
| SunTimes.RowVerdict | daily_update_sunset.py:85 | A row matches exactly when it is a non-empty list whose first cell is the requested date. A falsy row is skipped. |
| SunTimes.SearchRows | daily_update_sunset.py:84-87 | The search finds the first matching row, with only skipped rows before it. It reports no match exactly when every row is skipped, and a row that raises stops the search. |
| SunTimes.SearchStopsAtFirstDecidedRow | daily_update_sunset.py:84-87 | The first row that is not skipped decides the search: found there if it matches, raised there otherwise. |
| SunTimes.ZipPairsRaises | daily_update_sunset.py:93 | Building the dict from equal-length lists fails exactly when some name is unhashable. |
| SunTimes.ZipPairsKeys | daily_update_sunset.py:93 | The dict's keys are exactly the string names. |
| SunTimes.ZipPairsLastWins | daily_update_sunset.py:93 | A name maps to the cell at its last occurrence. |
| SunTimes.ZipPairsEntries | daily_update_sunset.py:93 | The keys and the last-occurrence values together. |
| SunTimes.Paired | daily_update_sunset.py:93 | `zip` stops at the shorter list. |
| SunTimes.ZipToDict | daily_update_sunset.py:93 | `dict(zip(...))` fails exactly when a paired name is unhashable. Surplus names or cells are dropped. |
| SunTimes.ZipToDictEntries | daily_update_sunset.py:93 | The keys are the paired string names, and each holds the cell at its last paired position. |
| SunTimes.MidnightUtc | daily_update_sunset.py:107-115 | The ISO time of midnight UTC has 25 characters and begins with the date. |
| SunTimes.FormatDataForInfluxdb | daily_update_sunset.py:66-125 | The result of the search loop with `break` is the specification's `FormatSpec`. |
| SunTimes.FormatRejectsMalformed | daily_update_sunset.py:69-78 | A non-object, a missing `fields` or `data`, or an empty `data` gives None. |
| SunTimes.NoMatchingRow | daily_update_sunset.py:89-91 | When no row has the requested date first, the result is None. |
| SunTimes.MissingSunTimeRejected | daily_update_sunset.py:97-103 | A missing or empty RISE, TRAN. or SET gives None. |
| SunTimes.FormatResult | daily_update_sunset.py:106-118 | A result is exactly one point for the first matching row. The measurement and tags are fixed, the fields are the row's truthy RISE/TRAN./SET, and the time is the date followed by T00:00:00+00:00. |
| SunTimes.SampleRowFound | daily_update_sunset.py:84-87 | In a two-row response, the row for 2024-03-01 is found after the row for another date. |
| SunTimes.SampleZip | daily_update_sunset.py:93 | That row pairs with the response's field names. |
| SunTimes.SampleDate | daily_update_sunset.py:107-108 | "2024-03-01" parses to that date, and its midnight is 2024-03-01T00:00:00+00:00. |
| SunTimes.SampleResponseFormatted | daily_update_sunset.py:113-118 | The sample response gives the point with sunrise 06:39, transit 12:25 and sunset 18:12. |
| SunTimes.SampleResponseOtherDate | daily_update_sunset.py:89-91 | Asking the sample response for an unlisted date gives None. |
| SunTimes.WriteToInfluxdb | daily_update_sunset.py:128-132 | A missing or empty list is refused without a write. Otherwise the answer is the store's. |
| DailyScheduler.RequestedDate | daily_update_sunset.py:199 | The requested date text has 10 characters and parses back to today's date. |
| DailyScheduler.DatedParams | daily_update_sunset.py:204-206 | The parameters gain `year`, `month` and `day`; the others are kept. |
| DailyScheduler.RequestedDateParts | daily_update_sunset.py:199-206 | The requested date is the year, month and day parameters joined by dashes. These are 4, 2 and 2 digits whose values are today's components. |
| DailyScheduler.DatedParamsIdempotent | daily_update_sunset.py:204-206 | Dating the parameters twice for the same day gives the same request. |
| DailyScheduler.NotDueOnOrBeforeMarker | daily_update_sunset.py:192 | A date on or before the marker is not attempted. |
| DailyScheduler.IngestedExactlyOnFullSuccess | daily_update_sunset.py:209-220 | A tick ingests exactly when it is due, the fetch is truthy, the response formats and the store accepts. It reports the formatted points. |
| DailyScheduler.StagesGated | daily_update_sunset.py:209-215 | Format runs only after a truthy fetch, and write only after a formatted point. |
| DailyScheduler.FailureIsRetried | daily_update_sunset.py:221-226 | After any failure the same date is due again, whatever the next fetch and store do. |
| DailyScheduler.IncreasingDatesDistinct | daily_update_sunset.py:217-220 | Strictly increasing ingestion dates are distinct: at most one ingestion per UTC date. |
| DailyScheduler.DateBeforeTransitive | daily_update_sunset.py:192 | The date order is transitive. |
| DailyScheduler.ExtendIncreasing | daily_update_sunset.py:217-220 | Appending a later date keeps the ingestion dates increasing. |
| DailyScheduler.Scheduler.constructor | daily_update_sunset.py:184 | The script starts with no marker and the base parameters. |
| DailyScheduler.Scheduler.Tick | daily_update_sunset.py:186-226 | The outcome is the specification's `Attempt`. The marker becomes today only on ingestion; the parameters are dated only when due. The ingested dates stay strictly increasing, and the marker is always the last of them. |
| DailyScheduler.Scheduler.SetRequestDate | daily_update_sunset.py:198-206 | The parameters become today's dated parameters, and the marker is unchanged. |
| DailyScheduler.Scheduler.RecordSuccess | daily_update_sunset.py:217-220 | The marker becomes today, which is appended to the ingested dates. |
| DailyScheduler.RunStages | daily_update_sunset.py:209-226 | The fetch, format and write sequence gives the specification's `Stages`. |
| DailyScheduler.StoreDecidesWrite | daily_update_sunset.py:214-222 | A store that refuses every write never ingests. One that accepts every write ingests wherever the refusing one reached the write. |
| DailyScheduler.RetryThenDone | daily_update_sunset.py:217-226 | A tick whose write is refused fails. The next tick on the same day, with the store accepting, ingests. After that the day is not attempted again. |
| Calendar.DaysFromCivilInjective | daily_update_sunset.py:192 | Distinct valid dates have distinct day numbers. |
| Calendar.DateBeforeIsDayOrder | daily_update_sunset.py:192 | Date comparison (`current_utc_date > last_successful_run_date`) is day-number comparison. |
| Calendar.CivilFromDays | backEnd.py:164-168 | The civil date of a day number is valid and converts back to that day number. |
| Calendar.CivilFromDaysOfCivil | backEnd.py:164-168 | Converting a valid date to its day number and back gives the same date. |
| Calendar.FromEpochSeconds | backEnd.py:164-168 | The date and time of an epoch second are valid and convert back to it. |
| Calendar.FromEpochSecondsOfDateTime | backEnd.py:164-168 | Converting a valid date and time to epoch seconds and back gives the same date and time. |
| Calendar.TimestampYearInRange | backEnd.py:304 | Every timestamp falls in years 1677 to 2262, so `%Y` gives four digits. |
| Calendar.Hour | backEnd.py:165 | The hour is within 0..23. |
| Calendar.DayOfWeek | backEnd.py:166 | The day of the week is within 0..6. |
| Calendar.DayOfWeekNextDay | backEnd.py:166 | One day later, the day of the week advances by one, modulo 7. |
| Calendar.MondayIsZero | backEnd.py:166 | Monday 1970-01-05 has day of week 0, the pandas convention. |
| Calendar.Month | backEnd.py:167 | The month is within 1..12. |
| Calendar.DayOfYear | backEnd.py:168 | The day of the year is within 1..366 and at most the length of its year. |
| Calendar.DayOfYearCountsFromNewYear | backEnd.py:168 | The day of the year counts days since 1 January, starting at 1. |
| Calendar.FormatDateRoundTrip | daily_update_sunset.py:199 | `%Y-%m-%d` text of a date parses back to that date. |
| Calendar.ParseDateRoundTrip | daily_update_sunset.py:107 | Text that parses as a date is exactly that date's `%Y-%m-%d` text. |
| Calendar.ParseDate | daily_update_sunset.py:107 | A parsed date is a valid date with a year in 1..9999. |
| Calendar.FormatDateTimeRoundTrip | backEnd.py:304 | `%Y-%m-%d %H:%M:%S` text parses back to the same date and time. |
| Calendar.ParseDateTime | backEnd.py:304 | Parsed text is a valid date and time. |
| Decimal.Pad2RoundTrip | daily_update_sunset.py:201-202 | Two-digit `%m`/`%d` text reads back as its number. |
| Decimal.Pad4RoundTrip | daily_update_sunset.py:200 | Four-digit `%Y` text reads back as its number. |
| Decimal.Pad2OfValue | daily_update_sunset.py:201-202 | Two digits are the padding of their own value. |
| Decimal.Pad4OfValue | daily_update_sunset.py:200 | Four digits are the padding of their own value. |
| Decimal.NatToStringRoundTrip | backEnd.py:263 | The decimal text of the angle reads back as the angle. |

## Left out

- I/O is left out:
  - the HTTP transport;
  - the InfluxDB client (connect, query, `switch_database`, `get_list_database`/`create_database`, `write_points`, close);
  - Flask routing, `render_template`, `jsonify` and the parsing of `request.args`, so the angle arrives already parsed as `Option<int>`;
  - all logging.
- Loading the models (`load_models_globally`, joblib, `os.path.exists`) is left out. The four slots are given, set or unset.
- The pipelines and encoders are opaque functions. This means:
  - The model does not capture scaling or one-hot encoding.
  - `inverse_transform(...)[0]` is one function from the class code to a label.
- `fetch_weather_data` is not modelled. Its result is the decoded JSON or `None`, given as an input.
- The clock is left out. `currentTimeUTC` and `currentTimeLocal` (`%Z` and `%A` formats) are input strings; the current UTC date of a tick is an input.
- Time is left out: `time.sleep`, the doubled back-off after an unexpected error, and `KeyboardInterrupt`. Only one iteration of the loop is modelled, as a tick.
- influxdb.py is not part of this model. It is a query script with no logic.
- Floating point is left out:
  - Sensor values are integers, text or null.
  - `to_numeric` reads only decimal integers with an optional `+` or `-` sign; decimal points, exponents and surrounding blanks give null.
  - `value.item()` on numpy scalars is the identity.
- pandas timestamp parsing and timezone conversion are an injected `parseTime`. A naive parse result makes `tz_convert(None)` raise, and that is modelled as no sample.
- SensorReader.GetLatestSensorData: a query that raises is an input. The other `except Exception` paths of `get_latest_sensor_data` and of `predict_states` are not reachable in the model.
- StatusAggregator.GetStatus: an exception is modelled only where the store client is set up, before any sensor data is assigned.
- StatusAggregator.TimedRow: the "Invalid Timestamp" branch is not modelled. A timestamp that reached `get_status` is never NaT, because `get_latest_sensor_data` already returned `None` for it.
- SunTimes.FormatSpec: a `data` value that is truthy but not a list gives None. In the source, iterating a dict or string yields rows that raise or never match a ten-character date, so the outcome is also None.
- SunTimes.RowVerdict: a non-empty string row is treated as skipped. In Python its first character is compared with the date, which never matches a date that later parses.
- SunTimes.FormatSpec: `fields` must be a JSON list. A `fields` value that is an object or a string is treated as no point, whereas Python would zip its keys or characters.
- Calendar.ParseDate: it accepts only zero-padded `YYYY-MM-DD`, while `strptime` also accepts unpadded month and day.
  - An unpadded date given directly to `format_data_for_influxdb` gives None in the model, where Python would build a point.
  - The tick always passes its own zero-padded text, so this difference is not reachable from the loop.
- Calendar.FormatDate: years below 1000 are written with four digits. Python's `%Y` does not pad them on every platform, and such dates never occur as current dates.
