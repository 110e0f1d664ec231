/**
 * The proleptic Gregorian calendar over whole seconds since
 * 1970-01-01T00:00:00 in naive UTC.  This is the arithmetic behind the
 * calendar attributes of a pandas `Timestamp` (`hour`, `dayofweek`, `month`,
 * `dayofyear`), behind Python's `date` comparison, and behind the
 * `strftime`/`strptime` forms `%Y-%m-%d` and `%Y-%m-%d %H:%M:%S`.
 *
 * Days are numbered from 1970-01-01 (day 0).  `CivilFromDays` turns a day
 * number into a date and `DaysFromCivil` is its inverse; both directions of
 * the round trip are proved.
 */
module Calendar {
  import opened Wrappers
  import opened Decimal

  const SecondsPerDay := 86400
  /** Days in 400 Gregorian years: the calendar repeats with this period. */
  const DaysPerEra := 146097

  /**
   * pandas stores a `Timestamp` as signed 64-bit nanoseconds since the epoch;
   * these are the whole seconds inside that range (1677-09-21 .. 2262-04-11).
   */
  const MinTimestamp := -9223372036
  const MaxTimestamp := 9223372036
  type Timestamp = t: int | MinTimestamp <= t <= MaxTimestamp

  datatype Date = Date(year: int, month: int, day: int)
  datatype DateTime = DateTime(date: Date, hour: int, minute: int, second: int)

  predicate IsLeapYear(y: int) {
    y % 4 == 0 && (y % 100 != 0 || y % 400 == 0)
  }

  function DaysInYear(y: int): int {
    if IsLeapYear(y) then 366 else 365
  }

  function DaysInMonth(y: int, m: int): (n: int)
    requires 1 <= m <= 12
    ensures 28 <= n <= 31
  {
    if m == 2 then (if IsLeapYear(y) then 29 else 28)
    else if m == 4 || m == 6 || m == 9 || m == 11 then 30
    else 31
  }

  /** Days of year `y` before the first of month `m`; `m == 13` gives the whole year. */
  function DaysBeforeMonth(y: int, m: int): int
    requires 1 <= m <= 13
  {
    var common :=
      if m == 1 then 0 else if m == 2 then 31 else if m == 3 then 59
      else if m == 4 then 90 else if m == 5 then 120 else if m == 6 then 151
      else if m == 7 then 181 else if m == 8 then 212 else if m == 9 then 243
      else if m == 10 then 273 else if m == 11 then 304 else if m == 12 then 334
      else 365;
    if m > 2 && IsLeapYear(y) then common + 1 else common
  }

  lemma MonthStep(y: int, m: int)
    requires 1 <= m <= 12
    ensures DaysBeforeMonth(y, m + 1) == DaysBeforeMonth(y, m) + DaysInMonth(y, m)
    ensures DaysBeforeMonth(y, 13) == DaysInYear(y)
  {
  }

  /** A month that starts later starts after every earlier month has ended. */
  lemma {:induction false} MonthsOrdered(y: int, m1: int, m2: int)
    requires 1 <= m1 < m2 <= 13
    ensures DaysBeforeMonth(y, m1) + DaysInMonth(y, m1) <= DaysBeforeMonth(y, m2)
    decreases m2 - m1
  {
    MonthStep(y, m1);
    if m1 + 1 < m2 {
      MonthsOrdered(y, m1 + 1, m2);
      MonthStep(y, m1 + 1);
    }
  }

  predicate ValidDate(d: Date) {
    1 <= d.month <= 12 && 1 <= d.day <= DaysInMonth(d.year, d.month)
  }

  /** The dates Python's `datetime.date` can hold. */
  predicate PythonDate(d: Date) {
    ValidDate(d) && 1 <= d.year <= 9999
  }

  predicate ValidDateTime(dt: DateTime) {
    && ValidDate(dt.date)
    && 0 <= dt.hour < 24 && 0 <= dt.minute < 60 && 0 <= dt.second < 60
  }

  /** Leap years among the years before `y` (counted from a fixed origin, floor division). */
  function LeapYearsBefore(y: int): int {
    (y - 1) / 4 - (y - 1) / 100 + (y - 1) / 400
  }

  /** Day number of January 1st of year `y`. */
  function DaysBeforeYear(y: int): int {
    365 * (y - 1970) + LeapYearsBefore(y) - LeapYearsBefore(1970)
  }

  /** Floor division by 4, 100 or 400 steps up by one exactly at the multiples. */
  lemma DivStep4(y: int)
    ensures y / 4 == (y - 1) / 4 + (if y % 4 == 0 then 1 else 0)
  {
  }

  lemma DivStep100(y: int)
    ensures y / 100 == (y - 1) / 100 + (if y % 100 == 0 then 1 else 0)
  {
  }

  lemma DivStep400(y: int)
    ensures y / 400 == (y - 1) / 400 + (if y % 400 == 0 then 1 else 0)
  {
  }

  lemma MultiplesNest(y: int)
    ensures y % 100 == 0 ==> y % 4 == 0
    ensures y % 400 == 0 ==> y % 100 == 0
  {
    if y % 100 == 0 {
      assert y == 4 * (25 * (y / 100));
    }
    if y % 400 == 0 {
      assert y == 100 * (4 * (y / 400));
    }
  }

  /** Consecutive New Year's days are one year length apart. */
  lemma YearStep(y: int)
    ensures DaysBeforeYear(y + 1) == DaysBeforeYear(y) + DaysInYear(y)
  {
    DivStep4(y);
    DivStep100(y);
    DivStep400(y);
    MultiplesNest(y);
  }

  /** Day numbers of New Year's days grow by at least 365 a year. */
  lemma {:induction false} YearsMonotone(a: int, b: int)
    requires a <= b
    ensures DaysBeforeYear(a) + 365 * (b - a) <= DaysBeforeYear(b)
    decreases b - a
  {
    if a < b {
      YearsMonotone(a, b - 1);
      YearStep(b - 1);
    }
  }

  /** The calendar repeats every 400 years, which are 146097 days. */
  lemma Period400(y: int)
    ensures DaysBeforeYear(y + 400) == DaysBeforeYear(y) + DaysPerEra
  {
    assert (y + 399) / 4 == (y - 1) / 4 + 100;
    assert (y + 399) / 100 == (y - 1) / 100 + 4;
    assert (y + 399) / 400 == (y - 1) / 400 + 1;
  }

  /** Era `e` (400 years from 1970 + 400e) starts on day 146097e. */
  lemma {:induction false} EraStart(e: int)
    ensures DaysBeforeYear(1970 + 400 * e) == DaysPerEra * e
    decreases if e < 0 then -e else e
  {
    if e > 0 {
      EraStart(e - 1);
      Period400(1970 + 400 * (e - 1));
    } else if e < 0 {
      EraStart(e + 1);
      Period400(1970 + 400 * e);
    }
  }

  /** Day number of a date: the inverse of `CivilFromDays`. */
  function DaysFromCivil(d: Date): int
    requires ValidDate(d)
  {
    DaysBeforeYear(d.year) + DaysBeforeMonth(d.year, d.month) + d.day - 1
  }

  /** A date's day number falls inside its own year. */
  lemma DayNumberInYear(d: Date)
    requires ValidDate(d)
    ensures DaysBeforeYear(d.year) <= DaysFromCivil(d) < DaysBeforeYear(d.year + 1)
  {
    YearStep(d.year);
    MonthsOrdered(d.year, d.month, 13);
    MonthStep(d.year, 12);
  }

  /** A date in an earlier year has a smaller day number. */
  lemma EarlierYearFewerDays(a: Date, b: Date)
    requires ValidDate(a) && ValidDate(b) && a.year < b.year
    ensures DaysFromCivil(a) < DaysFromCivil(b)
  {
    DayNumberInYear(a);
    DayNumberInYear(b);
    YearsMonotone(a.year + 1, b.year);
  }

  /** Python's `date` ordering: by year, then month, then day. */
  predicate DateBefore(a: Date, b: Date) {
    a.year < b.year
    || (a.year == b.year && a.month < b.month)
    || (a.year == b.year && a.month == b.month && a.day < b.day)
  }

  /** An earlier date has a smaller day number. */
  lemma DateBeforeFewerDays(a: Date, b: Date)
    requires ValidDate(a) && ValidDate(b) && DateBefore(a, b)
    ensures DaysFromCivil(a) < DaysFromCivil(b)
  {
    if a.year < b.year {
      EarlierYearFewerDays(a, b);
    } else if a.month < b.month {
      MonthsOrdered(a.year, a.month, b.month);
    }
  }

  /** Distinct valid dates have distinct day numbers. */
  lemma DaysFromCivilInjective(a: Date, b: Date)
    requires ValidDate(a) && ValidDate(b)
    ensures DaysFromCivil(a) == DaysFromCivil(b) ==> a == b
  {
    if DateBefore(a, b) {
      DateBeforeFewerDays(a, b);
    } else if DateBefore(b, a) {
      DateBeforeFewerDays(b, a);
    }
  }

  /** Comparing dates is comparing their day numbers. */
  lemma DateBeforeIsDayOrder(a: Date, b: Date)
    requires ValidDate(a) && ValidDate(b)
    ensures DateBefore(a, b) <==> DaysFromCivil(a) < DaysFromCivil(b)
  {
    if DateBefore(a, b) {
      DateBeforeFewerDays(a, b);
    } else if DateBefore(b, a) {
      DateBeforeFewerDays(b, a);
    }
  }

  /** Walks forward from January 1st of `y` over `k` days, one whole year at a time. */
  function YearWalk(y: int, k: int): (r: (int, int))
    requires 0 <= k
    ensures y <= r.0 && 0 <= r.1 < DaysInYear(r.0)
    ensures DaysBeforeYear(r.0) + r.1 == DaysBeforeYear(y) + k
    decreases k
  {
    if k < DaysInYear(y) then (y, k)
    else YearStep(y); YearWalk(y + 1, k - DaysInYear(y))
  }

  /** Fewer days than an era never walk past the era's 400 years. */
  lemma YearWalkWithinEra(y: int, k: int)
    requires 0 <= k < DaysPerEra
    ensures YearWalk(y, k).0 < y + 400
  {
    var r := YearWalk(y, k);
    Period400(y);
    if r.0 >= y + 400 {
      YearsMonotone(y + 400, r.0);
    }
  }

  /** Walks forward from the first of month `m` over `k` days, one whole month at a time. */
  function MonthWalk(y: int, m: int, k: int): (r: (int, int))
    requires 1 <= m <= 12 && 0 <= k
    requires DaysBeforeMonth(y, m) + k < DaysInYear(y)
    ensures m <= r.0 <= 12 && 1 <= r.1 <= DaysInMonth(y, r.0)
    ensures DaysBeforeMonth(y, r.0) + r.1 - 1 == DaysBeforeMonth(y, m) + k
    decreases 12 - m
  {
    MonthStep(y, m);
    if k < DaysInMonth(y, m) then (m, k + 1)
    else MonthWalk(y, m + 1, k - DaysInMonth(y, m))
  }

  /** The date of day number `z`. */
  function CivilFromDays(z: int): (d: Date)
    ensures ValidDate(d) && DaysFromCivil(d) == z
    ensures 1970 + 400 * (z / DaysPerEra) <= d.year < 1970 + 400 * (z / DaysPerEra) + 400
  {
    var era := z / DaysPerEra;
    var start := 1970 + 400 * era;
    var yd := YearWalk(start, z % DaysPerEra);
    var md := MonthWalk(yd.0, 1, yd.1);
    EraStart(era);
    YearWalkWithinEra(start, z % DaysPerEra);
    Date(yd.0, md.0, md.1)
  }

  /** Every valid date is found again from its day number. */
  lemma CivilFromDaysOfCivil(d: Date)
    requires ValidDate(d)
    ensures CivilFromDays(DaysFromCivil(d)) == d
  {
    DaysFromCivilInjective(CivilFromDays(DaysFromCivil(d)), d);
  }

  /** Seconds since the epoch of a date and time of day. */
  function ToEpochSeconds(dt: DateTime): int
    requires ValidDate(dt.date)
  {
    DaysFromCivil(dt.date) * SecondsPerDay + dt.hour * 3600 + dt.minute * 60 + dt.second
  }

  /** Seconds into a day split into hours, minutes and seconds, and joined back. */
  lemma SplitSecondsOfDay(secs: int)
    requires 0 <= secs < SecondsPerDay
    ensures 0 <= secs / 3600 < 24 && 0 <= secs % 3600 / 60 < 60 && 0 <= secs % 60 < 60
    ensures secs / 3600 * 3600 + secs % 3600 / 60 * 60 + secs % 60 == secs
  {
  }

  /** Hours, minutes and seconds of a time of day are read back from its seconds. */
  lemma JoinSecondsOfDay(h: int, m: int, s: int)
    requires 0 <= h < 24 && 0 <= m < 60 && 0 <= s < 60
    ensures var secs := h * 3600 + m * 60 + s;
      0 <= secs < SecondsPerDay && secs / 3600 == h && secs % 3600 / 60 == m && secs % 60 == s
  {
    var secs := h * 3600 + m * 60 + s;
    assert secs % 3600 == m * 60 + s;
  }

  /** An instant is its day number times a day plus the seconds into that day, uniquely. */
  lemma DaysAndSeconds(days: int, secs: int)
    requires 0 <= secs < SecondsPerDay
    ensures (days * SecondsPerDay + secs) / SecondsPerDay == days
    ensures (days * SecondsPerDay + secs) % SecondsPerDay == secs
  {
  }

  /** The naive-UTC date and time of an instant. */
  function FromEpochSeconds(t: int): (dt: DateTime)
    ensures ValidDateTime(dt) && ToEpochSeconds(dt) == t
  {
    var secs := t % SecondsPerDay;
    SplitSecondsOfDay(secs);
    DateTime(CivilFromDays(t / SecondsPerDay), secs / 3600, secs % 3600 / 60, secs % 60)
  }

  lemma FromEpochSecondsOfDateTime(dt: DateTime)
    requires ValidDateTime(dt)
    ensures FromEpochSeconds(ToEpochSeconds(dt)) == dt
  {
    var days := DaysFromCivil(dt.date);
    var secs := dt.hour * 3600 + dt.minute * 60 + dt.second;
    JoinSecondsOfDay(dt.hour, dt.minute, dt.second);
    DaysAndSeconds(days, secs);
    CivilFromDaysOfCivil(dt.date);
    var t := days * SecondsPerDay + secs;
    assert ToEpochSeconds(dt) == t;
    assert t / SecondsPerDay == days && t % SecondsPerDay == secs;
  }

  /** Every instant pandas can represent lies in a year Python's `date` can hold. */
  lemma TimestampYearInRange(t: Timestamp)
    ensures PythonDate(FromEpochSeconds(t).date)
    ensures 1677 <= FromEpochSeconds(t).date.year <= 2262
  {
    var z := t / SecondsPerDay;
    assert -106753 <= z <= 106751;
    assert z / DaysPerEra == -1 || z / DaysPerEra == 0;
    var d := FromEpochSeconds(t).date;
    assert d == CivilFromDays(z);
    if d.year < 1677 {
      YearsMonotone(d.year + 1, 1677);
      DayNumberInYear(d);
      assert false;
    }
    if d.year > 2262 {
      YearsMonotone(2263, d.year);
      assert false;
    }
  }

  // ---- the calendar attributes of a pandas Timestamp ----

  /** `Timestamp.hour`. */
  function Hour(t: int): (h: int)
    ensures 0 <= h <= 23
  {
    FromEpochSeconds(t).hour
  }

  /** `Timestamp.dayofweek`: Monday is 0 and Sunday is 6 (1970-01-01 was a Thursday). */
  function DayOfWeek(t: int): (w: int)
    ensures 0 <= w <= 6
  {
    (t / SecondsPerDay + 3) % 7
  }

  /** `Timestamp.month`. */
  function Month(t: int): (m: int)
    ensures 1 <= m <= 12
  {
    FromEpochSeconds(t).date.month
  }

  /** `Timestamp.dayofyear`: January 1st is 1. */
  function DayOfYear(t: int): (n: int)
    ensures 1 <= n <= 366
    ensures n <= DaysInYear(FromEpochSeconds(t).date.year)
  {
    var d := FromEpochSeconds(t).date;
    MonthsOrdered(d.year, d.month, 13);
    MonthStep(d.year, 12);
    DaysBeforeMonth(d.year, d.month) + d.day
  }

  /** The day of the week advances by one, cyclically, from each day to the next. */
  lemma DayOfWeekNextDay(t: int)
    ensures DayOfWeek(t + SecondsPerDay) == (DayOfWeek(t) + 1) % 7
  {
    assert (t + SecondsPerDay) / SecondsPerDay == t / SecondsPerDay + 1;
  }

  /** 1970-01-05 was a Monday: day number 4 has day of week 0. */
  lemma MondayIsZero()
    ensures DayOfWeek(DaysFromCivil(Date(1970, 1, 5)) * SecondsPerDay) == 0
  {
  }

  /** The day of year counts the days since January 1st of the same year, from 1. */
  lemma DayOfYearCountsFromNewYear(t: int)
    ensures DayOfYear(t) == t / SecondsPerDay - DaysBeforeYear(FromEpochSeconds(t).date.year) + 1
  {
  }

  // ---- text forms ----

  /** `strftime('%Y-%m-%d')` (and the date part of `isoformat()`). */
  function FormatDate(d: Date): (s: string)
    requires ValidDate(d) && 0 <= d.year <= 9999
    ensures |s| == 10
  {
    Pad4(d.year) + "-" + Pad2(d.month) + "-" + Pad2(d.day)
  }

  /**
   * `strptime(s, '%Y-%m-%d')` restricted to zero-padded month and day:
   * four digits, `-`, two digits, `-`, two digits, naming a real date.
   */
  function ParseDate(s: string): (r: Option<Date>)
    ensures r.Some? ==> PythonDate(r.value)
  {
    if |s| == 10 && s[4] == '-' && s[7] == '-'
       && AllDigits(s[..4]) && AllDigits(s[5..7]) && AllDigits(s[8..])
    then
      Pad4OfValue(s[..4]);
      var d := Date(DigitsValue(s[..4]), DigitsValue(s[5..7]), DigitsValue(s[8..]));
      if ValidDate(d) && 1 <= d.year then Some(d) else None
    else None
  }

  lemma FormatDateRoundTrip(d: Date)
    requires PythonDate(d)
    ensures ParseDate(FormatDate(d)) == Some(d)
  {
    var s := FormatDate(d);
    assert s[..4] == Pad4(d.year);
    assert s[5..7] == Pad2(d.month);
    assert s[8..] == Pad2(d.day);
    Pad4RoundTrip(d.year);
    Pad2RoundTrip(d.month);
    Pad2RoundTrip(d.day);
  }

  lemma ParseDateRoundTrip(s: string)
    requires ParseDate(s).Some?
    ensures FormatDate(ParseDate(s).value) == s
  {
    Pad4OfValue(s[..4]);
    Pad2OfValue(s[5..7]);
    Pad2OfValue(s[8..]);
    assert s == s[..4] + "-" + s[5..7] + "-" + s[8..];
  }

  /** `strftime('%Y-%m-%d %H:%M:%S')`. */
  function FormatDateTime(dt: DateTime): (s: string)
    requires ValidDateTime(dt) && 0 <= dt.date.year <= 9999
    ensures |s| == 19
  {
    FormatDate(dt.date) + " " + Pad2(dt.hour) + ":" + Pad2(dt.minute) + ":" + Pad2(dt.second)
  }

  /** Reads back the `%Y-%m-%d %H:%M:%S` form. */
  function ParseDateTime(s: string): (r: Option<DateTime>)
    ensures r.Some? ==> ValidDateTime(r.value) && PythonDate(r.value.date)
  {
    if |s| == 19 && s[10] == ' ' && s[13] == ':' && s[16] == ':'
       && AllDigits(s[11..13]) && AllDigits(s[14..16]) && AllDigits(s[17..])
    then
      match ParseDate(s[..10])
      case None => None
      case Some(d) =>
        var dt := DateTime(d, DigitsValue(s[11..13]), DigitsValue(s[14..16]), DigitsValue(s[17..]));
        if ValidDateTime(dt) then Some(dt) else None
    else None
  }

  lemma FormatDateTimeRoundTrip(dt: DateTime)
    requires ValidDateTime(dt) && PythonDate(dt.date)
    ensures ParseDateTime(FormatDateTime(dt)) == Some(dt)
  {
    var s := FormatDateTime(dt);
    assert s[..10] == FormatDate(dt.date);
    assert s[11..13] == Pad2(dt.hour);
    assert s[14..16] == Pad2(dt.minute);
    assert s[17..] == Pad2(dt.second);
    FormatDateRoundTrip(dt.date);
    Pad2RoundTrip(dt.hour);
    Pad2RoundTrip(dt.minute);
    Pad2RoundTrip(dt.second);
  }
}
