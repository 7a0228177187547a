/** The part of Python's `datetime` the connectors use, for naive UTC values with whole
    seconds: the proleptic Gregorian calendar of years 1..9999, instants counted in seconds
    from 0001-01-01T00:00:00, `strptime(s, "%Y-%m-%dT%H:%M:%SZ")`, `strftime('%Y-%m-%d')`
    and `str(datetime)`. */
module Calendar {
  import opened Wrappers
  import opened Decimal

  datatype DateTime = DateTime(year: int, month: int, day: int, hour: int, minute: int, second: int)

  const SECONDS_PER_DAY := 86400
  /** The ordinal of `date.max` (9999-12-31), which is also the number of days from
      0001-01-01 to 10000-01-01. */
  const MAX_ORDINAL := 3652059
  /** Seconds from `datetime.min` to one second past `datetime.max` (whole seconds). */
  const MAX_INSTANT := 315537897600

  predicate IsLeapYear(y: int)
  {
    y % 4 == 0 && (y % 100 != 0 || y % 400 == 0)
  }

  function DaysInYear(y: int): int
  {
    if IsLeapYear(y) then 366 else 365
  }

  function DaysInMonth(y: int, m: int): (n: int)
    requires 1 <= m <= 12
    ensures 28 <= n <= 31
  {
    if m == 2 then (if IsLeapYear(y) then 29 else 28)
    else if m == 4 || m == 6 || m == 9 || m == 11 then 30
    else 31
  }

  /** Days in the months of year `y` before month `m`. */
  function DaysBeforeMonth(y: int, m: int): (n: int)
    requires 1 <= m <= 12
    ensures 0 <= n && n + DaysInMonth(y, m) <= DaysInYear(y)
    ensures m == 12 ==> n + DaysInMonth(y, m) == DaysInYear(y)
  {
    [0, 31, 59, 90, 120, 151, 181, 212, 243, 273, 304, 334][m - 1]
      + (if m > 2 && IsLeapYear(y) then 1 else 0)
  }

  /** Days in the years before year `y`, counted from year 1. */
  function DaysBeforeYear(y: int): (n: int)
    requires y >= 1
    ensures n >= 0
  {
    var a := y - 1;
    a * 365 + a / 4 - a / 100 + a / 400
  }

  predicate ValidDate(y: int, m: int, d: int)
  {
    1 <= y <= 9999 && 1 <= m <= 12 && 1 <= d <= DaysInMonth(y, m)
  }

  predicate Valid(t: DateTime)
  {
    ValidDate(t.year, t.month, t.day) &&
    0 <= t.hour < 24 && 0 <= t.minute < 60 && 0 <= t.second < 60
  }

  /** Day number of a date, 1 for 0001-01-01 (Python's `toordinal`). */
  function Ordinal(y: int, m: int, d: int): int
    requires ValidDate(y, m, d)
  {
    DaysBeforeYear(y) + DaysBeforeMonth(y, m) + d
  }

  /** Seconds from 0001-01-01T00:00:00 to `t`. */
  function Seconds(t: DateTime): int
    requires Valid(t)
  {
    (Ordinal(t.year, t.month, t.day) - 1) * 86400
      + t.hour * 3600 + t.minute * 60 + t.second
  }

  /** How `a / k` steps from `y - 1` to `y`, for the three divisors of the leap-year rule. */
  lemma DivisionStep(y: int)
    requires y >= 1
    ensures y / 4 == (y - 1) / 4 + (if y % 4 == 0 then 1 else 0)
    ensures y / 100 == (y - 1) / 100 + (if y % 100 == 0 then 1 else 0)
    ensures y / 400 == (y - 1) / 400 + (if y % 400 == 0 then 1 else 0)
    ensures y % 400 == 0 ==> y % 100 == 0
    ensures y % 100 == 0 ==> y % 4 == 0
  {
  }

  lemma DaysBeforeYearStep(y: int)
    requires y >= 1
    ensures DaysBeforeYear(y + 1) == DaysBeforeYear(y) + DaysInYear(y)
  {
    DivisionStep(y);
  }

  lemma {:induction false} DaysBeforeYearMonotone(a: int, b: int)
    requires 1 <= a <= b
    ensures DaysBeforeYear(a) + 365 * (b - a) <= DaysBeforeYear(b)
    decreases b - a
  {
    if a < b {
      DaysBeforeYearMonotone(a, b - 1);
      DaysBeforeYearStep(b - 1);
    }
  }

  lemma DaysBeforeYearUpperBound(y: int)
    requires y >= 1
    ensures DaysBeforeYear(y) <= 366 * (y - 1)
  {
  }

  /** The year whose days contain day number `n`, searched upward from year `y`. */
  function YearSearch(n: int, y: int): (r: int)
    requires 1 <= y <= 9999 && DaysBeforeYear(y) < n <= MAX_ORDINAL
    ensures y <= r <= 9999
    ensures DaysBeforeYear(r) < n <= DaysBeforeYear(r) + DaysInYear(r)
    decreases 9999 - y
  {
    if n <= DaysBeforeYear(y) + DaysInYear(y) then y
    else
      DaysBeforeYearStep(y);
      assert y < 9999;
      YearSearch(n, y + 1)
  }

  /** The month of year `y` that holds its `k`-th day, searched upward from month `m`. */
  function MonthSearch(y: int, k: int, m: int): (r: int)
    requires 1 <= m <= 12 && DaysBeforeMonth(y, m) < k <= DaysInYear(y)
    ensures m <= r <= 12
    ensures DaysBeforeMonth(y, r) < k <= DaysBeforeMonth(y, r) + DaysInMonth(y, r)
    decreases 12 - m
  {
    if k <= DaysBeforeMonth(y, m) + DaysInMonth(y, m) then m
    else
      DaysBeforeMonthStep(y, m);
      MonthSearch(y, k, m + 1)
  }

  /** The date with day number `n` (Python's `date.fromordinal`). */
  function FromOrdinal(n: int): (r: (int, int, int))
    requires 1 <= n <= MAX_ORDINAL
    ensures ValidDate(r.0, r.1, r.2) && Ordinal(r.0, r.1, r.2) == n
  {
    var start := (n - 1) / 366 + 1;
    DaysBeforeYearUpperBound(start);
    var y := YearSearch(n, start);
    var m := MonthSearch(y, n - DaysBeforeYear(y), 1);
    (y, m, n - DaysBeforeYear(y) - DaysBeforeMonth(y, m))
  }

  /** Day numbers and dates are in one-to-one correspondence. */
  lemma OrdinalRoundTrip(y: int, m: int, d: int)
    requires ValidDate(y, m, d)
    ensures 1 <= Ordinal(y, m, d) <= MAX_ORDINAL
    ensures FromOrdinal(Ordinal(y, m, d)) == (y, m, d)
  {
    var n := Ordinal(y, m, d);
    OrdinalInRange(y, m, d);
    var r := FromOrdinal(n);
    YearUnique(n, y, r.0);
    MonthUnique(y, n - DaysBeforeYear(y), m, r.1);
    assert r.0 == y && r.1 == m && r.2 == d;
  }

  /** A valid date's day number lies between 1 and that of 9999-12-31, and the year's days
      surround it. */
  lemma OrdinalInRange(y: int, m: int, d: int)
    requires ValidDate(y, m, d)
    ensures 1 <= Ordinal(y, m, d) <= MAX_ORDINAL
    ensures DaysBeforeYear(y) < Ordinal(y, m, d) <= DaysBeforeYear(y) + DaysInYear(y)
    ensures DaysBeforeMonth(y, m) < Ordinal(y, m, d) - DaysBeforeYear(y) <= DaysBeforeMonth(y, m) + DaysInMonth(y, m)
  {
    DaysBeforeYearStep(y);
    DaysBeforeYearMonotone(y + 1, 10000);
  }

  lemma YearUnique(n: int, a: int, b: int)
    requires 1 <= a && 1 <= b
    requires DaysBeforeYear(a) < n <= DaysBeforeYear(a) + DaysInYear(a)
    requires DaysBeforeYear(b) < n <= DaysBeforeYear(b) + DaysInYear(b)
    ensures a == b
  {
    if a < b {
      DaysBeforeYearStep(a);
      DaysBeforeYearMonotone(a + 1, b);
    } else if b < a {
      DaysBeforeYearStep(b);
      DaysBeforeYearMonotone(b + 1, a);
    }
  }

  lemma DaysBeforeMonthStep(y: int, m: int)
    requires 1 <= m < 12
    ensures DaysBeforeMonth(y, m + 1) == DaysBeforeMonth(y, m) + DaysInMonth(y, m)
  {
  }

  lemma {:induction false} DaysBeforeMonthMonotone(y: int, a: int, b: int)
    requires 1 <= a <= b <= 12
    ensures DaysBeforeMonth(y, a) + (if a < b then DaysInMonth(y, a) else 0) <= DaysBeforeMonth(y, b)
    decreases b - a
  {
    if a < b {
      DaysBeforeMonthStep(y, b - 1);
      if a + 1 < b {
        DaysBeforeMonthMonotone(y, a, b - 1);
      }
    }
  }

  lemma MonthUnique(y: int, k: int, a: int, b: int)
    requires 1 <= a <= 12 && 1 <= b <= 12
    requires DaysBeforeMonth(y, a) < k <= DaysBeforeMonth(y, a) + DaysInMonth(y, a)
    requires DaysBeforeMonth(y, b) < k <= DaysBeforeMonth(y, b) + DaysInMonth(y, b)
    ensures a == b
  {
    if a < b {
      DaysBeforeMonthMonotone(y, a, b);
    } else if b < a {
      DaysBeforeMonthMonotone(y, b, a);
    }
  }

  /** A time of day is its hours, minutes and seconds, each in range. */
  lemma ClockSplit(rest: int)
    requires 0 <= rest < SECONDS_PER_DAY
    ensures 0 <= rest / 3600 < 24 && 0 <= rest % 3600 / 60 < 60 && 0 <= rest % 60 < 60
    ensures rest / 3600 * 3600 + rest % 3600 / 60 * 60 + rest % 60 == rest
  {
    assert rest % 3600 / 60 * 60 + rest % 60 == rest % 3600;
  }

  lemma DaySplit(t: int, days: int, clock: int)
    requires 0 <= clock < SECONDS_PER_DAY && t == days * SECONDS_PER_DAY + clock
    ensures t / SECONDS_PER_DAY == days && t % SECONDS_PER_DAY == clock
  {
  }

  /** The date and time `t` seconds after 0001-01-01T00:00:00. */
  function FromSeconds(t: int): (r: DateTime)
    requires 0 <= t < MAX_INSTANT
    ensures Valid(r) && Seconds(r) == t
    ensures Ordinal(r.year, r.month, r.day) == t / SECONDS_PER_DAY + 1
    ensures (r.year, r.month, r.day) == FromOrdinal(t / SECONDS_PER_DAY + 1)
    ensures ClockSeconds(r) == t % SECONDS_PER_DAY
  {
    var date := FromOrdinal(t / SECONDS_PER_DAY + 1);
    var rest := t % SECONDS_PER_DAY;
    ClockSplit(rest);
    DateTime(date.0, date.1, date.2, rest / 3600, rest % 3600 / 60, rest % 60)
  }

  function ClockSeconds(t: DateTime): int
  {
    t.hour * 3600 + t.minute * 60 + t.second
  }

  lemma ClockFields(t: DateTime)
    requires Valid(t)
    ensures 0 <= ClockSeconds(t) < SECONDS_PER_DAY
    ensures ClockSeconds(t) / 3600 == t.hour
    ensures ClockSeconds(t) % 3600 / 60 == t.minute
    ensures ClockSeconds(t) % 60 == t.second
  {
    var c := ClockSeconds(t);
    assert c % 3600 == t.minute * 60 + t.second;
  }

  /** Distinct dates have distinct day numbers. */
  lemma OrdinalInjective(a: DateTime, b: DateTime)
    requires ValidDate(a.year, a.month, a.day) && ValidDate(b.year, b.month, b.day)
    requires Ordinal(a.year, a.month, a.day) == Ordinal(b.year, b.month, b.day)
    ensures a.year == b.year && a.month == b.month && a.day == b.day
  {
    var n := Ordinal(a.year, a.month, a.day);
    YearUnique(n, a.year, b.year);
    MonthUnique(a.year, n - DaysBeforeYear(a.year), a.month, b.month);
  }

  /** Every valid date and time is an instant in range, and converting back recovers it. */
  lemma SecondsRoundTrip(t: DateTime)
    requires Valid(t)
    ensures 0 <= Seconds(t) < MAX_INSTANT
    ensures FromSeconds(Seconds(t)) == t
  {
    var n := Ordinal(t.year, t.month, t.day);
    var s := Seconds(t);
    assert 1 <= n <= MAX_ORDINAL by {
      OrdinalRoundTrip(t.year, t.month, t.day);
    }
    assert s / SECONDS_PER_DAY == n - 1 && s % SECONDS_PER_DAY == ClockSeconds(t) by {
      ClockFields(t);
      DaySplit(s, n - 1, ClockSeconds(t));
    }
    var r := FromSeconds(s);
    OrdinalInjective(r, t);
    assert r.hour == t.hour && r.minute == t.minute && r.second == t.second by {
      ClockFields(t);
      ClockFields(r);
    }
  }

  /** `datetime` compares field by field, most significant first. */
  predicate Before(a: DateTime, b: DateTime)
  {
    a.year < b.year ||
    (a.year == b.year && (a.month < b.month ||
    (a.month == b.month && (a.day < b.day ||
    (a.day == b.day && (a.hour < b.hour ||
    (a.hour == b.hour && (a.minute < b.minute ||
    (a.minute == b.minute && a.second < b.second)))))))))
  }

  predicate DateBefore(a: DateTime, b: DateTime)
  {
    a.year < b.year ||
    (a.year == b.year && (a.month < b.month || (a.month == b.month && a.day < b.day)))
  }

  lemma OrdinalOrder(a: DateTime, b: DateTime)
    requires Valid(a) && Valid(b) && DateBefore(a, b)
    ensures Ordinal(a.year, a.month, a.day) < Ordinal(b.year, b.month, b.day)
  {
    if a.year < b.year {
      DaysBeforeYearStep(a.year);
      DaysBeforeYearMonotone(a.year + 1, b.year);
    } else if a.month < b.month {
      DaysBeforeMonthMonotone(a.year, a.month, b.month);
    }
  }

  /** Counting seconds orders instants as Python's datetime comparison does, so comparing
      `Seconds` models `<`, `>=`, `max` and `min` of datetimes. */
  lemma SecondsOrderIsChronological(a: DateTime, b: DateTime)
    requires Valid(a) && Valid(b)
    ensures Before(a, b) <==> Seconds(a) < Seconds(b)
  {
    var ca, cb := ClockSeconds(a), ClockSeconds(b);
    assert Seconds(a) == (Ordinal(a.year, a.month, a.day) - 1) * SECONDS_PER_DAY + ca;
    assert Seconds(b) == (Ordinal(b.year, b.month, b.day) - 1) * SECONDS_PER_DAY + cb;
    if DateBefore(a, b) {
      OrdinalOrder(a, b);
    } else if DateBefore(b, a) {
      OrdinalOrder(b, a);
    } else {
      assert a.year == b.year && a.month == b.month && a.day == b.day;
    }
  }

  /** `strftime('%Y-%m-%d')`. */
  function FormatDate(t: DateTime): (s: string)
    requires Valid(t)
    ensures |s| == 10
  {
    Pad(t.year, 4) + "-" + Pad(t.month, 2) + "-" + Pad(t.day, 2)
  }

  function FormatClock(t: DateTime): (s: string)
    requires Valid(t)
    ensures |s| == 8
  {
    Pad(t.hour, 2) + ":" + Pad(t.minute, 2) + ":" + Pad(t.second, 2)
  }

  /** `str(t)`: the ISO form with a space separator (no microseconds, no offset). */
  function Render(t: DateTime): (s: string)
    requires Valid(t)
    ensures |s| == 19
  {
    FormatDate(t) + " " + FormatClock(t)
  }

  /** The API's timestamp form, `strftime("%Y-%m-%dT%H:%M:%SZ")`. */
  function FormatTimestamp(t: DateTime): (s: string)
    requires Valid(t)
    ensures |s| == 20
  {
    FormatDate(t) + "T" + FormatClock(t) + "Z"
  }

  /** The 20-character shape `DDDD-DD-DDTDD:DD:DDZ`. */
  predicate TimestampShape(s: string)
  {
    |s| == 20 &&
    DigitsAt(s, 0, 4) && s[4] == '-' && DigitsAt(s, 5, 2) && s[7] == '-' &&
    DigitsAt(s, 8, 2) && s[10] == 'T' && DigitsAt(s, 11, 2) && s[13] == ':' &&
    DigitsAt(s, 14, 2) && s[16] == ':' && DigitsAt(s, 17, 2) && s[19] == 'Z'
  }

  /** `strptime(s, "%Y-%m-%dT%H:%M:%SZ")` on the canonical spelling the API sends: ASCII
      digits, zero-padded fields, upper-case `T` and `Z`. `None` for any other shape and
      for fields that are not a real date and time. Python raises `ValueError` for all of
      these except the other spellings its parser tolerates (one-digit or space-padded
      fields, lower-case `t`/`z`, non-ASCII digits), which the model rejects too. */
  function ParseTimestamp(s: string): (r: Option<DateTime>)
    ensures r.Some? ==> Valid(r.value)
  {
    if !TimestampShape(s) then None
    else
      var t := DateTime(FieldValue(s, 0, 4), FieldValue(s, 5, 2), FieldValue(s, 8, 2),
                        FieldValue(s, 11, 2), FieldValue(s, 14, 2), FieldValue(s, 17, 2));
      if Valid(t) then Some(t) else None
  }

  /** Formatting then parsing a timestamp is the identity. */
  lemma ParseFormattedTimestamp(t: DateTime)
    requires Valid(t)
    ensures ParseTimestamp(FormatTimestamp(t)) == Some(t)
  {
    var s := FormatTimestamp(t);
    FieldOfPad(s, 0, t.year, 4);
    FieldOfPad(s, 5, t.month, 2);
    FieldOfPad(s, 8, t.day, 2);
    FieldOfPad(s, 11, t.hour, 2);
    FieldOfPad(s, 14, t.minute, 2);
    FieldOfPad(s, 17, t.second, 2);
  }

  /** A 20-character string cut at the timestamp's separators, grouped as the formatter
      joins its parts. */
  lemma TimestampPieces(s: string)
    requires |s| == 20
    ensures s == ((s[0..4] + [s[4]] + s[5..7] + [s[7]] + s[8..10]) + [s[10]]
                 + (s[11..13] + [s[13]] + s[14..16] + [s[16]] + s[17..19])) + [s[19]]
  {
  }

  /** The model's parser accepts only the canonical form: whatever it parses formats back
      to the input. */
  lemma ParsedTimestampIsCanonical(s: string)
    requires ParseTimestamp(s).Some?
    ensures FormatTimestamp(ParseTimestamp(s).value) == s
  {
    PadOfField(s, 0, 4);
    PadOfField(s, 5, 2);
    PadOfField(s, 8, 2);
    PadOfField(s, 11, 2);
    PadOfField(s, 14, 2);
    PadOfField(s, 17, 2);
    TimestampPieces(s);
  }
}
