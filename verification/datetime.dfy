/** `convert_to_datetime`: epoch milliseconds to the UTC text `YYYY-MM-DDTHH:MM:SSZ`,
    computed on integers with the proleptic Gregorian calendar. */
module DateTime {
  import opened JsonValues

  predicate IsLeap(y: int)
  {
    y % 4 == 0 && (y % 100 != 0 || y % 400 == 0)
  }

  function DaysInYear(y: int): int
  {
    if IsLeap(y) then 366 else 365
  }

  function DaysInMonth(y: int, m: int): int
    requires 1 <= m <= 12
  {
    if m == 2 then (if IsLeap(y) then 29 else 28)
    else if m == 4 || m == 6 || m == 9 || m == 11 then 30
    else 31
  }

  /** Days of year `y` before the first of month `m` (13 stands for the end of the year). */
  function DaysBeforeMonth(y: int, m: int): int
    requires 1 <= m <= 13
  {
    [0, 31, 59, 90, 120, 151, 181, 212, 243, 273, 304, 334, 365][m - 1]
      + (if m > 2 && IsLeap(y) then 1 else 0)
  }

  lemma DaysBeforeNextMonth(y: int, m: int)
    requires 1 <= m <= 12
    ensures DaysBeforeMonth(y, m + 1) == DaysBeforeMonth(y, m) + DaysInMonth(y, m)
    ensures DaysBeforeMonth(y, 13) == DaysInYear(y)
  {
  }

  /** Days from 1970-01-01 to the first of January of year `y` (negative before 1970). */
  function DaysBeforeYear(y: int): int
    decreases if y >= 1970 then y - 1970 else 1970 - y
  {
    if y == 1970 then 0
    else if y > 1970 then DaysBeforeYear(y - 1) + DaysInYear(y - 1)
    else DaysBeforeYear(y + 1) - DaysInYear(y)
  }

  lemma DaysBeforeNextYear(y: int)
    ensures DaysBeforeYear(y + 1) == DaysBeforeYear(y) + DaysInYear(y)
  {
  }

  datatype Date = Date(year: int, month: int, day: int)

  predicate ValidDate(d: Date)
  {
    1 <= d.month <= 12 && 1 <= d.day <= DaysInMonth(d.year, d.month)
  }

  /** The day number of a calendar date, counted from 1970-01-01 = 0. */
  function DaysFromCivil(d: Date): int
    requires ValidDate(d)
  {
    DaysBeforeYear(d.year) + DaysBeforeMonth(d.year, d.month) + d.day - 1
  }

  /** Walks forward from the first of January of `y`, `r` days ahead, to the year that holds that day. */
  function YearUp(y: int, r: nat): (res: (int, nat))
    ensures res.1 < DaysInYear(res.0)
    ensures DaysBeforeYear(res.0) + res.1 == DaysBeforeYear(y) + r
    decreases r
  {
    DaysBeforeNextYear(y);
    if r < DaysInYear(y) then (y, r) else YearUp(y + 1, r - DaysInYear(y))
  }

  /** Walks backward from the first of January of `y`, `-r` days behind. */
  function YearDown(y: int, r: int): (res: (int, nat))
    requires r < 0
    ensures res.1 < DaysInYear(res.0)
    ensures DaysBeforeYear(res.0) + res.1 == DaysBeforeYear(y) + r
    decreases -r
  {
    DaysBeforeNextYear(y - 1);
    var r' := r + DaysInYear(y - 1);
    if r' >= 0 then (y - 1, r') else YearDown(y - 1, r')
  }

  /** The month and day of day `r` of year `y`, searching from month `m` on. */
  function MonthOf(y: int, m: int, r: nat): (d: Date)
    requires 1 <= m <= 12
    requires DaysBeforeMonth(y, m) + r < DaysInYear(y)
    ensures ValidDate(d) && d.year == y
    ensures DaysBeforeMonth(y, d.month) + d.day - 1 == DaysBeforeMonth(y, m) + r
    decreases 12 - m
  {
    DaysBeforeNextMonth(y, m);
    if r < DaysInMonth(y, m) then Date(y, m, r + 1)
    else MonthOf(y, m + 1, r - DaysInMonth(y, m))
  }

  /** The calendar date of day number `days`. */
  function CivilFromDays(days: int): (d: Date)
    ensures ValidDate(d) && DaysFromCivil(d) == days
  {
    var yr := if days >= 0 then YearUp(1970, days) else YearDown(1970, days);
    DaysBeforeNextMonth(yr.0, 12);
    MonthOf(yr.0, 1, yr.1)
  }

  lemma {:induction false} DaysBeforeYearMonotone(a: int, b: int)
    requires a < b
    ensures DaysBeforeYear(a) + DaysInYear(a) <= DaysBeforeYear(b)
    decreases b - a
  {
    DaysBeforeNextYear(a);
    if a + 1 < b {
      DaysBeforeYearMonotone(a + 1, b);
    }
  }

  lemma DaysBeforeMonthMonotone(y: int, a: int, b: int)
    requires 1 <= a < b <= 12
    ensures DaysBeforeMonth(y, a) + DaysInMonth(y, a) <= DaysBeforeMonth(y, b)
  {
  }

  /** Two valid dates with the same day number are the same date. */
  lemma DaysFromCivilInjective(d: Date, e: Date)
    requires ValidDate(d) && ValidDate(e)
    requires DaysFromCivil(d) == DaysFromCivil(e)
    ensures d == e
  {
    DaysBeforeNextMonth(d.year, 12);
    DaysBeforeNextMonth(e.year, 12);
    if d.year < e.year {
      DaysBeforeYearMonotone(d.year, e.year);
    } else if e.year < d.year {
      DaysBeforeYearMonotone(e.year, d.year);
    } else if d.month < e.month {
      DaysBeforeMonthMonotone(d.year, d.month, e.month);
    } else if e.month < d.month {
      DaysBeforeMonthMonotone(d.year, e.month, d.month);
    }
  }

  /** Going from a date to its day number and back gives the date again. */
  lemma CivilRoundTrip(d: Date)
    requires ValidDate(d)
    ensures CivilFromDays(DaysFromCivil(d)) == d
  {
    DaysFromCivilInjective(CivilFromDays(DaysFromCivil(d)), d);
  }

  /** A broken-down UTC time, as `datetime.utcfromtimestamp` gives it (seconds only). */
  datatype Stamp = Stamp(date: Date, hour: int, minute: int, second: int)

  predicate ValidStamp(t: Stamp)
  {
    ValidDate(t.date) && 1 <= t.date.year <= 9999
    && 0 <= t.hour < 24 && 0 <= t.minute < 60 && 0 <= t.second < 60
  }

  /** Whole seconds since the epoch that a valid stamp denotes. */
  function EpochSeconds(t: Stamp): int
    requires ValidStamp(t)
  {
    DaysFromCivil(t.date) * 86400 + t.hour * 3600 + t.minute * 60 + t.second
  }

  /** The UTC stamp of a whole number of seconds since the epoch; a year outside
      1..9999 is an error, as in `datetime`. */
  function UtcFromSeconds(secs: int): (r: Result<Stamp>)
    ensures r.Ok? ==> ValidStamp(r.value) && EpochSeconds(r.value) == secs
    ensures r.Err? ==> r.exc == ValueError
  {
    var d := CivilFromDays(secs / 86400);
    var sod := secs % 86400;
    if d.year < 1 || d.year > 9999 then Err(ValueError)
    else Ok(Stamp(d, sod / 3600, sod % 3600 / 60, sod % 60))
  }

  /** Two valid stamps that denote the same second are the same stamp. */
  lemma StampUnique(t: Stamp, u: Stamp)
    requires ValidStamp(t) && ValidStamp(u) && EpochSeconds(t) == EpochSeconds(u)
    ensures t == u
  {
    DaysFromCivilInjective(t.date, u.date);
  }

  /** `UtcFromSeconds` answers the one valid stamp that denotes the given second. */
  lemma UtcFromSecondsIs(secs: int, t: Stamp)
    requires ValidStamp(t) && EpochSeconds(t) == secs
    ensures UtcFromSeconds(secs) == Ok(t)
  {
    var days := DaysFromCivil(t.date);
    var sod := t.hour * 3600 + t.minute * 60 + t.second;
    assert secs == days * 86400 + sod && 0 <= sod < 86400;
    assert secs / 86400 == days;
    DaysFromCivilInjective(CivilFromDays(secs / 86400), t.date);
    StampUnique(UtcFromSeconds(secs).value, t);
  }

  /** Leap years among 1..n, for n >= 0 (Gregorian rule). */
  function Leaps(n: int): int
  {
    n / 4 - n / 100 + n / 400
  }

  lemma DivStep(y: int, k: int)
    requires k == 4 || k == 100 || k == 400
    ensures y / k - (y - 1) / k == if y % k == 0 then 1 else 0
  {
  }

  lemma LeapStep(y: int)
    ensures Leaps(y) - Leaps(y - 1) == if IsLeap(y) then 1 else 0
  {
    DivStep(y, 4);
    DivStep(y, 100);
    DivStep(y, 400);
    if y % 100 == 0 {
      assert y == 100 * (y / 100);
    }
    if y % 400 == 0 {
      assert y == 400 * (y / 400);
    }
  }

  /** The year-by-year day count agrees with the closed Gregorian formula. */
  lemma {:induction false} DaysBeforeYearClosed(y: int)
    ensures DaysBeforeYear(y) == 365 * (y - 1970) + Leaps(y - 1) - Leaps(1969)
    decreases if y >= 1970 then y - 1970 else 1970 - y
  {
    if y > 1970 {
      DaysBeforeYearClosed(y - 1);
      LeapStep(y - 1);
    } else if y < 1970 {
      DaysBeforeYearClosed(y + 1);
      LeapStep(y);
    }
  }

  function Pad2(n: int): (s: string)
    requires 0 <= n < 100
    ensures |s| == 2
  {
    [Digit(n / 10), Digit(n % 10)]
  }

  function Pad4(n: int): (s: string)
    requires 0 <= n < 10000
    ensures |s| == 4
  {
    [Digit(n / 1000), Digit(n / 100 % 10), Digit(n / 10 % 10), Digit(n % 10)]
  }

  /** `strftime("%Y-%m-%dT%H:%M:%SZ")`. */
  function Format(t: Stamp): (s: string)
    requires ValidStamp(t)
    ensures |s| == 20
  {
    Pad4(t.date.year) + "-" + Pad2(t.date.month) + "-" + Pad2(t.date.day)
      + "T" + Pad2(t.hour) + ":" + Pad2(t.minute) + ":" + Pad2(t.second) + "Z"
  }

  /** Reads a stamp back from its text: the fields sit at fixed offsets. */
  function Parse(s: string): Stamp
    requires |s| == 20
  {
    Stamp(Date(DigitsValue(s[0..4]), DigitsValue(s[5..7]), DigitsValue(s[8..10])),
          DigitsValue(s[11..13]), DigitsValue(s[14..16]), DigitsValue(s[17..19]))
  }

  lemma Pad2Value(n: int)
    requires 0 <= n < 100
    ensures DigitsValue(Pad2(n)) == n
  {
    var s := Pad2(n);
    assert s[..1][..0] == [];
    assert DigitsValue(s[..1]) == n / 10;
    assert s[..2] == s;
  }

  lemma Pad4Value(n: int)
    requires 0 <= n < 10000
    ensures DigitsValue(Pad4(n)) == n
  {
    var s := Pad4(n);
    var a, b, c, d := n / 1000, n / 100 % 10, n / 10 % 10, n % 10;
    assert s[..1][..0] == [];
    assert DigitsValue(s[..1]) == a;
    assert s[..2][..1] == s[..1];
    assert DigitsValue(s[..2]) == a * 10 + b;
    assert s[..3][..2] == s[..2];
    assert DigitsValue(s[..3]) == (a * 10 + b) * 10 + c;
    assert s[..4] == s;
    assert n / 100 == a * 10 + b;
    assert n / 10 == n / 100 * 10 + c;
  }

  /** The text `Format` produces names the stamp it was made from. */
  lemma {:induction false} FormatRoundTrip(t: Stamp)
    requires ValidStamp(t)
    ensures Parse(Format(t)) == t
  {
    var s := Format(t);
    assert s[0..4] == Pad4(t.date.year);
    assert s[5..7] == Pad2(t.date.month);
    assert s[8..10] == Pad2(t.date.day);
    assert s[11..13] == Pad2(t.hour);
    assert s[14..16] == Pad2(t.minute);
    assert s[17..19] == Pad2(t.second);
    Pad4Value(t.date.year);
    Pad2Value(t.date.month);
    Pad2Value(t.date.day);
    Pad2Value(t.hour);
    Pad2Value(t.minute);
    Pad2Value(t.second);
  }

  /** Python's `bool` is an `int`, so `True / 1000.0` is accepted; None, strings,
      lists and dicts raise TypeError. */
  function AsMillis(j: Json): Result<int>
  {
    match j
    case JInt(i) => Ok(i)
    case JBool(b) => Ok(if b then 1 else 0)
    case _ => Err(TypeError)
  }

  /** The text for a whole number of epoch milliseconds: `utcfromtimestamp(ms / 1000.0)`
      keeps the second the instant falls in (rounding toward minus infinity). */
  function MillisText(ms: int): Result<string>
  {
    var t :- UtcFromSeconds(ms / 1000);
    Ok(Format(t))
  }

  /** The text names the second the timestamp falls in; it fails only when that second
      lies outside the years 1..9999. */
  lemma MillisTextMeaning(ms: int)
    ensures MillisText(ms).Ok? ==>
              |MillisText(ms).value| == 20 && ValidStamp(Parse(MillisText(ms).value))
              && EpochSeconds(Parse(MillisText(ms).value)) == ms / 1000
    ensures MillisText(ms).Err? ==> MillisText(ms).exc == ValueError
  {
    var r := UtcFromSeconds(ms / 1000);
    if r.Ok? {
      FormatRoundTrip(r.value);
    }
  }

  /** `convert_to_datetime(timestamp)`. */
  function ConvertToDatetime(timestamp: Json): (r: Result<string>)
    ensures AsMillis(timestamp).Err? ==> r == Err(TypeError)
    ensures AsMillis(timestamp).Ok? ==> r == MillisText(AsMillis(timestamp).value)
  {
    var ms :- AsMillis(timestamp);
    MillisText(ms)
  }

  /** Milliseconds below the second do not change the text. */
  lemma SubSecondDropped(seconds: int, millis: int)
    requires 0 <= millis < 1000
    ensures MillisText(seconds * 1000 + millis) == MillisText(seconds * 1000)
  {
    assert (seconds * 1000 + millis) / 1000 == seconds;
    assert (seconds * 1000) / 1000 == seconds;
  }

  /** Two timestamps that convert give the same text exactly when they fall in the same second. */
  lemma MillisTextSameSecond(a: int, b: int)
    requires MillisText(a).Ok? && MillisText(b).Ok?
    ensures MillisText(a) == MillisText(b) <==> a / 1000 == b / 1000
  {
    MillisTextMeaning(a);
    MillisTextMeaning(b);
  }

  lemma ConvertIntIsMillisText(ms: int)
    ensures ConvertToDatetime(JInt(ms)) == MillisText(ms)
  {
  }

  lemma MillisTextOfStamp(ms: int, t: Stamp)
    requires ValidStamp(t) && EpochSeconds(t) == ms / 1000
    ensures MillisText(ms) == Ok(Format(t))
  {
    UtcFromSecondsIs(ms / 1000, t);
  }

  lemma FormatEpochZero()
    ensures Format(Stamp(Date(1970, 1, 1), 0, 0, 0)) == "1970-01-01T00:00:00Z"
  {
  }

  lemma FormatNovemberFourteenth2023()
    ensures Format(Stamp(Date(2023, 11, 14), 22, 13, 20)) == "2023-11-14T22:13:20Z"
  {
  }

  /** Every instant of the epoch's first second reads 1970-01-01T00:00:00Z. */
  lemma EpochZero(ms: int)
    requires 0 <= ms < 1000
    ensures ConvertToDatetime(JInt(ms)) == Ok("1970-01-01T00:00:00Z")
  {
    var t := Stamp(Date(1970, 1, 1), 0, 0, 0);
    MillisTextOfStamp(ms, t);
    FormatEpochZero();
    ConvertIntIsMillisText(ms);
    var x := ConvertToDatetime(JInt(ms));
    assert x == Ok(Format(t));
  }

  /** 1700000000000 ms (and the rest of that second) reads 2023-11-14T22:13:20Z. */
  lemma NovemberFourteenth2023(ms: int)
    requires 1700000000000 <= ms < 1700000001000
    ensures ConvertToDatetime(JInt(ms)) == Ok("2023-11-14T22:13:20Z")
  {
    var t := Stamp(Date(2023, 11, 14), 22, 13, 20);
    DaysBeforeYearClosed(2023);
    assert DaysFromCivil(t.date) == 19675;
    MillisTextOfStamp(ms, t);
    FormatNovemberFourteenth2023();
    ConvertIntIsMillisText(ms);
    var x := ConvertToDatetime(JInt(ms));
    assert x == Ok(Format(t));
  }
}
