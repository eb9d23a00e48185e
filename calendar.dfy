/**
 * Calendar dates and times of day, and their zero-padded decimal renderings:
 * `strftime("%Y-%m-%d")` of a date and `str()` of a second-resolution datetime.
 * Each rendering comes with a parser and a round-trip lemma, so a rendered
 * string is shown to identify the value it was rendered from.
 */
module Calendar {
  import opened Wrappers

  function Pow10(n: nat): (r: nat)
    ensures r >= 1
  {
    if n == 0 then 1 else 10 * Pow10(n - 1)
  }

  predicate IsDigit(c: char) {
    '0' <= c <= '9'
  }

  predicate AllDigits(s: string) {
    forall i :: 0 <= i < |s| ==> IsDigit(s[i])
  }

  function DigitChar(d: nat): (c: char)
    requires d < 10
    ensures IsDigit(c) && c as int - '0' as int == d
  {
    ('0' as int + d) as char
  }

  /** The `width` lowest decimal digits of `n`, most significant first, padded with zeros (`%0<width>d`). */
  function Digits(n: nat, width: nat): (s: string)
    ensures |s| == width
    decreases width
  {
    if width == 0 then [] else Digits(n / 10, width - 1) + [DigitChar(n % 10)]
  }

  lemma {:induction false} DigitsAreDigits(n: nat, width: nat)
    ensures AllDigits(Digits(n, width))
    decreases width
  {
    if width > 0 {
      DigitsAreDigits(n / 10, width - 1);
    }
  }

  /** The number a string of decimal digits denotes. */
  function DigitsValue(s: string): (n: nat)
    requires AllDigits(s)
  {
    if s == [] then 0 else 10 * DigitsValue(s[..|s| - 1]) + (s[|s| - 1] as int - '0' as int)
  }

  lemma {:induction false} DigitsRoundTrip(n: nat, width: nat)
    requires n < Pow10(width)
    ensures AllDigits(Digits(n, width)) && DigitsValue(Digits(n, width)) == n
    decreases width
  {
    DigitsAreDigits(n, width);
    if width > 0 {
      assert n / 10 < Pow10(width - 1);
      DigitsRoundTrip(n / 10, width - 1);
      var s := Digits(n, width);
      assert s[..width - 1] == Digits(n / 10, width - 1);
    }
  }

  /** Unpadded decimal notation of a natural number. */
  function NatDecimal(n: nat): (s: string)
    ensures |s| >= 1 && AllDigits(s)
  {
    if n < 10 then [DigitChar(n)] else NatDecimal(n / 10) + [DigitChar(n % 10)]
  }

  lemma {:induction false} NatDecimalRoundTrip(n: nat)
    ensures DigitsValue(NatDecimal(n)) == n
  {
    if n >= 10 {
      NatDecimalRoundTrip(n / 10);
      var s := NatDecimal(n);
      assert s[..|s| - 1] == NatDecimal(n / 10);
    }
  }

  /** Python's `str()` of an integer. */
  function Decimal(i: int): (s: string)
  {
    if i < 0 then "-" + NatDecimal(-i) else NatDecimal(i)
  }

  // ---------------------------------------------------------------- dates

  datatype Date = Date(year: int, month: int, day: int)

  predicate IsLeapYear(year: int) {
    year % 4 == 0 && (year % 100 != 0 || year % 400 == 0)
  }

  function DaysInMonth(year: int, month: int): (n: int)
    requires 1 <= month <= 12
    ensures 28 <= n <= 31
  {
    if month == 2 then (if IsLeapYear(year) then 29 else 28)
    else if month == 4 || month == 6 || month == 9 || month == 11 then 30
    else 31
  }

  /** The dates Python's `datetime.date` can hold (proleptic Gregorian, years 1 to 9999). */
  predicate ValidDate(d: Date) {
    && 1 <= d.year <= 9999
    && 1 <= d.month <= 12
    && 1 <= d.day <= DaysInMonth(d.year, d.month)
  }

  type CalendarDate = d: Date | ValidDate(d) witness Date(1970, 1, 1)

  /** `d.strftime("%Y-%m-%d")`: year to four digits, month and day to two, separated by dashes. */
  function IsoDate(d: CalendarDate): (s: string)
    ensures |s| == 10
  {
    Digits(d.year, 4) + "-" + Digits(d.month, 2) + "-" + Digits(d.day, 2)
  }

  /** Reads back a `YYYY-MM-DD` string; `None` when it does not have that shape. */
  function ParseIsoDate(s: string): (r: Option<Date>)
  {
    if |s| == 10 && s[4] == '-' && s[7] == '-' && AllDigits(s[..4]) && AllDigits(s[5..7]) && AllDigits(s[8..])
    then Some(Date(DigitsValue(s[..4]), DigitsValue(s[5..7]), DigitsValue(s[8..])))
    else None
  }

  lemma IsoDateRoundTrip(d: CalendarDate)
    ensures ParseIsoDate(IsoDate(d)) == Some(d)
  {
    var s := IsoDate(d);
    assert s[..4] == Digits(d.year, 4);
    assert s[5..7] == Digits(d.month, 2);
    assert s[8..] == Digits(d.day, 2);
    DigitsRoundTrip(d.year, 4);
    DigitsRoundTrip(d.month, 2);
    DigitsRoundTrip(d.day, 2);
  }

  /** Different days never share a rendering. */
  lemma IsoDateInjective(d1: CalendarDate, d2: CalendarDate)
    requires d1 != d2
    ensures IsoDate(d1) != IsoDate(d2)
  {
    IsoDateRoundTrip(d1);
    IsoDateRoundTrip(d2);
  }

  // ---------------------------------------------------------------- date and time

  /** A second-resolution, timezone-naive `datetime` (the device records no fractions of a second). */
  datatype DateTime = DateTime(date: CalendarDate, hour: int, minute: int, second: int)

  type Timestamp = t: DateTime | 0 <= t.hour < 24 && 0 <= t.minute < 60 && 0 <= t.second < 60
    witness DateTime(Date(1970, 1, 1), 0, 0, 0)

  /** `HH:MM:SS`, each field to two digits. */
  function ClockTime(hour: nat, minute: nat, second: nat): (s: string)
    ensures |s| == 8
  {
    Digits(hour, 2) + ":" + Digits(minute, 2) + ":" + Digits(second, 2)
  }

  /** Reads back an `HH:MM:SS` string as hour, minute and second; `None` when it does not have that shape. */
  function ParseClockTime(s: string): (r: Option<(nat, nat, nat)>)
  {
    if |s| == 8 && s[2] == ':' && s[5] == ':' && AllDigits(s[..2]) && AllDigits(s[3..5]) && AllDigits(s[6..])
    then Some((DigitsValue(s[..2]), DigitsValue(s[3..5]), DigitsValue(s[6..])))
    else None
  }

  lemma ClockTimeRoundTrip(hour: nat, minute: nat, second: nat)
    requires hour < 100 && minute < 100 && second < 100
    ensures ParseClockTime(ClockTime(hour, minute, second)) == Some((hour, minute, second))
  {
    var s := ClockTime(hour, minute, second);
    assert s[..2] == Digits(hour, 2);
    assert s[3..5] == Digits(minute, 2);
    assert s[6..] == Digits(second, 2);
    DigitsRoundTrip(hour, 2);
    DigitsRoundTrip(minute, 2);
    DigitsRoundTrip(second, 2);
  }

  /** `str(t)`: `YYYY-MM-DD HH:MM:SS`. */
  function RenderTimestamp(t: Timestamp): (s: string)
    ensures |s| == 19
  {
    IsoDate(t.date) + " " + ClockTime(t.hour, t.minute, t.second)
  }

  /** Reads back a `YYYY-MM-DD HH:MM:SS` string; `None` when it does not have that shape. */
  function ParseTimestamp(s: string): (r: Option<DateTime>)
  {
    if |s| == 19 && s[10] == ' ' then
      match (ParseIsoDate(s[..10]), ParseClockTime(s[11..]))
      case (Some(d), Some((h, m, sec))) =>
        if ValidDate(d) then Some(DateTime(d, h, m, sec)) else None
      case _ => None
    else None
  }

  lemma TimestampRoundTrip(t: Timestamp)
    ensures ParseTimestamp(RenderTimestamp(t)) == Some(t)
  {
    var s := RenderTimestamp(t);
    assert s[..10] == IsoDate(t.date);
    assert s[11..] == ClockTime(t.hour, t.minute, t.second);
    IsoDateRoundTrip(t.date);
    ClockTimeRoundTrip(t.hour, t.minute, t.second);
  }
}
