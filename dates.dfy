/**
 * The calendar arithmetic of Python's `datetime` that the trading loop relies
 * on: proleptic Gregorian dates, `toordinal()`, `weekday()`, the
 * `strptime(s, "%Y-%m-%d")` / `strftime("%Y-%m-%d")` pair, and
 * `timedelta.days`.
 */
module Dates {
  import opened Common

  datatype Date = Date(year: int, month: int, day: int)

  predicate IsLeapYear(y: int) {
    (y % 4 == 0 && y % 100 != 0) || y % 400 == 0
  }

  function DaysInMonth(y: int, m: int): int
    requires 1 <= m <= 12
  {
    if m == 2 then (if IsLeapYear(y) then 29 else 28)
    else if m == 4 || m == 6 || m == 9 || m == 11 then 30
    else 31
  }

  /** A date Python's `datetime` can represent (years 1 to 9999). */
  predicate ValidDate(d: Date) {
    1 <= d.year <= 9999 && 1 <= d.month <= 12 && 1 <= d.day <= DaysInMonth(d.year, d.month)
  }

  function DaysBeforeMonth(y: int, m: int): int
    requires 1 <= m <= 13
    decreases m
  {
    if m == 1 then 0 else DaysBeforeMonth(y, m - 1) + DaysInMonth(y, m - 1)
  }

  /** `date.toordinal()`: 0001-01-01 is day 1. */
  function Ordinal(d: Date): int
    requires ValidDate(d)
  {
    var y := d.year - 1;
    y * 365 + y / 4 - y / 100 + y / 400 + DaysBeforeMonth(d.year, d.month) + d.day
  }

  /** `weekday()` of an ordinal day: Monday is 0, Sunday is 6 (day 1 was a Monday). */
  function Weekday(day: int): (r: int)
    ensures 0 <= r < 7
  {
    (day + 6) % 7
  }

  predicate IsWeekend(day: int) { Weekday(day) >= 5 }

  /** A naive `datetime`: an ordinal day and the seconds elapsed since its midnight. */
  datatype Moment = Moment(day: int, second: real)

  predicate ValidMoment(m: Moment) { 0.0 <= m.second < 86400.0 }

  /** Seconds since the start of ordinal day 0; orders moments as `datetime` does. */
  function Seconds(m: Moment): real {
    (m.day as real) * 86400.0 + m.second
  }

  function Midnight(d: Date): Moment
    requires ValidDate(d)
  {
    Moment(Ordinal(d), 0.0)
  }

  /** `(later - earlier).days`: timedelta normalises to whole days rounded down. */
  function DaysBetween(later: Moment, earlier: Moment): int {
    ((Seconds(later) - Seconds(earlier)) / 86400.0).Floor
  }

  /** Subtracting a midnight counts calendar days: the time of day of `later`
      never changes the result. */
  lemma DaysSinceMidnight(later: Moment, first: Date)
    requires ValidMoment(later) && ValidDate(first)
    ensures DaysBetween(later, Midnight(first)) == later.day - Ordinal(first)
  {
    var k := later.day - Ordinal(first);
    var x := (Seconds(later) - Seconds(Midnight(first))) / 86400.0;
    assert Seconds(later) - Seconds(Midnight(first)) == (k as real) * 86400.0 + later.second;
    assert x == (k as real) + later.second / 86400.0;
    assert (k as real) <= x < (k as real) + 1.0;
  }

  // ---------------------------------------------------------------------
  // "%Y-%m-%d"

  function Pad2(n: nat): (r: string)
    requires n < 100
    ensures |r| == 2 && AllDigits(r)
  {
    [DigitChar(n / 10), DigitChar(n % 10)]
  }

  function Pad4(n: nat): (r: string)
    requires n < 10000
    ensures |r| == 4 && AllDigits(r)
  {
    Pad2(n / 100) + Pad2(n % 100)
  }

  /** `strftime("%Y-%m-%d")`. */
  function FormatIsoDate(d: Date): (r: string)
    requires ValidDate(d)
    ensures |r| == 10
  {
    Pad4(d.year) + "-" + Pad2(d.month) + "-" + Pad2(d.day)
  }

  /** The shape `\d{4}-\d{2}-\d{2}`. */
  predicate LooksLikeIsoDate(s: string) {
    |s| == 10 && s[4] == '-' && s[7] == '-'
    && AllDigits(s[..4]) && AllDigits(s[5..7]) && AllDigits(s[8..])
  }

  /** `datetime.strptime(s, "%Y-%m-%d")` for zero-padded input: None where it raises ValueError. */
  function ParseIsoDate(s: string): (r: Option<Date>)
    ensures r.Some? ==> ValidDate(r.value) && LooksLikeIsoDate(s)
  {
    if !LooksLikeIsoDate(s) then None
    else
      var d := Date(DigitsValue(s[..4]), DigitsValue(s[5..7]), DigitsValue(s[8..]));
      if ValidDate(d) then Some(d) else None
  }

  lemma Pad2Value(n: nat)
    requires n < 100
    ensures DigitsValue(Pad2(n)) == n
  {
    var p := Pad2(n);
    assert p[..1] == [DigitChar(n / 10)];
    assert DigitsValue(p[..1]) == n / 10 by {
      assert p[..1][..0] == [];
    }
  }

  lemma Pad4Value(n: nat)
    requires n < 10000
    ensures DigitsValue(Pad4(n)) == n
  {
    var hi, lo := Pad2(n / 100), Pad2(n % 100);
    var p := hi + lo;
    assert p[..3] == hi + lo[..1];
    assert p[..2] == hi;
    assert (hi + lo[..1])[..2] == hi;
    Pad2Value(n / 100);
    assert DigitsValue(p[..3]) == 10 * (n / 100) + (n % 100) / 10;
  }

  /** Formatting a date and parsing it back yields the same date. */
  lemma FormatParseRoundTrip(d: Date)
    requires ValidDate(d)
    ensures ParseIsoDate(FormatIsoDate(d)) == Some(d)
  {
    var s := FormatIsoDate(d);
    assert s[..4] == Pad4(d.year);
    assert s[5..7] == Pad2(d.month);
    assert s[8..] == Pad2(d.day);
    Pad4Value(d.year);
    Pad2Value(d.month);
    Pad2Value(d.day);
  }
}
