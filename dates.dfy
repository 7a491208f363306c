/**
  Calendar dates of the proleptic Gregorian calendar, as Python's `date` and
  pandas' `Timestamp` (at midnight) use them: validity, the day count from
  0001-01-01, adding and subtracting days, the weekday (Monday = 0), the
  chronological order, and the `%Y-%m-%d` / `%Y-%m` renderings.
*/
module Dates {

  import opened Common
  import opened Text

  datatype Date = Date(year: int, month: int, day: int)

  predicate IsLeapYear(y: int)
  {
    y % 4 == 0 && (y % 100 != 0 || y % 400 == 0)
  }

  function DaysInMonth(y: int, m: int): int
  {
    if m == 2 then (if IsLeapYear(y) then 29 else 28)
    else if m == 4 || m == 6 || m == 9 || m == 11 then 30
    else 31
  }

  predicate IsValid(d: Date)
  {
    1 <= d.year && 1 <= d.month <= 12 && 1 <= d.day <= DaysInMonth(d.year, d.month)
  }

  /** A date that exists on the calendar. */
  type ValidDate = d: Date | IsValid(d) witness Date(1, 1, 1)

  function DaysInYear(y: int): int
  {
    if IsLeapYear(y) then 366 else 365
  }

  function DaysBeforeYear(y: int): nat
    requires y >= 1
  {
    if y == 1 then 0 else DaysBeforeYear(y - 1) + DaysInYear(y - 1)
  }

  function DaysBeforeMonth(y: int, m: int): nat
    requires 1 <= m <= 12
  {
    if m == 1 then 0 else DaysBeforeMonth(y, m - 1) + DaysInMonth(y, m - 1)
  }

  /** Days elapsed since 0001-01-01 (Python's `toordinal() - 1`). */
  function Ordinal(d: ValidDate): nat
  {
    DaysBeforeYear(d.year) + DaysBeforeMonth(d.year, d.month) + d.day - 1
  }

  lemma YearIsTwelveMonths(y: int)
    ensures DaysBeforeMonth(y, 12) + DaysInMonth(y, 12) == DaysInYear(y)
  {
    var feb := DaysInMonth(y, 2);
    assert DaysBeforeMonth(y, 2) == 31;
    assert DaysBeforeMonth(y, 3) == 31 + feb;
    assert DaysBeforeMonth(y, 4) == 62 + feb;
    assert DaysBeforeMonth(y, 5) == 92 + feb;
    assert DaysBeforeMonth(y, 6) == 123 + feb;
    assert DaysBeforeMonth(y, 7) == 153 + feb;
    assert DaysBeforeMonth(y, 8) == 184 + feb;
    assert DaysBeforeMonth(y, 9) == 215 + feb;
    assert DaysBeforeMonth(y, 10) == 245 + feb;
    assert DaysBeforeMonth(y, 11) == 276 + feb;
    assert DaysBeforeMonth(y, 12) == 306 + feb;
  }

  /** The next calendar day. */
  function NextDay(d: ValidDate): (r: ValidDate)
    ensures Ordinal(r) == Ordinal(d) + 1
  {
    if d.day < DaysInMonth(d.year, d.month) then Date(d.year, d.month, d.day + 1)
    else if d.month < 12 then Date(d.year, d.month + 1, 1)
    else YearIsTwelveMonths(d.year); Date(d.year + 1, 1, 1)
  }

  /** The previous calendar day; 0001-01-01 has none. */
  function PrevDay(d: ValidDate): (r: ValidDate)
    requires Ordinal(d) > 0
    ensures Ordinal(r) == Ordinal(d) - 1
  {
    if d.day > 1 then Date(d.year, d.month, d.day - 1)
    else if d.month > 1 then
      assert DaysBeforeMonth(d.year, d.month) == DaysBeforeMonth(d.year, d.month - 1) + DaysInMonth(d.year, d.month - 1);
      Date(d.year, d.month - 1, DaysInMonth(d.year, d.month - 1))
    else
      assert d.year > 1;
      YearIsTwelveMonths(d.year - 1);
      assert DaysBeforeYear(d.year) == DaysBeforeYear(d.year - 1) + DaysInYear(d.year - 1);
      Date(d.year - 1, 12, 31)
  }

  /** `d + timedelta(days=n)`. */
  function AddDays(d: ValidDate, n: nat): (r: ValidDate)
    ensures Ordinal(r) == Ordinal(d) + n
    decreases n
  {
    if n == 0 then d else AddDays(NextDay(d), n - 1)
  }

  /** `d - timedelta(days=n)`, for a result no earlier than 0001-01-01. */
  function SubtractDays(d: ValidDate, n: nat): (r: ValidDate)
    requires n <= Ordinal(d)
    ensures Ordinal(r) == Ordinal(d) - n
    decreases n
  {
    if n == 0 then d else SubtractDays(PrevDay(d), n - 1)
  }

  /** `date.weekday()`: Monday is 0 and Sunday is 6 (0001-01-01 was a Monday). */
  function Weekday(d: ValidDate): (w: nat)
    ensures w < 7
  {
    Ordinal(d) % 7
  }

  /**
    0001-01-01 is a Monday, and each day after a date moves the weekday on by
    one, so 0001-01-08 is again a Monday and 0001-01-07 a Sunday.
  */
  lemma WeekdayCount(d: ValidDate, n: nat)
    ensures Weekday(Date(1, 1, 1)) == 0
    ensures Weekday(AddDays(d, n)) == (Weekday(d) + n) % 7
  {
    var k := Ordinal(d);
    assert Ordinal(AddDays(d, n)) == k + n;
    var q := k / 7;
    assert k == 7 * q + k % 7;
    assert k + n == 7 * q + (k % 7 + n);
    ModAfterMultiples(q, k % 7 + n);
  }

  lemma ModAfterMultiples(q: nat, r: nat)
    ensures (7 * q + r) % 7 == r % 7
  {
    var t := 7 * q + r;
    assert t == 7 * (q + r / 7) + r % 7;
  }

  // ---------------------------------------------------------------------------
  // chronological order
  // ---------------------------------------------------------------------------

  /** Timestamp comparison `a <= b`: year, then month, then day. */
  predicate DateLe(a: Date, b: Date)
  {
    a.year < b.year
    || (a.year == b.year && (a.month < b.month || (a.month == b.month && a.day <= b.day)))
  }

  lemma {:induction false} MonthsAccumulate(y: int, m: int, m2: int)
    requires 1 <= m < m2 <= 12
    ensures DaysBeforeMonth(y, m) + DaysInMonth(y, m) <= DaysBeforeMonth(y, m2)
    decreases m2
  {
    if m2 > m + 1 {
      MonthsAccumulate(y, m, m2 - 1);
    }
  }

  lemma {:induction false} YearsAccumulate(y: int, y2: int)
    requires 1 <= y < y2
    ensures DaysBeforeYear(y) + DaysInYear(y) <= DaysBeforeYear(y2)
    decreases y2
  {
    if y2 > y + 1 {
      YearsAccumulate(y, y2 - 1);
    }
  }

  lemma DayWithinYear(d: ValidDate)
    ensures DaysBeforeMonth(d.year, d.month) + d.day <= DaysInYear(d.year)
  {
    YearIsTwelveMonths(d.year);
    if d.month < 12 {
      MonthsAccumulate(d.year, d.month, 12);
    }
  }

  lemma EarlierDateSmallerOrdinal(a: ValidDate, b: ValidDate)
    requires DateLe(a, b) && a != b
    ensures Ordinal(a) < Ordinal(b)
  {
    if a.year < b.year {
      DayWithinYear(a);
      YearsAccumulate(a.year, b.year);
    } else if a.month < b.month {
      MonthsAccumulate(a.year, a.month, b.month);
    }
  }

  /** The calendar order is the order of the day counts. */
  lemma OrderMatchesOrdinal(a: ValidDate, b: ValidDate)
    ensures DateLe(a, b) <==> Ordinal(a) <= Ordinal(b)
    ensures a == b <==> Ordinal(a) == Ordinal(b)
  {
    if a != b {
      if DateLe(a, b) {
        EarlierDateSmallerOrdinal(a, b);
      } else {
        EarlierDateSmallerOrdinal(b, a);
      }
    }
  }

  /** `start <= d <= end` on a cell that may be NaT (a comparison with NaT is false). */
  predicate InWindow(d: Option<ValidDate>, start: ValidDate, end: ValidDate)
  {
    d.Some? && DateLe(start, d.value) && DateLe(d.value, end)
  }

  // ---------------------------------------------------------------------------
  // renderings
  // ---------------------------------------------------------------------------

  /** `strftime('%Y-%m-%d')`. */
  function FormatDate(d: ValidDate): (s: string)
    ensures |s| == 10 && s[4] == '-' && s[7] == '-'
  {
    PaddedDigits(d.year, 4) + "-" + PaddedDigits(d.month, 2) + "-" + PaddedDigits(d.day, 2)
  }

  /** `to_period('M').astype(str)`: `YYYY-MM`. */
  function MonthLabel(d: ValidDate): (s: string)
    ensures |s| == 7 && s[4] == '-'
  {
    PaddedDigits(d.year, 4) + "-" + PaddedDigits(d.month, 2)
  }

  /** Reads a `YYYY-MM-DD` text back into its fields. */
  function ParseDate(s: string): Option<Date>
  {
    if |s| == 10 && s[4] == '-' && s[7] == '-' then
      Some(Date(NumValue(s[..4]), NumValue(s[5..7]), NumValue(s[8..])))
    else None
  }

  /** A four-digit year's date renders without loss, so equal texts mean equal dates. */
  lemma FormatDateRoundTrip(d: ValidDate)
    requires d.year < 10000
    ensures ParseDate(FormatDate(d)) == Some(d)
  {
    var s := FormatDate(d);
    assert s[..4] == PaddedDigits(d.year, 4);
    assert s[5..7] == PaddedDigits(d.month, 2);
    assert s[8..] == PaddedDigits(d.day, 2);
    assert Pow10(2) == 100 && Pow10(4) == 10000;
    PaddedDigitsValue(d.year, 4);
    PaddedDigitsValue(d.month, 2);
    PaddedDigitsValue(d.day, 2);
  }

  lemma FormatDateInjective(a: ValidDate, b: ValidDate)
    requires a.year < 10000 && b.year < 10000
    ensures FormatDate(a) == FormatDate(b) <==> a == b
  {
    FormatDateRoundTrip(a);
    FormatDateRoundTrip(b);
  }

  /** `strftime('%Y-%m-%d')` on a date, `''` on NaT. */
  function ShownDate(d: Option<ValidDate>): (s: string)
    ensures d.None? <==> s == ""
    ensures d.Some? ==> |s| == 10 && s[4] == '-' && s[7] == '-'
  {
    if d.Some? then FormatDate(d.value) else ""
  }

  /** A shown date names the date it came from (for years below 10000). */
  lemma ShownDateInjective(a: Option<ValidDate>, b: Option<ValidDate>)
    requires a.Some? ==> a.value.year < 10000
    requires b.Some? ==> b.value.year < 10000
    ensures ShownDate(a) == ShownDate(b) <==> a == b
  {
    if a.Some? && b.Some? {
      FormatDateInjective(a.value, b.value);
    }
  }
}
