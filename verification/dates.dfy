/**
 * Calendar dates as the scoring code reads them: the `%Y-%m-%d` form accepted
 * by Python's `datetime.strptime`, and the proleptic Gregorian day ordinal
 * (`date.toordinal()`, 0001-01-01 is day 1) used to measure tenure.
 */
module Dates {
  import opened Wrappers

  datatype Date = Date(year: int, month: int, day: int)

  predicate IsLeapYear(y: int) {
    y % 4 == 0 && (y % 100 != 0 || y % 400 == 0)
  }

  function DaysInYear(y: int): int {
    if IsLeapYear(y) then 366 else 365
  }

  function DaysInMonth(y: int, m: int): int
    requires 1 <= m <= 12
  {
    if m == 2 then (if IsLeapYear(y) then 29 else 28)
    else if m == 4 || m == 6 || m == 9 || m == 11 then 30
    else 31
  }

  /** The dates a Python `date` can hold: years MINYEAR (1) to MAXYEAR (9999). */
  predicate ValidDate(d: Date) {
    && 1 <= d.year <= 9999
    && 1 <= d.month <= 12
    && 1 <= d.day <= DaysInMonth(d.year, d.month)
  }

  /** Strict chronological order: by year, then month, then day. */
  predicate Before(a: Date, b: Date) {
    || a.year < b.year
    || (a.year == b.year && a.month < b.month)
    || (a.year == b.year && a.month == b.month && a.day < b.day)
  }

  /** Days in the years 1 .. y-1. */
  function DaysBeforeYear(y: int): int
    requires y >= 1
  {
    var z := y - 1;
    z * 365 + z / 4 - z / 100 + z / 400
  }

  /** Days in the months 1 .. m-1 of year y; month 13 stands for the year's end. */
  function DaysBeforeMonth(y: int, m: int): int
    requires 1 <= m <= 13
  {
    if m == 1 then 0 else DaysBeforeMonth(y, m - 1) + DaysInMonth(y, m - 1)
  }

  /** The proleptic Gregorian ordinal of a date, as `date.toordinal()`. */
  function Ordinal(d: Date): (r: int)
    requires ValidDate(d)
    ensures DaysBeforeYear(d.year) < r <= DaysBeforeYear(d.year) + DaysInYear(d.year)
  {
    DaysBeforeMonthNonNegative(d.year, d.month);
    MonthsInOrder(d.year, d.month, 13);
    MonthsFillYear(d.year);
    DaysBeforeYear(d.year) + DaysBeforeMonth(d.year, d.month) + d.day
  }

  // ---------------------------------------------------------------------------
  // Parsing `%Y-%m-%d`
  // ---------------------------------------------------------------------------

  predicate IsDigit(c: char) {
    '0' <= c <= '9'
  }

  function DigitValue(c: char): int
    requires IsDigit(c)
  {
    c as int - '0' as int
  }

  function TwoDigits(a: char, b: char): int
    requires IsDigit(a) && IsDigit(b)
  {
    10 * DigitValue(a) + DigitValue(b)
  }

  /**
   * The `%m` group `1[0-2]|0[1-9]|[1-9]` at index i, together with the '-' that
   * must follow it: the month and the index just past the separator. Only one
   * alternative can be followed by '-', so the regular expression's
   * backtracking has a single outcome.
   */
  function MatchMonth(s: string, i: nat): (r: Option<(int, nat)>)
    ensures r.Some? ==> 1 <= r.value.0 <= 12 && i + 2 <= r.value.1 <= |s|
  {
    if i + 2 < |s| && s[i + 2] == '-'
       && ((s[i] == '1' && '0' <= s[i + 1] <= '2') || (s[i] == '0' && '1' <= s[i + 1] <= '9'))
    then Some((TwoDigits(s[i], s[i + 1]), i + 3))
    else if i + 1 < |s| && s[i + 1] == '-' && '1' <= s[i] <= '9'
    then Some((DigitValue(s[i]), i + 2))
    else None
  }

  /**
   * The `%d` group `3[01]|[12]\d|0[1-9]|[1-9]| [1-9]` at index j: the first
   * alternative that matches wins (nothing follows it in the pattern), giving
   * the day and the index just past it.
   */
  function MatchDay(s: string, j: nat): (r: Option<(int, nat)>)
    ensures r.Some? ==> 1 <= r.value.0 <= 31 && j < r.value.1 <= |s|
  {
    if j + 1 < |s| && s[j] == '3' && '0' <= s[j + 1] <= '1' then Some((TwoDigits(s[j], s[j + 1]), j + 2))
    else if j + 1 < |s| && '1' <= s[j] <= '2' && IsDigit(s[j + 1]) then Some((TwoDigits(s[j], s[j + 1]), j + 2))
    else if j + 1 < |s| && s[j] == '0' && '1' <= s[j + 1] <= '9' then Some((DigitValue(s[j + 1]), j + 2))
    else if j < |s| && '1' <= s[j] <= '9' then Some((DigitValue(s[j]), j + 1))
    else if j + 1 < |s| && s[j] == ' ' && '1' <= s[j + 1] <= '9' then Some((DigitValue(s[j + 1]), j + 2))
    else None
  }

  /**
   * `datetime.strptime(s, "%Y-%m-%d")`: None wherever Python raises ValueError
   * (no match, unconverted data left over, or a day the month does not have).
   */
  function ParseIsoDate(s: string): (r: Option<Date>)
    ensures r.Some? ==> ValidDate(r.value)
    ensures |s| < 8 ==> r.None?
  {
    if |s| < 5 || !(IsDigit(s[0]) && IsDigit(s[1]) && IsDigit(s[2]) && IsDigit(s[3])) || s[4] != '-' then None
    else
      var year := 100 * TwoDigits(s[0], s[1]) + TwoDigits(s[2], s[3]);
      match MatchMonth(s, 5)
      case None => None
      case Some((month, j)) =>
        match MatchDay(s, j)
        case None => None
        case Some((day, k)) =>
          if k == |s| && ValidDate(Date(year, month, day)) then Some(Date(year, month, day)) else None
  }

  // ---------------------------------------------------------------------------
  // Formatting, the parser's partner
  // ---------------------------------------------------------------------------

  function DigitChar(n: int): (c: char)
    requires 0 <= n <= 9
    ensures IsDigit(c) && DigitValue(c) == n
  {
    ('0' as int + n) as char
  }

  /** `date.isoformat()`: four-digit year, two-digit month and day. */
  function IsoFormat(d: Date): (s: string)
    requires ValidDate(d)
    ensures |s| == 10 && s[4] == '-' && s[7] == '-'
  {
    [DigitChar(d.year / 1000), DigitChar(d.year / 100 % 10), DigitChar(d.year / 10 % 10), DigitChar(d.year % 10),
     '-', DigitChar(d.month / 10), DigitChar(d.month % 10),
     '-', DigitChar(d.day / 10), DigitChar(d.day % 10)]
  }

  lemma YearDigits(y: int)
    requires 1 <= y <= 9999
    ensures 100 * (10 * (y / 1000) + y / 100 % 10) + (10 * (y / 10 % 10) + y % 10) == y
  {
    assert y / 100 == 10 * (y / 1000) + y / 100 % 10;
    assert y % 100 == 10 * (y / 10 % 10) + y % 10;
  }

  /** The two-character month field written by IsoFormat is matched as that month. */
  lemma MatchWrittenMonth(s: string, m: int)
    requires 1 <= m <= 12 && |s| == 10 && s[7] == '-'
    requires s[5] == DigitChar(m / 10) && s[6] == DigitChar(m % 10)
    ensures MatchMonth(s, 5) == Some((m, 8))
  {
  }

  /** The two-character day field written by IsoFormat is matched as that day. */
  lemma MatchWrittenDay(s: string, d: int)
    requires 1 <= d <= 31 && |s| == 10
    requires s[8] == DigitChar(d / 10) && s[9] == DigitChar(d % 10)
    ensures MatchDay(s, 8) == Some((d, 10))
  {
  }

  /** Every valid date written in ISO form parses back to itself. */
  lemma ParseIsoFormat(d: Date)
    requires ValidDate(d)
    ensures ParseIsoDate(IsoFormat(d)) == Some(d)
  {
    var s := IsoFormat(d);
    YearDigits(d.year);
    assert 100 * TwoDigits(s[0], s[1]) + TwoDigits(s[2], s[3]) == d.year;
    MatchWrittenMonth(s, d.month);
    MatchWrittenDay(s, d.day);
  }

  // ---------------------------------------------------------------------------
  // The ordinal is a faithful day count
  // ---------------------------------------------------------------------------

  /** Moving from y - 1 to y passes a multiple of 4 exactly when y is one. */
  lemma QuarterStep(y: int)
    ensures y / 4 - (y - 1) / 4 == (if y % 4 == 0 then 1 else 0)
  {
  }

  lemma CenturyStep(y: int)
    ensures y / 100 - (y - 1) / 100 == (if y % 100 == 0 then 1 else 0)
  {
  }

  lemma QuadCenturyStep(y: int)
    ensures y / 400 - (y - 1) / 400 == (if y % 400 == 0 then 1 else 0)
  {
  }

  /** A multiple of 400 is a multiple of 100. */
  lemma CenturyOfQuadCentury(y: int)
    requires y % 400 == 0
    ensures y % 100 == 0
  {
    var k := y / 400;
    assert y == 100 * (4 * k);
  }

  /** A multiple of 100 is a multiple of 4. */
  lemma QuarterOfCentury(y: int)
    requires y % 100 == 0
    ensures y % 4 == 0
  {
    var k := y / 100;
    assert y == 4 * (25 * k);
  }

  /** Each year adds exactly its own length to the count. */
  lemma DaysBeforeNextYear(y: int)
    requires y >= 1
    ensures DaysBeforeYear(y + 1) == DaysBeforeYear(y) + DaysInYear(y)
  {
    QuarterStep(y);
    CenturyStep(y);
    QuadCenturyStep(y);
    if y % 400 == 0 {
      CenturyOfQuadCentury(y);
    }
    if y % 100 == 0 {
      QuarterOfCentury(y);
    }
    var leaps := (if y % 4 == 0 then 1 else 0) - (if y % 100 == 0 then 1 else 0) + (if y % 400 == 0 then 1 else 0);
    assert DaysBeforeYear(y + 1) - DaysBeforeYear(y) == 365 + leaps;
  }

  /** The whole of year y1 ends before year y2 begins. */
  lemma {:induction false} YearsInOrder(y1: int, y2: int)
    requires 1 <= y1 < y2
    ensures DaysBeforeYear(y1) + DaysInYear(y1) <= DaysBeforeYear(y2)
    decreases y2 - y1
  {
    DaysBeforeNextYear(y1);
    if y1 + 1 < y2 {
      YearsInOrder(y1 + 1, y2);
    }
  }

  /** The twelve months of a year add up to the year's length. */
  lemma MonthsFillYear(y: int)
    ensures DaysBeforeMonth(y, 13) == DaysInYear(y)
  {
    var feb := if IsLeapYear(y) then 29 else 28;
    assert DaysBeforeMonth(y, 1) == 0;
    assert DaysBeforeMonth(y, 2) == 31;
    assert DaysBeforeMonth(y, 3) == 31 + feb;
    assert DaysBeforeMonth(y, 4) == 31 + feb + 31;
    assert DaysBeforeMonth(y, 5) == 31 + feb + 31 + 30;
    assert DaysBeforeMonth(y, 6) == 31 + feb + 31 + 30 + 31;
    assert DaysBeforeMonth(y, 7) == 31 + feb + 31 + 30 + 31 + 30;
    assert DaysBeforeMonth(y, 8) == 31 + feb + 31 + 30 + 31 + 30 + 31;
    assert DaysBeforeMonth(y, 9) == 31 + feb + 31 + 30 + 31 + 30 + 31 + 31;
    assert DaysBeforeMonth(y, 10) == 31 + feb + 31 + 30 + 31 + 30 + 31 + 31 + 30;
    assert DaysBeforeMonth(y, 11) == 31 + feb + 31 + 30 + 31 + 30 + 31 + 31 + 30 + 31;
    assert DaysBeforeMonth(y, 12) == 31 + feb + 31 + 30 + 31 + 30 + 31 + 31 + 30 + 31 + 30;
    assert DaysBeforeMonth(y, 13) == 31 + feb + 31 + 30 + 31 + 30 + 31 + 31 + 30 + 31 + 30 + 31;
  }

  /** The whole of month m1 ends before month m2 begins. */
  lemma {:induction false} MonthsInOrder(y: int, m1: int, m2: int)
    requires 1 <= m1 < m2 <= 13
    ensures DaysBeforeMonth(y, m1) + DaysInMonth(y, m1) <= DaysBeforeMonth(y, m2)
    decreases m2 - m1
  {
    if m1 + 1 < m2 {
      MonthsInOrder(y, m1 + 1, m2);
      assert DaysInMonth(y, m1 + 1) >= 0;
    }
  }

  lemma {:induction false} DaysBeforeMonthNonNegative(y: int, m: int)
    requires 1 <= m <= 13
    ensures DaysBeforeMonth(y, m) >= 0
  {
    if m > 1 {
      DaysBeforeMonthNonNegative(y, m - 1);
    }
  }

  /** A strictly earlier date has a strictly smaller ordinal. */
  lemma OrdinalStrictlyIncreasing(a: Date, b: Date)
    requires ValidDate(a) && ValidDate(b) && Before(a, b)
    ensures Ordinal(a) < Ordinal(b)
  {
    if a.year < b.year {
      MonthsInOrder(a.year, a.month, 13);
      MonthsFillYear(a.year);
      YearsInOrder(a.year, b.year);
      DaysBeforeMonthNonNegative(b.year, b.month);
    } else if a.month < b.month {
      MonthsInOrder(a.year, a.month, b.month);
    }
  }

  /** The calendar day after d: the next day of the month, else the 1st of the next month, else 1 January. */
  function NextDay(d: Date): (r: Date)
    requires ValidDate(d)
    ensures Before(d, r)
    ensures ValidDate(r) <==> d != Date(9999, 12, 31)
  {
    if d.day < DaysInMonth(d.year, d.month) then Date(d.year, d.month, d.day + 1)
    else if d.month < 12 then Date(d.year, d.month + 1, 1)
    else Date(d.year + 1, 1, 1)
  }

  /** 0001-01-01 is day 1. */
  lemma OrdinalOfFirstDay()
    ensures Ordinal(Date(1, 1, 1)) == 1
  {
  }

  /** The next day's ordinal is one more, so ordinals count days and their difference is `(b - a).days`. */
  lemma OrdinalCountsDays(d: Date)
    requires ValidDate(d) && ValidDate(NextDay(d))
    ensures Ordinal(NextDay(d)) == Ordinal(d) + 1
  {
    if d.day == DaysInMonth(d.year, d.month) && d.month == 12 {
      MonthsFillYear(d.year);
      DaysBeforeNextYear(d.year);
    }
  }
}
