/** Gregorian calendar dates and their day ordinals. The component keeps its rental
    dates as calendar dates; the number of calendar days between two of them is the
    difference of their ordinals. */
module Calendar {

  datatype CivilDate = CivilDate(year: int, month: int, day: int)

  predicate IsLeapYear(y: int)
  {
    y % 4 == 0 && (y % 100 != 0 || y % 400 == 0)
  }

  function DaysInYear(y: int): int
  {
    if IsLeapYear(y) then 366 else 365
  }

  function DaysInMonth(y: int, m: int): (n: int)
    requires 1 <= m <= 12
    ensures 28 <= n <= 31
    ensures n == 29 <==> m == 2 && IsLeapYear(y)
  {
    if m == 2 then (if IsLeapYear(y) then 29 else 28)
    else if m == 4 || m == 6 || m == 9 || m == 11 then 30
    else 31
  }

  /** A date the date picker can produce, with a four-digit year. */
  predicate ValidDate(d: CivilDate)
  {
    1 <= d.year <= 9999 && 1 <= d.month <= 12 && 1 <= d.day <= DaysInMonth(d.year, d.month)
  }

  type Date = d: CivilDate | ValidDate(d) witness CivilDate(1970, 1, 1)

  /** Strictly earlier in the calendar. */
  predicate Precedes(a: CivilDate, b: CivilDate)
  {
    a.year < b.year ||
    (a.year == b.year && (a.month < b.month || (a.month == b.month && a.day < b.day)))
  }

  /** Days from 1 January of year 1 to 1 January of year `y` (proleptic Gregorian). */
  function DaysBeforeYear(y: int): int
  {
    var k := y - 1;
    365 * k + k / 4 - k / 100 + k / 400
  }

  /** Days from 1 January to the first day of month `m` of year `y`. */
  function DaysBeforeMonth(y: int, m: int): int
    requires 1 <= m <= 12
  {
    [0, 31, 59, 90, 120, 151, 181, 212, 243, 273, 304, 334][m - 1]
    + (if m > 2 && IsLeapYear(y) then 1 else 0)
  }

  /** The day ordinal of a date: 1 January of year 1 is day 0. */
  function DayNumber(d: Date): int
  {
    DaysBeforeYear(d.year) + DaysBeforeMonth(d.year, d.month) + d.day - 1
  }

  lemma YearLength(y: int)
    ensures DaysBeforeYear(y + 1) == DaysBeforeYear(y) + DaysInYear(y)
  {
    QuotientStep4(y);
    QuotientStep100(y);
    QuotientStep400(y);
  }

  lemma QuotientStep4(y: int)
    ensures y / 4 == (y - 1) / 4 + (if y % 4 == 0 then 1 else 0)
  {
  }

  lemma QuotientStep100(y: int)
    ensures y / 100 == (y - 1) / 100 + (if y % 100 == 0 then 1 else 0)
  {
  }

  lemma QuotientStep400(y: int)
    ensures y / 400 == (y - 1) / 400 + (if y % 400 == 0 then 1 else 0)
  {
  }

  lemma {:induction false} YearsIncrease(a: int, b: int)
    requires a <= b
    ensures DaysBeforeYear(a) + 365 * (b - a) <= DaysBeforeYear(b)
    decreases b - a
  {
    if a < b {
      YearsIncrease(a, b - 1);
      YearLength(b - 1);
    }
  }

  lemma MonthsIncrease(y: int, m1: int, m2: int)
    requires 1 <= m1 < m2 <= 12
    ensures DaysBeforeMonth(y, m1) + DaysInMonth(y, m1) <= DaysBeforeMonth(y, m2)
  {
  }

  /** A date's ordinal lies within its own year. */
  lemma DayNumberInYear(d: Date)
    ensures DaysBeforeYear(d.year) <= DayNumber(d) < DaysBeforeYear(d.year + 1)
  {
    YearLength(d.year);
    if d.month < 12 {
      MonthsIncrease(d.year, d.month, 12);
    }
  }

  lemma PrecedesIncreases(a: Date, b: Date)
    requires Precedes(a, b)
    ensures DayNumber(a) < DayNumber(b)
  {
    if a.year < b.year {
      DayNumberInYear(a);
      DayNumberInYear(b);
      YearsIncrease(a.year + 1, b.year);
    } else if a.month < b.month {
      MonthsIncrease(a.year, a.month, b.month);
    }
  }

  /** Day ordinals order dates exactly as the calendar does: earlier, equal and later
      dates have smaller, equal and larger ordinals. */
  lemma DayNumberOrder(a: Date, b: Date)
    ensures Precedes(a, b) <==> DayNumber(a) < DayNumber(b)
    ensures a == b <==> DayNumber(a) == DayNumber(b)
  {
    if Precedes(a, b) {
      PrecedesIncreases(a, b);
    } else if Precedes(b, a) {
      PrecedesIncreases(b, a);
    } else {
      assert a == b;
    }
  }

  /** The calendar day after `d`. The last date of year 9999 has no successor here. */
  function NextDay(d: Date): (n: Date)
    requires d != CivilDate(9999, 12, 31)
    ensures Precedes(d, n)
  {
    if d.day < DaysInMonth(d.year, d.month) then CivilDate(d.year, d.month, d.day + 1)
    else if d.month < 12 then CivilDate(d.year, d.month + 1, 1)
    else CivilDate(d.year + 1, 1, 1)
  }

  /** No date lies strictly between a date and the next. */
  lemma NextDayIsSuccessor(d: Date, e: Date)
    requires d != CivilDate(9999, 12, 31)
    requires Precedes(d, e)
    ensures e == NextDay(d) || Precedes(NextDay(d), e)
  {
  }

  /** The day ordinal goes up by exactly one from a date to the next, so the difference of
      two ordinals counts calendar days, month and year ends included. */
  lemma NextDayIsOneLater(d: Date)
    requires d != CivilDate(9999, 12, 31)
    ensures DayNumber(NextDay(d)) == DayNumber(d) + 1
  {
    if d.day == DaysInMonth(d.year, d.month) && d.month == 12 {
      YearLength(d.year);
    }
  }

  /** `differenceInCalendarDays(later, earlier)`: whole calendar days from `earlier` to
      `later`, negative when `later` is in fact the earlier date. */
  function CalendarDaysBetween(later: Date, earlier: Date): (n: int)
    ensures n > 0 <==> Precedes(earlier, later)
    ensures n == 0 <==> later == earlier
    ensures n < 0 <==> Precedes(later, earlier)
  {
    DayNumberOrder(earlier, later);
    DayNumberOrder(later, earlier);
    DayNumber(later) - DayNumber(earlier)
  }
}
