/**
 * Calendar dates of the proleptic Gregorian calendar, as a JavaScript `Date`
 * sees them in local time, and the one operation the task store performs on
 * them: `setDate(getDate() + 1)`, which rolls a day past the end of a month
 * over into the first day of the next month (and of the next year after
 * December).
 *
 * The reference against which that increment is checked is `DayNumber`, the
 * count of days since 1 January of year 0, built from year and month lengths.
 */
module Calendar {

  datatype Date = Date(year: int, month: int, day: int)

  /** Gregorian leap years; `%` is Euclidean, which is right for years before 0 too. */
  predicate IsLeapYear(y: int) {
    y % 4 == 0 && (y % 100 != 0 || y % 400 == 0)
  }

  function DaysInMonth(y: int, m: int): int
    requires 1 <= m <= 12
  {
    if m == 2 then (if IsLeapYear(y) then 29 else 28)
    else if m == 4 || m == 6 || m == 9 || m == 11 then 30
    else 31
  }

  predicate ValidDate(d: Date) {
    1 <= d.month <= 12 && 1 <= d.day <= DaysInMonth(d.year, d.month)
  }

  /** A day that exists in the calendar. */
  type CalendarDate = d: Date | ValidDate(d) witness Date(1970, 1, 1)

  /** The same time of day, one calendar day later. */
  function AddOneDay(d: CalendarDate): CalendarDate {
    if d.day < DaysInMonth(d.year, d.month) then Date(d.year, d.month, d.day + 1)
    else if d.month < 12 then Date(d.year, d.month + 1, 1)
    else Date(d.year + 1, 1, 1)
  }

  // ---------------------------------------------------------------------------
  // The reference: days since 1 January of year 0.

  function YearLength(y: int): int {
    if IsLeapYear(y) then 366 else 365
  }

  /** Days from 1 January of year 0 to 1 January of year `y` (negative before year 0). */
  function DaysBeforeYear(y: int): int
    decreases if y < 0 then -y else y
  {
    if y == 0 then 0
    else if y > 0 then DaysBeforeYear(y - 1) + YearLength(y - 1)
    else DaysBeforeYear(y + 1) - YearLength(y)
  }

  /** Days of year `y` before the first of month `m`; month 13 stands for the end of the year. */
  function DaysBeforeMonth(y: int, m: int): int
    requires 1 <= m <= 13
  {
    if m == 1 then 0 else DaysBeforeMonth(y, m - 1) + DaysInMonth(y, m - 1)
  }

  function DayNumber(d: CalendarDate): int {
    DaysBeforeYear(d.year) + DaysBeforeMonth(d.year, d.month) + d.day - 1
  }

  // ---------------------------------------------------------------------------
  // Facts about the reference.

  lemma DaysBeforeYearStep(y: int)
    ensures DaysBeforeYear(y + 1) == DaysBeforeYear(y) + YearLength(y)
  {
  }

  /** Twelve months make a year. */
  lemma {:induction false} MonthsMakeYear(y: int)
    ensures DaysBeforeMonth(y, 13) == YearLength(y)
  {
    var feb := DaysInMonth(y, 2);
    assert DaysBeforeMonth(y, 2) == 31;
    assert DaysBeforeMonth(y, 3) == 31 + feb;
    assert DaysBeforeMonth(y, 4) == 62 + feb;
    assert DaysBeforeMonth(y, 5) == 92 + feb;
    assert DaysBeforeMonth(y, 6) == 123 + feb;
    assert DaysBeforeMonth(y, 7) == 153 + feb;
    assert DaysBeforeMonth(y, 8) == 184 + feb;
    assert DaysBeforeMonth(y, 9) == 215 + feb;
    assert DaysBeforeMonth(y, 10) == 245 + feb;
    assert DaysBeforeMonth(y, 11) == 276 + feb;
    assert DaysBeforeMonth(y, 12) == 306 + feb;
  }

  lemma {:induction false} DaysBeforeYearMonotone(a: int, b: int)
    requires a <= b
    ensures DaysBeforeYear(a) + (b - a) * 365 <= DaysBeforeYear(b)
    decreases b - a
  {
    if a < b {
      DaysBeforeYearMonotone(a, b - 1);
      DaysBeforeYearStep(b - 1);
    }
  }

  lemma {:induction false} DaysBeforeMonthMonotone(y: int, a: int, b: int)
    requires 1 <= a <= b <= 13
    ensures DaysBeforeMonth(y, a) + (b - a) * 28 <= DaysBeforeMonth(y, b)
    decreases b - a
  {
    if a < b {
      DaysBeforeMonthMonotone(y, a, b - 1);
    }
  }

  /** The day of the year of a valid date lies inside its year. */
  lemma {:induction false} DayOfYearBounds(d: CalendarDate)
    ensures 0 <= DaysBeforeMonth(d.year, d.month) + d.day - 1 < YearLength(d.year)
  {
    DaysBeforeMonthMonotone(d.year, 1, d.month);
    DaysBeforeMonthMonotone(d.year, d.month + 1, 13);
    assert DaysBeforeMonth(d.year, d.month + 1) == DaysBeforeMonth(d.year, d.month) + DaysInMonth(d.year, d.month);
    MonthsMakeYear(d.year);
  }

  /** Distinct dates have distinct day numbers, so `DayNumber` identifies a date. */
  lemma {:induction false} DayNumberInjective(a: CalendarDate, b: CalendarDate)
    requires DayNumber(a) == DayNumber(b)
    ensures a == b
  {
    DayOfYearBounds(a);
    DayOfYearBounds(b);
    if a.year < b.year {
      DaysBeforeYearMonotone(a.year + 1, b.year);
      DaysBeforeYearStep(a.year);
      assert false;
    } else if b.year < a.year {
      DaysBeforeYearMonotone(b.year + 1, a.year);
      DaysBeforeYearStep(b.year);
      assert false;
    } else if a.month < b.month {
      DaysBeforeMonthMonotone(a.year, a.month + 1, b.month);
      assert false;
    } else if b.month < a.month {
      DaysBeforeMonthMonotone(b.year, b.month + 1, a.month);
      assert false;
    }
  }

  /** `AddOneDay` is exactly one day later on the day count, across month and year ends and 29 February. */
  lemma {:induction false} AddOneDayIsNextDay(d: CalendarDate)
    ensures DayNumber(AddOneDay(d)) == DayNumber(d) + 1
  {
    if d.day == DaysInMonth(d.year, d.month) && d.month == 12 {
      DaysBeforeYearStep(d.year);
      MonthsMakeYear(d.year);
    }
  }

  /** Hence the result is THE next day: any date one day after `d` is `AddOneDay(d)`. */
  lemma {:induction false} AddOneDayUnique(d: CalendarDate, e: CalendarDate)
    requires DayNumber(e) == DayNumber(d) + 1
    ensures e == AddOneDay(d)
  {
    AddOneDayIsNextDay(d);
    DayNumberInjective(e, AddOneDay(d));
  }

  /** The calendar cases the Gregorian rules single out. */
  lemma AddOneDayExamples()
    ensures AddOneDay(Date(2024, 3, 1)) == Date(2024, 3, 2)
    ensures AddOneDay(Date(2024, 2, 28)) == Date(2024, 2, 29)
    ensures AddOneDay(Date(2023, 2, 28)) == Date(2023, 3, 1)
    ensures AddOneDay(Date(1900, 2, 28)) == Date(1900, 3, 1)
    ensures AddOneDay(Date(2000, 2, 28)) == Date(2000, 2, 29)
    ensures AddOneDay(Date(2024, 12, 31)) == Date(2025, 1, 1)
  {
  }
}
