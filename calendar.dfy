/**
 * UTC calendar arithmetic over whole seconds since 1970-01-01T00:00:00Z, in
 * the proleptic Gregorian calendar the `chrono` crate uses: truncation to the
 * hour and to the day, the weekday, and the conversion between day numbers
 * and (year, month, day) dates.
 */
module Calendar {

  const SecondsPerHour := 3600
  const SecondsPerDay := 86400

  /** The day number (days since the epoch, rounded down) of a timestamp. */
  function DayNumber(t: int): int
  {
    t / SecondsPerDay
  }

  predicate IsMidnight(t: int)
  {
    t % SecondsPerDay == 0
  }

  /** `t` with hour, minute and second set to zero. */
  function StartOfDay(t: int): (s: int)
    ensures s <= t < s + SecondsPerDay
    ensures IsMidnight(s)
    ensures s == DayNumber(t) * SecondsPerDay
  {
    t - t % SecondsPerDay
  }

  /** `t` with minute and second set to zero. */
  function StartOfHour(t: int): (s: int)
    ensures s <= t < s + SecondsPerHour
    ensures s % SecondsPerHour == 0
  {
    t - t % SecondsPerHour
  }

  /**
   * `weekday().num_days_from_monday()` of a day number: 0 for Monday, 6 for
   * Sunday. Day 0, 1970-01-01, was a Thursday.
   */
  function DaysFromMonday(day: int): (w: int)
    ensures 0 <= w < 7
    ensures day == 0 ==> w == 3
  {
    (day + 3) % 7
  }

  lemma MondayOfWeek(day: int)
    ensures DaysFromMonday(day - DaysFromMonday(day)) == 0
  {
    var k := day + 3;
    assert k == 7 * (k / 7) + k % 7;
    assert day - DaysFromMonday(day) + 3 == 7 * (k / 7);
  }

  predicate IsLeapYear(y: int)
  {
    y % 4 == 0 && (y % 100 != 0 || y % 400 == 0)
  }

  function DaysInYear(y: int): int
  {
    if IsLeapYear(y) then 366 else 365
  }

  function DaysInMonth(y: int, m: int): int
    requires 1 <= m <= 12
  {
    if m == 2 then (if IsLeapYear(y) then 29 else 28)
    else if m == 4 || m == 6 || m == 9 || m == 11 then 30
    else 31
  }

  /** Days of year `y` before the first of month `m`. */
  function DaysBeforeMonth(y: int, m: int): int
    requires 1 <= m <= 12
  {
    var common :=
      match m
      case 1 => 0 case 2 => 31 case 3 => 59 case 4 => 90 case 5 => 120 case 6 => 151
      case 7 => 181 case 8 => 212 case 9 => 243 case 10 => 273 case 11 => 304 case _ => 334;
    common + (if m > 2 && IsLeapYear(y) then 1 else 0)
  }

  lemma MonthTable(y: int, m: int)
    requires 1 <= m <= 12
    ensures m < 12 ==> DaysBeforeMonth(y, m + 1) == DaysBeforeMonth(y, m) + DaysInMonth(y, m)
    ensures m == 12 ==> DaysBeforeMonth(y, m) + DaysInMonth(y, m) == DaysInYear(y)
  {
  }

  /** The day number of January 1 of year `y`. */
  function DaysBeforeYear(y: int): int
    decreases if y >= 1970 then y - 1970 else 1970 - y
  {
    if y == 1970 then 0
    else if y > 1970 then DaysBeforeYear(y - 1) + DaysInYear(y - 1)
    else DaysBeforeYear(y + 1) - DaysInYear(y)
  }

  lemma DaysBeforeYearStep(y: int)
    ensures DaysBeforeYear(y + 1) == DaysBeforeYear(y) + DaysInYear(y)
  {
  }

  datatype Date = Date(year: int, month: int, day: int)

  predicate ValidDate(d: Date)
  {
    1 <= d.month <= 12 && 1 <= d.day <= DaysInMonth(d.year, d.month)
  }

  /** The day number of a date. */
  function DaysFromCivil(d: Date): int
    requires 1 <= d.month <= 12
  {
    DaysBeforeYear(d.year) + DaysBeforeMonth(d.year, d.month) + d.day - 1
  }

  /** The month and day-of-month of the day `rem` days after the first of month `m` in year `y`. */
  function MonthOf(y: int, m: int, rem: int): (r: Date)
    requires 1 <= m <= 12 && 0 <= rem
    requires DaysBeforeMonth(y, m) + rem < DaysInYear(y)
    ensures ValidDate(r) && r.year == y
    ensures DaysBeforeMonth(y, r.month) + r.day - 1 == DaysBeforeMonth(y, m) + rem
    decreases 12 - m
  {
    MonthTable(y, m);
    if rem < DaysInMonth(y, m) then Date(y, m, rem + 1)
    else MonthOf(y, m + 1, rem - DaysInMonth(y, m))
  }

  /** The date `off` days after January 1 of year `y`; `off` may be negative or exceed the year. */
  function Locate(y: int, off: int): (r: Date)
    ensures ValidDate(r)
    ensures DaysFromCivil(r) == DaysBeforeYear(y) + off
    decreases if off < 0 then -off else 0, if off < 0 then 0 else off
  {
    if off < 0 then
      DaysBeforeYearStep(y - 1);
      Locate(y - 1, off + DaysInYear(y - 1))
    else if off >= DaysInYear(y) then
      DaysBeforeYearStep(y);
      Locate(y + 1, off - DaysInYear(y))
    else
      MonthOf(y, 1, off)
  }

  /** `date_naive()` of a day number. */
  function CivilFromDays(n: int): (d: Date)
    ensures ValidDate(d) && DaysFromCivil(d) == n
  {
    Locate(1970, n)
  }

  /** The first of the month after the month of `d`; December rolls over to January of the next year. */
  function NextMonthStart(d: Date): (r: Date)
    requires ValidDate(d)
    ensures ValidDate(r) && r.day == 1
    ensures DaysFromCivil(r) == DaysFromCivil(d.(day := 1)) + DaysInMonth(d.year, d.month)
  {
    MonthTable(d.year, d.month);
    if d.month == 12 then
      DaysBeforeYearStep(d.year);
      Date(d.year + 1, 1, 1)
    else Date(d.year, d.month + 1, 1)
  }

  /** A valid date is the only date with its day number. */
  lemma CivilFromDaysUnique(n: int, d: Date)
    requires ValidDate(d) && DaysFromCivil(d) == n
    ensures CivilFromDays(n) == d
  {
    var e := CivilFromDays(n);
    DaysFromCivilInjective(d, e);
  }

  lemma DaysFromCivilInjective(d: Date, e: Date)
    requires ValidDate(d) && ValidDate(e) && DaysFromCivil(d) == DaysFromCivil(e)
    ensures d == e
  {
    DayOfYearBounds(d);
    DayOfYearBounds(e);
    if d.year < e.year {
      DaysBeforeYearMonotone(d.year + 1, e.year);
      DaysBeforeYearStep(d.year);
      assert false;
    } else if e.year < d.year {
      DaysBeforeYearMonotone(e.year + 1, d.year);
      DaysBeforeYearStep(e.year);
      assert false;
    } else if d.month < e.month {
      DaysBeforeMonthMonotone(d.year, d.month + 1, e.month);
      MonthTable(d.year, d.month);
      assert false;
    } else if e.month < d.month {
      DaysBeforeMonthMonotone(e.year, e.month + 1, d.month);
      MonthTable(e.year, e.month);
      assert false;
    }
  }

  /** A date's offset within its year is below the year's length. */
  lemma DayOfYearBounds(d: Date)
    requires ValidDate(d)
    ensures 0 <= DaysBeforeMonth(d.year, d.month) + d.day - 1 < DaysInYear(d.year)
  {
    DaysBeforeMonthMonotone(d.year, d.month, 12);
    MonthTable(d.year, 12);
    MonthTable(d.year, d.month);
    if d.month < 12 {
      DaysBeforeMonthMonotone(d.year, d.month + 1, 12);
    }
  }

  lemma {:induction false} DaysBeforeMonthMonotone(y: int, m1: int, m2: int)
    requires 1 <= m1 <= m2 <= 12
    ensures DaysBeforeMonth(y, m1) <= DaysBeforeMonth(y, m2)
    decreases m2 - m1
  {
    if m1 < m2 {
      MonthTable(y, m1);
      DaysBeforeMonthMonotone(y, m1 + 1, m2);
    }
  }

  lemma {:induction false} DaysBeforeYearMonotone(y1: int, y2: int)
    requires y1 <= y2
    ensures DaysBeforeYear(y1) <= DaysBeforeYear(y2)
    decreases y2 - y1
  {
    if y1 < y2 {
      DaysBeforeYearStep(y1);
      DaysBeforeYearMonotone(y1 + 1, y2);
    }
  }
}
