/** The part of the ECMAScript Date object the calendar relies on: the abstract operations
    `DayFromYear`, `MakeDay` and `WeekDay` of ECMA-262 section 21.4.1, over day numbers
    counted from 1 January 1970, and the reading of a two-digit year by the `Date` constructor
    of section 21.4.2.1. Times of day, time zones and the time-value range limit play no part here. */
module JsDate {

  /** The Gregorian leap-year rule (`DaysInYear` is 366). */
  predicate IsLeapYear(y: int) {
    y % 4 == 0 && (y % 100 != 0 || y % 400 == 0)
  }

  /** `DayFromYear(y)`: the day number of 1 January of year `y`. Dafny's `/` by a positive
      constant is floor division, as the standard's formula requires. */
  function DayFromYear(y: int): int {
    365 * (y - 1970) + (y - 1969) / 4 - (y - 1901) / 100 + (y - 1601) / 400
  }

  /** `(x + 1) / d` exceeds `x / d` by one exactly when `d` divides `x + 1`, for the three
      divisors of the leap-year rule. */
  lemma FloorDivStep(x: int, d: int)
    requires d == 4 || d == 100 || d == 400
    ensures (x + 1) / d == x / d + (if (x + 1) % d == 0 then 1 else 0)
  {
  }

  /** Moving by a multiple of the divisor does not change the remainder. */
  lemma ShiftMod4(y: int)
    ensures (y - 1968) % 4 == y % 4
  {
    var r := y % 4;
    assert y - 1968 == 4 * (y / 4 - 492) + r;
  }

  lemma ShiftMod100(y: int)
    ensures (y - 1900) % 100 == y % 100
  {
    var r := y % 100;
    assert y - 1900 == 100 * (y / 100 - 19) + r;
  }

  lemma ShiftMod400(y: int)
    ensures (y - 1600) % 400 == y % 400
  {
    var r := y % 400;
    assert y - 1600 == 400 * (y / 400 - 4) + r;
  }

  /** The three correction terms of `DayFromYear` each step by one in the years the rule names. */
  lemma DayFromYearStep(y: int)
    ensures DayFromYear(y + 1) - DayFromYear(y)
      == 365 + (if y % 4 == 0 then 1 else 0) - (if y % 100 == 0 then 1 else 0) + (if y % 400 == 0 then 1 else 0)
  {
    FloorDivStep(y - 1969, 4);
    FloorDivStep(y - 1901, 100);
    FloorDivStep(y - 1601, 400);
    ShiftMod4(y);
    ShiftMod100(y);
    ShiftMod400(y);
  }

  /** A multiple of 400 is one of 100, and a multiple of 100 one of 4. */
  lemma Divides400Then100(y: int)
    requires y % 400 == 0
    ensures y % 100 == 0
  {
    assert y == 100 * (4 * (y / 400));
  }

  lemma Divides100Then4(y: int)
    requires y % 100 == 0
    ensures y % 4 == 0
  {
    assert y == 4 * (25 * (y / 100));
  }

  /** A year is 365 days long, 366 when it is a leap year. */
  lemma YearLength(y: int)
    ensures DayFromYear(y + 1) - DayFromYear(y) == if IsLeapYear(y) then 366 else 365
  {
    DayFromYearStep(y);
    if y % 400 == 0 {
      Divides400Then100(y);
    }
    if y % 100 == 0 {
      Divides100Then4(y);
    }
  }

  /** The constructor's year argument: 0 to 99 stand for 1900 to 1999 (`MakeFullYear`). */
  function JsYear(y: int): (r: int)
    ensures 0 <= y <= 99 ==> r == 1900 + y
    ensures !(0 <= y <= 99) ==> r == y
  {
    if 0 <= y <= 99 then 1900 + y else y
  }

  /** The year and month `MakeDay` settles on for a month number outside 0..11: the months
      overflow into the year, in both directions. */
  function MakeMonth(y: int, m: int): (r: (int, int))
    ensures 0 <= r.1 < 12
    ensures 12 * r.0 + r.1 == 12 * y + m
  {
    (y + m / 12, m % 12)
  }

  /** Days before the first of month `m` (0..11) in a year. */
  function DaysBeforeMonth(m: int, leap: bool): int
    requires 0 <= m < 12
  {
    var table := [0, 31, 59, 90, 120, 151, 181, 212, 243, 273, 304, 334];
    table[m] + (if leap && m >= 2 then 1 else 0)
  }

  /** `MakeDay(year, month, date)`: the day number of that date, months and dates out of range
      counting on into the next months (date 0 is the day before the 1st). */
  function MakeDay(y: int, m: int, date: int): int {
    var (ym, mn) := MakeMonth(y, m);
    DayFromYear(ym) + DaysBeforeMonth(mn, IsLeapYear(ym)) + date - 1
  }

  /** `WeekDay`: 0 is Sunday; 1 January 1970 was a Thursday. */
  function WeekDay(day: int): (w: int)
    ensures 0 <= w < 7
  {
    (day + 4) % 7
  }

  /** The lengths of the Gregorian months (0 is January). */
  function MonthLength(y: int, m: int): int
    requires 0 <= m < 12
  {
    if m == 1 then (if IsLeapYear(y) then 29 else 28)
    else if m == 3 || m == 5 || m == 8 || m == 10 then 30
    else 31
  }

  /** `new Date(year, month + 1, 0).getDate()`: day 0 of the next month is the last day of
      this one, and its date is its distance from this month's 1st, plus one. */
  function DaysInMonth(year: int, month: int): int {
    var y := JsYear(year);
    MakeDay(y, month + 1, 0) - MakeDay(y, month, 1) + 1
  }

  /** `new Date(year, month, 1).getDay()`. */
  function FirstWeekday(year: int, month: int): int {
    WeekDay(MakeDay(JsYear(year), month, 1))
  }

  /** The 1st of a month in range is the year's start plus the days of the months before. */
  lemma MonthStart(y: int, m: int)
    requires 0 <= m < 12
    ensures MakeDay(y, m, 1) == DayFromYear(y) + DaysBeforeMonth(m, IsLeapYear(y))
  {
    assert MakeMonth(y, m) == (y, m);
  }

  /** Month 12 is January of the next year. */
  lemma MonthTwelve(y: int)
    ensures MakeDay(y, 12, 1) == DayFromYear(y + 1)
  {
    assert MakeMonth(y, 12) == (y + 1, 0);
  }

  /** Consecutive entries of the table differ by the month's length. */
  lemma TableStep(m: int, leap: bool, y: int)
    requires 0 <= m < 11 && leap == IsLeapYear(y)
    ensures DaysBeforeMonth(m + 1, leap) - DaysBeforeMonth(m, leap) == MonthLength(y, m)
  {
  }

  /** The JavaScript computation gives the Gregorian month lengths, leap-year February
      included (for the years 0..99 those of 1900..1999, as the constructor reads them). */
  lemma DaysInMonthGregorian(year: int, month: int)
    requires 0 <= month < 12
    ensures DaysInMonth(year, month) == MonthLength(JsYear(year), month)
    ensures 28 <= DaysInMonth(year, month) <= 31
  {
    var y := JsYear(year);
    MakeDayShift(y, month + 1, 0);
    MonthStart(y, month);
    if month == 11 {
      MonthTwelve(y);
      YearLength(y);
    } else {
      MonthStart(y, month + 1);
      TableStep(month, IsLeapYear(y), y);
    }
  }

  /** February has 29 days exactly in leap years. */
  lemma FebruaryLength(year: int)
    requires !(0 <= year <= 99)
    ensures DaysInMonth(year, 1) == 29 <==> IsLeapYear(year)
  {
    DaysInMonthGregorian(year, 1);
  }

  /** Moving on by `d1 - d0` days moves the week day on by as much, modulo 7. */
  lemma WeekDayAdvance(d0: int, d1: int)
    ensures WeekDay(d1) == (WeekDay(d0) + (d1 - d0)) % 7
  {
    var q := (d0 + 4) / 7;
    assert d1 + 4 == 7 * q + (WeekDay(d0) + (d1 - d0));
  }

  /** The date argument counts on linearly from the 1st of the month. */
  lemma MakeDayShift(y: int, m: int, date: int)
    ensures MakeDay(y, m, date) == MakeDay(y, m, 1) + date - 1
  {
  }

  /** Month grids line up: a month starts on the week day after the previous month's last. */
  lemma NextMonthStartsAfter(year: int, month: int)
    ensures FirstWeekday(year, month + 1) == (FirstWeekday(year, month) + DaysInMonth(year, month)) % 7
  {
    var y := JsYear(year);
    var d0, d1 := MakeDay(y, month, 1), MakeDay(y, month + 1, 1);
    MakeDayShift(y, month + 1, 0);
    WeekDayAdvance(d0, d1);
  }

  /** The same across a year boundary, where the source's year is read as itself. */
  lemma JanuaryStartsAfterDecember(year: int)
    requires !(0 <= year <= 99) && !(0 <= year + 1 <= 99)
    ensures FirstWeekday(year + 1, 0) == (FirstWeekday(year, 11) + DaysInMonth(year, 11)) % 7
  {
    NextMonthStartsAfter(year, 11);
    assert MakeMonth(year, 12) == (year + 1, 0) && MakeMonth(year + 1, 0) == (year + 1, 0);
    assert MakeDay(year, 12, 1) == MakeDay(year + 1, 0, 1);
  }

  /** 1 January 2024 was a Monday. */
  lemma NewYear2024()
    ensures MakeDay(2024, 0, 1) == 19723 && FirstWeekday(2024, 0) == 1
  {
    assert MakeMonth(2024, 0) == (2024, 0);
  }
}
