/** The proleptic Gregorian calendar of section 21.4.1 of ECMA-262, on day numbers counted from
    1 January 1970.  Months run from 0 to 11 and days of the month from 1. */
module Calendar {

  datatype Civil = Civil(year: int, month: int, day: int)

  predicate Leap(y: int) {
    y % 4 == 0 && (y % 100 != 0 || y % 400 == 0)
  }

  function DaysInYear(y: int): int { if Leap(y) then 366 else 365 }

  /** Day number of 1 January of a year. */
  function DayFromYear(y: int): int {
    365 * (y - 1970) + (y - 1969) / 4 - (y - 1901) / 100 + (y - 1601) / 400
  }

  /** Days of the year before the first of a month. */
  function MonthStart(m: int, leap: bool): int
    requires 0 <= m <= 12
  {
    var l := if leap then 1 else 0;
    if m == 0 then 0 else if m == 1 then 31 else if m == 2 then 59 + l else if m == 3 then 90 + l
    else if m == 4 then 120 + l else if m == 5 then 151 + l else if m == 6 then 181 + l
    else if m == 7 then 212 + l else if m == 8 then 243 + l else if m == 9 then 273 + l
    else if m == 10 then 304 + l else if m == 11 then 334 + l else 365 + l
  }

  function DaysInMonth(y: int, m: int): (n: int)
    requires 0 <= m < 12
    ensures 28 <= n <= 31
    ensures n == if m == 1 then (if Leap(y) then 29 else 28) else if m in {3, 5, 8, 10} then 30 else 31
  {
    MonthStart(m + 1, Leap(y)) - MonthStart(m, Leap(y))
  }

  predicate ValidCivil(c: Civil) {
    0 <= c.month < 12 && 1 <= c.day <= DaysInMonth(c.year, c.month)
  }

  /** MakeDay: months outside 0..11 carry into the year, days outside the month into the day number. */
  function MakeDay(year: int, month: int, date: int): int {
    var y := year + month / 12;
    DayFromYear(y) + MonthStart(month % 12, Leap(y)) + date - 1
  }

  lemma Step4(y: int)
    ensures (y - 1968) / 4 - (y - 1969) / 4 == if y % 4 == 0 then 1 else 0
  {
  }

  lemma Step100(y: int)
    ensures (y - 1900) / 100 - (y - 1901) / 100 == if y % 100 == 0 then 1 else 0
    ensures y % 100 == 0 ==> y % 4 == 0
  {
  }

  lemma Step400(y: int)
    ensures (y - 1600) / 400 - (y - 1601) / 400 == if y % 400 == 0 then 1 else 0
    ensures y % 400 == 0 ==> y % 100 == 0
  {
  }

  /** The closed form of DayFromYear agrees with the leap-year rule. */
  lemma YearLength(y: int)
    ensures DayFromYear(y + 1) == DayFromYear(y) + DaysInYear(y)
  {
    Step4(y);
    Step100(y);
    Step400(y);
    assert y + 1 - 1969 == y - 1968 && y + 1 - 1901 == y - 1900 && y + 1 - 1601 == y - 1600;
  }

  lemma {:induction false} YearsIncrease(a: int, b: int)
    requires a <= b
    ensures DayFromYear(a) <= DayFromYear(b)
    decreases b - a
  {
    if a < b {
      YearLength(b - 1);
      YearsIncrease(a, b - 1);
    }
  }

  /** The first year at or after y whose successor starts after day n. */
  function ClimbToYear(n: int, y: int): (r: int)
    requires DayFromYear(y) <= n
    ensures DayFromYear(r) <= n < DayFromYear(r + 1)
    decreases n - DayFromYear(y)
  {
    YearLength(y);
    hide DayFromYear;
    if n < DayFromYear(y + 1) then y else ClimbToYear(n, y + 1)
  }

  /** YearFromTime: the year whose first day is the last one not after n. */
  function YearOf(n: int): (y: int)
    ensures DayFromYear(y) <= n < DayFromYear(y + 1)
  {
    ClimbToYear(n, 1970 + (if n >= 0 then n / 366 else n / 365))
  }

  /** The month that holds a day of the year counted from 0. */
  function MonthOf(dayInYear: int, leap: bool): (m: int)
    requires 0 <= dayInYear < MonthStart(12, leap)
    ensures 0 <= m < 12 && MonthStart(m, leap) <= dayInYear < MonthStart(m + 1, leap)
  {
    if dayInYear < MonthStart(1, leap) then 0 else if dayInYear < MonthStart(2, leap) then 1
    else if dayInYear < MonthStart(3, leap) then 2 else if dayInYear < MonthStart(4, leap) then 3
    else if dayInYear < MonthStart(5, leap) then 4 else if dayInYear < MonthStart(6, leap) then 5
    else if dayInYear < MonthStart(7, leap) then 6 else if dayInYear < MonthStart(8, leap) then 7
    else if dayInYear < MonthStart(9, leap) then 8 else if dayInYear < MonthStart(10, leap) then 9
    else if dayInYear < MonthStart(11, leap) then 10 else 11
  }

  lemma MonthStartsIncrease(a: int, b: int, leap: bool)
    requires 0 <= a <= b <= 12
    ensures MonthStart(a, leap) <= MonthStart(b, leap)
  {
  }

  /** Day of the year counted from 0. */
  function DayInYear(m: int, d: int, leap: bool): int
    requires 0 <= m < 12
  {
    MonthStart(m, leap) + d - 1
  }

  /** A valid day falls between the start of its month and the start of the next. */
  lemma DayInMonthRange(c: Civil)
    requires ValidCivil(c)
    ensures MonthStart(c.month, Leap(c.year)) <= DayInYear(c.month, c.day, Leap(c.year))
    ensures DayInYear(c.month, c.day, Leap(c.year)) < MonthStart(c.month + 1, Leap(c.year))
    ensures 0 <= DayInYear(c.month, c.day, Leap(c.year)) < DaysInYear(c.year)
  {
    MonthStartsIncrease(0, c.month, Leap(c.year));
    MonthStartsIncrease(c.month + 1, 12, Leap(c.year));
  }

  /** Year, month and day of the month of a day number. */
  function CivilOf(n: int): (c: Civil)
    ensures ValidCivil(c)
    ensures DayOf(c) == n
  {
    hide DayFromYear, Leap, YearOf, MonthStart, MonthOf, DaysInMonth;
    var y := YearOf(n);
    YearLength(y);
    YearEnd(y);
    var leap := Leap(y);
    var k := n - DayFromYear(y);
    var m := MonthOf(k, leap);
    MonthLength(y, m);
    Civil(y, m, k - MonthStart(m, leap) + 1)
  }

  lemma YearEnd(y: int)
    ensures MonthStart(12, Leap(y)) == DaysInYear(y)
  {
  }

  lemma MonthLength(y: int, m: int)
    requires 0 <= m < 12
    ensures MonthStart(m + 1, Leap(y)) == MonthStart(m, Leap(y)) + DaysInMonth(y, m)
  {
  }

  /** The day number of a calendar date. */
  function DayOf(c: Civil): int
    requires 0 <= c.month < 12
  {
    DayFromYear(c.year) + DayInYear(c.month, c.day, Leap(c.year))
  }

  lemma MakeDayOf(c: Civil)
    requires 0 <= c.month < 12
    ensures MakeDay(c.year, c.month, c.day) == DayOf(c)
  {
  }

  /** Months counted from January of year 0. */
  function MonthIndex(c: Civil): int { 12 * c.year + c.month }

  lemma MonthBefore(a: Civil, b: Civil)
    requires ValidCivil(a) && ValidCivil(b) && MonthIndex(a) < MonthIndex(b)
    ensures DayOf(a) < DayOf(b)
  {
    hide MonthStart, DayFromYear, DaysInMonth, DayInYear, Leap;
    DayInMonthRange(a);
    DayInMonthRange(b);
    if a.year < b.year {
      YearLength(a.year);
      YearsIncrease(a.year + 1, b.year);
    } else {
      MonthStartsIncrease(a.month + 1, b.month, Leap(a.year));
    }
  }

  /** Day numbers order calendar dates by month first and by day of the month second. */
  lemma DayOrder(a: Civil, b: Civil)
    requires ValidCivil(a) && ValidCivil(b)
    ensures DayOf(a) < DayOf(b) <==>
            MonthIndex(a) < MonthIndex(b) || (MonthIndex(a) == MonthIndex(b) && a.day < b.day)
  {
    hide MonthStart, DayFromYear, DaysInMonth;
    if MonthIndex(a) < MonthIndex(b) {
      MonthBefore(a, b);
    } else if MonthIndex(b) < MonthIndex(a) {
      MonthBefore(b, a);
    } else {
      assert a.year == b.year && a.month == b.month;
    }
  }

  /** Distinct dates have distinct day numbers. */
  lemma CivilUnique(r: Civil, c: Civil)
    requires ValidCivil(c) && ValidCivil(r) && DayOf(r) == DayOf(c)
    ensures r == c
  {
    hide DayOf, DaysInMonth;
    DayOrder(r, c);
    DayOrder(c, r);
    assert r.year == c.year && r.month == c.month;
  }

  /** Reading back the date of a valid date's day number gives the date. */
  lemma DayThenCivil(c: Civil)
    requires ValidCivil(c)
    ensures CivilOf(DayOf(c)) == c
  {
    CivilUnique(CivilOf(DayOf(c)), c);
  }

  /** The date of the next day, by the lengths of the months and the rule of leap years. */
  ghost function Successor(c: Civil): Civil {
    var length := if c.month == 1 then (if c.year % 4 == 0 && (c.year % 100 != 0 || c.year % 400 == 0) then 29 else 28)
                  else if c.month == 3 || c.month == 5 || c.month == 8 || c.month == 10 then 30 else 31;
    if c.day < length then Civil(c.year, c.month, c.day + 1)
    else if c.month < 11 then Civil(c.year, c.month + 1, 1)
    else Civil(c.year + 1, 0, 1)
  }

  lemma SuccessorDay(c: Civil)
    requires ValidCivil(c)
    ensures ValidCivil(Successor(c)) && DayOf(Successor(c)) == DayOf(c) + 1
  {
    hide DayFromYear;
    if c.month == 11 {
      YearLength(c.year);
    }
  }

  /** Main theorem.  The calendar counts days one by one from 1 January 1970. */
  lemma NextDay(n: int)
    ensures CivilOf(0) == Civil(1970, 0, 1)
    ensures CivilOf(n + 1) == Successor(CivilOf(n))
  {
    hide CivilOf, DayOf, Successor, DaysInMonth;
    SuccessorDay(CivilOf(n));
    CivilUnique(CivilOf(n + 1), Successor(CivilOf(n)));
    EpochDay();
    CivilUnique(CivilOf(0), Civil(1970, 0, 1));
  }

  lemma EpochDay()
    ensures ValidCivil(Civil(1970, 0, 1)) && DayOf(Civil(1970, 0, 1)) == 0
  {
  }
}
