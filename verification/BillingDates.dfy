/** Billing interval arithmetic on UTC time values (milliseconds since 1 January 1970). */
module BillingDates {
  import opened Decimals
  import opened Calendar

  const MS_PER_DAY: int := 86_400_000

  datatype IntervalUnit = Day | Month | Year

  function DayNumber(t: int): int { t / MS_PER_DAY }

  function TimeWithinDay(t: int): int { t % MS_PER_DAY }

  function MakeDate(day: int, time: int): int { day * MS_PER_DAY + time }

  function DateOf(t: int): (c: Civil)
    ensures ValidCivil(c)
  {
    CivilOf(DayNumber(t))
  }

  lemma MakeDateParts(day: int, time: int)
    requires 0 <= time < MS_PER_DAY
    ensures DayNumber(MakeDate(day, time)) == day && TimeWithinDay(MakeDate(day, time)) == time
  {
  }

  lemma TimeParts(t: int)
    ensures t == MakeDate(DayNumber(t), TimeWithinDay(t)) && 0 <= TimeWithinDay(t) < MS_PER_DAY
  {
  }

  // ----- The setters of section 21.4.4 of ECMA-262, as functions of the time value -----

  function WithUtcDate(t: int, date: int): int {
    var c := DateOf(t);
    MakeDate(MakeDay(c.year, c.month, date), TimeWithinDay(t))
  }

  function WithUtcMonth(t: int, month: int): int {
    var c := DateOf(t);
    MakeDate(MakeDay(c.year, month, c.day), TimeWithinDay(t))
  }

  function WithUtcFullYear(t: int, year: int): int {
    var c := DateOf(t);
    MakeDate(MakeDay(year, c.month, c.day), TimeWithinDay(t))
  }

  /** Date.UTC reads the years 0 to 99 as 1900 to 1999. */
  function UtcYear(year: int): int {
    if 0 <= year <= 99 then 1900 + year else year
  }

  function DateUtc(year: int, month: int, date: int): int {
    MakeDate(MakeDay(UtcYear(year), month, date), 0)
  }

  /** A Date object. */
  class UtcDate {
    var time: int

    constructor (t: int)
      ensures time == t
    {
      time := t;
    }

    method SetUtcDate(date: int)
      modifies this
      ensures time == WithUtcDate(old(time), date)
    {
      var c := DateOf(time);
      time := MakeDate(MakeDay(c.year, c.month, date), TimeWithinDay(time));
    }

    method SetUtcMonth(month: int)
      modifies this
      ensures time == WithUtcMonth(old(time), month)
    {
      var c := DateOf(time);
      time := MakeDate(MakeDay(c.year, month, c.day), TimeWithinDay(time));
    }

    method SetUtcFullYear(year: int)
      modifies this
      ensures time == WithUtcFullYear(old(time), year)
    {
      var c := DateOf(time);
      time := MakeDate(MakeDay(year, c.month, c.day), TimeWithinDay(time));
    }
  }

  // ----- What each setter does to the calendar date -----

  lemma PlaceDate(c: Civil, time: int)
    requires ValidCivil(c) && 0 <= time < MS_PER_DAY
    ensures DateOf(MakeDate(DayOf(c), time)) == c && TimeWithinDay(MakeDate(DayOf(c), time)) == time
  {
    MakeDateParts(DayOf(c), time);
    DayThenCivil(c);
  }

  lemma SetDateInMonth(t: int, date: int)
    requires 1 <= date <= DaysInMonth(DateOf(t).year, DateOf(t).month)
    ensures DateOf(WithUtcDate(t, date)) == DateOf(t).(day := date)
    ensures TimeWithinDay(WithUtcDate(t, date)) == TimeWithinDay(t)
  {
    hide CivilOf, MonthStart, DaysInMonth;
    var c := DateOf(t).(day := date);
    MakeDayOf(c);
    PlaceDate(c, TimeWithinDay(t));
  }

  lemma SetMonthFromFirst(t: int, month: int)
    requires DateOf(t).day == 1
    ensures DateOf(WithUtcMonth(t, month)) == Civil(DateOf(t).year + month / 12, month % 12, 1)
    ensures TimeWithinDay(WithUtcMonth(t, month)) == TimeWithinDay(t)
  {
    hide CivilOf, DaysInMonth, MonthStart;
    var c := Civil(DateOf(t).year + month / 12, month % 12, 1);
    MakeDayOf(c);
    assert MakeDay(DateOf(t).year, month, 1) == MakeDay(c.year, c.month, 1);
    PlaceDate(c, TimeWithinDay(t));
  }

  lemma SetYearFromFirst(t: int, year: int)
    requires DateOf(t).day == 1
    ensures DateOf(WithUtcFullYear(t, year)) == Civil(year, DateOf(t).month, 1)
    ensures TimeWithinDay(WithUtcFullYear(t, year)) == TimeWithinDay(t)
  {
    hide CivilOf, MonthStart;
    var c := Civil(year, DateOf(t).month, 1);
    MakeDayOf(c);
    PlaceDate(c, TimeWithinDay(t));
  }

  lemma NextMonthStart(y: int, m: int)
    requires 0 <= m < 12
    ensures MakeDay(y, m + 1, 0) == DayOf(Civil(y, m, DaysInMonth(y, m)))
  {
    if m == 11 {
      YearLength(y);
      assert (m + 1) / 12 == 1 && (m + 1) % 12 == 0;
    } else {
      assert (m + 1) / 12 == 0 && (m + 1) % 12 == m + 1;
    }
  }

  /** The length the service computes for a month, through Date.UTC. */
  function UtcDaysInMonth(y: int, m: int): (n: int)
    requires 0 <= m < 12
    ensures 28 <= n <= 31
  {
    DaysInMonth(UtcYear(y), m)
  }

  /** Day 0 of the next month is the last day of this one, in the year Date.UTC reads. */
  lemma LastDayThroughDateUtc(y: int, m: int)
    requires 0 <= m < 12
    ensures DateOf(DateUtc(y, m + 1, 0)).day == UtcDaysInMonth(y, m)
  {
    NextMonthStart(UtcYear(y), m);
    PlaceDate(Civil(UtcYear(y), m, UtcDaysInMonth(y, m)), 0);
  }

  lemma LeapThroughDateUtc(y: int)
    ensures Leap(UtcYear(y)) != Leap(y) <==> y == 0
  {
    if 0 <= y <= 99 {
      assert (1900 + y) % 4 == y % 4;
    }
  }

  /** Reading two-digit years as 19xx gives the wrong month length for February of year 0 only. */
  lemma WrongMonthLength(y: int, m: int)
    requires 0 <= m < 12
    ensures UtcDaysInMonth(y, m) != DaysInMonth(y, m) <==> y == 0 && m == 1
    ensures UtcDaysInMonth(y, m) <= DaysInMonth(y, m)
  {
    LeapThroughDateUtc(y);
  }

  // ----- The specification of addInterval -----

  /** The date n months after c, its day clamped to the computed length of the target month. */
  function ShiftMonths(c: Civil, n: int): (r: Civil)
    requires ValidCivil(c)
    ensures ValidCivil(r) && MonthIndex(r) == MonthIndex(c) + n
  {
    var i := MonthIndex(c) + n;
    WrongMonthLength(i / 12, i % 12);
    Civil(i / 12, i % 12, Min(c.day, UtcDaysInMonth(i / 12, i % 12)))
  }

  function AddMonths(t: int, n: int): int {
    MakeDate(DayOf(ShiftMonths(DateOf(t), n)), TimeWithinDay(t))
  }

  function Interval(t: int, unit: IntervalUnit, count: int): int {
    match unit
    case Day => t + count * MS_PER_DAY
    case Month => AddMonths(t, count)
    case Year => SetYears(t, count)
  }

  /** The setters of the YEAR branch, one after the other: first of the month, year, month again, and
      the day clamped to the last day through Date.UTC. */
  function SetYears(t: int, count: int): int {
    var c := DateOf(t);
    var first := WithUtcDate(t, 1);
    var year := WithUtcFullYear(first, DateOf(first).year + count);
    var month := WithUtcMonth(year, c.month);
    var lastDay := DateOf(DateUtc(DateOf(month).year, DateOf(month).month + 1, 0)).day;
    WithUtcDate(month, Min(c.day, lastDay))
  }

  lemma SetDateByDays(t: int, count: int)
    ensures WithUtcDate(t, DateOf(t).day + count) == t + count * MS_PER_DAY
  {
    var c := DateOf(t);
    MakeDayOf(c);
    assert MakeDay(c.year, c.month, c.day + count) == MakeDay(c.year, c.month, c.day) + count;
    TimeParts(t);
  }

  /** The value is left alone; the new Date holds the specified time. */
  method AddInterval(value: UtcDate, unit: IntervalUnit, count: int) returns (result: UtcDate)
    ensures fresh(result) && result.time == Interval(value.time, unit, count)
  {
    hide CivilOf, DayOf, DaysInMonth, MakeDay, DateOf, UtcDaysInMonth, DateUtc, TimeWithinDay, MakeDate;
    result := new UtcDate(value.time);
    var c := DateOf(value.time);

    if unit == Day {
      SetDateByDays(result.time, count);
      result.SetUtcDate(DateOf(result.time).day + count);
      return;
    }

    if unit == Month {
      var target := ShiftMonths(c, count);
      SetDateInMonth(result.time, 1);
      var day := DateOf(result.time).day;
      result.SetUtcDate(1);
      SetMonthFromFirst(result.time, DateOf(result.time).month + count);
      result.SetUtcMonth(DateOf(result.time).month + count);
      FinishMonth(result.time, target, day);
      var lastDay := DateOf(DateUtc(DateOf(result.time).year, DateOf(result.time).month + 1, 0)).day;
      result.SetUtcDate(Min(day, lastDay));
      return;
    }

    var month := DateOf(result.time).month;
    var day := DateOf(result.time).day;
    result.SetUtcDate(1);
    result.SetUtcFullYear(DateOf(result.time).year + count);
    result.SetUtcMonth(month);
    var lastDay := DateOf(DateUtc(DateOf(result.time).year, DateOf(result.time).month + 1, 0)).day;
    result.SetUtcDate(Min(day, lastDay));
  }

  /** From the first of the target month, setting the clamped day reaches the target date. */
  lemma FinishMonth(t: int, target: Civil, day: int)
    requires ValidCivil(target) && 1 <= day
    requires DateOf(t) == target.(day := 1)
    requires target.day == Min(day, UtcDaysInMonth(target.year, target.month))
    ensures var lastDay := DateOf(DateUtc(target.year, target.month + 1, 0)).day;
            WithUtcDate(t, Min(day, lastDay)) == MakeDate(DayOf(target), TimeWithinDay(t))
  {
    LastDayThroughDateUtc(target.year, target.month);
    MakeDayOf(target);
  }

  method AddDays(value: UtcDate, days: int) returns (result: UtcDate)
    ensures fresh(result) && result.time == value.time + days * MS_PER_DAY
  {
    result := AddInterval(value, Day, days);
  }

  // ----- Laws -----

  lemma AddMonthsDate(t: int, n: int)
    ensures DateOf(AddMonths(t, n)) == ShiftMonths(DateOf(t), n)
    ensures DayNumber(AddMonths(t, n)) == DayOf(ShiftMonths(DateOf(t), n))
    ensures TimeWithinDay(AddMonths(t, n)) == TimeWithinDay(t)
  {
    TimeParts(t);
    PlaceDate(ShiftMonths(DateOf(t), n), TimeWithinDay(t));
    MakeDateParts(DayOf(ShiftMonths(DateOf(t), n)), TimeWithinDay(t));
  }

  /** Adding days moves the day number by the count and keeps the time of day. */
  lemma DayLaw(t: int, n: int)
    ensures DayNumber(Interval(t, Day, n)) == DayNumber(t) + n
    ensures TimeWithinDay(Interval(t, Day, n)) == TimeWithinDay(t)
    ensures DateOf(Interval(t, Day, n)) == CivilOf(DayOf(DateOf(t)) + n)
  {
    hide CivilOf, DayOf, DaysInMonth;
    TimeParts(t);
    assert Interval(t, Day, n) == MakeDate(DayNumber(t) + n, TimeWithinDay(t));
    MakeDateParts(DayNumber(t) + n, TimeWithinDay(t));
  }

  /** Adding months moves the month index by the count, keeps the time of day and clamps the day to
      the target month's real length - unless the target is February of year 0 and the day is
      29 or later, where Date.UTC's two-digit years lose a day. */
  lemma MonthLaw(t: int, n: int)
    ensures var c, r := DateOf(t), DateOf(Interval(t, Month, n));
            && MonthIndex(r) == MonthIndex(c) + n
            && TimeWithinDay(Interval(t, Month, n)) == TimeWithinDay(t)
            && (r.day == Min(c.day, DaysInMonth(r.year, r.month)) <==>
                !(MonthIndex(c) + n == 1 && c.day > 28))
            && (MonthIndex(c) + n == 1 && c.day > 28 ==> r.day == 28)
  {
    hide CivilOf, DayOf, DaysInMonth, UtcDaysInMonth;
    AddMonthsDate(t, n);
    var r := ShiftMonths(DateOf(t), n);
    WrongMonthLength(r.year, r.month);
  }

  /** A date on which the day is lost: 29 January of year 0, plus one month. */
  lemma LostDay()
    ensures var c := Civil(0, 0, 29);
            && ValidCivil(c) && ShiftMonths(c, 1) == Civil(0, 1, 28) && DaysInMonth(0, 1) == 29
  {
    hide MonthStart;
    assert Leap(0) && !Leap(1900);
    assert UtcDaysInMonth(0, 1) == 28;
  }

  /** Setting the year and then the month reaches the time that adding twelve months a year does,
      including the clamping of 29 February. */
  lemma YearIsTwelveMonths(t: int, n: int)
    ensures Interval(t, Year, n) == Interval(t, Month, 12 * n)
    ensures DateOf(Interval(t, Year, n)).year == DateOf(t).year + n
    ensures DateOf(Interval(t, Year, n)).month == DateOf(t).month
  {
    hide CivilOf, DayOf, DaysInMonth, MakeDay, DateOf, UtcDaysInMonth, DateUtc, TimeWithinDay, MakeDate;
    var c, target := DateOf(t), ShiftMonths(DateOf(t), 12 * n);
    SetDateInMonth(t, 1);
    var first := WithUtcDate(t, 1);
    SetYearFromFirst(first, c.year + n);
    var year := WithUtcFullYear(first, c.year + n);
    SetMonthFromFirst(year, c.month);
    FinishMonth(WithUtcMonth(year, c.month), target, c.day);
    AddMonthsDate(t, 12 * n);
  }

  /** Adding more months always gives a strictly later time. */
  lemma MonthsStrictlyIncrease(t: int, n: int, k: int)
    requires n < k
    ensures Interval(t, Month, n) < Interval(t, Month, k)
  {
    AddMonthsDate(t, n);
    AddMonthsDate(t, k);
    DayOrder(ShiftMonths(DateOf(t), n), ShiftMonths(DateOf(t), k));
    TimeParts(Interval(t, Month, n));
    TimeParts(Interval(t, Month, k));
  }

  /** Month addition keeps the order of calendar days. */
  lemma MonthAdditionKeepsDayOrder(s: int, t: int, n: int)
    requires DayNumber(s) <= DayNumber(t)
    ensures DayNumber(Interval(s, Month, n)) <= DayNumber(Interval(t, Month, n))
  {
    hide CivilOf, DayOf, DaysInMonth;
    AddMonthsDate(s, n);
    AddMonthsDate(t, n);
    DayOrder(DateOf(t), DateOf(s));
    DayOrder(ShiftMonths(DateOf(t), n), ShiftMonths(DateOf(s), n));
  }

  /** It does not keep the order of times: the order of two times is lost exactly when they fall on
      different days of one month that are both clamped to the same day while the earlier one has
      the later time of day. */
  lemma MonthAdditionKeepsTimeOrder(s: int, t: int, n: int)
    requires s <= t
    ensures var c, d := DateOf(s), DateOf(t);
            var last := UtcDaysInMonth((MonthIndex(c) + n) / 12, (MonthIndex(c) + n) % 12);
            Interval(s, Month, n) <= Interval(t, Month, n) <==>
            !(MonthIndex(c) == MonthIndex(d) && last <= c.day < d.day && TimeWithinDay(s) > TimeWithinDay(t))
  {
    hide CivilOf, DayOf, DaysInMonth;
    var c, d := DateOf(s), DateOf(t);
    var r, q := ShiftMonths(c, n), ShiftMonths(d, n);
    AddMonthsDate(s, n);
    AddMonthsDate(t, n);
    TimeParts(s);
    TimeParts(t);
    DayOrder(c, d);
    DayOrder(d, c);
    DayOrder(r, q);
    DayOrder(q, r);
    SplitOrder(Interval(s, Month, n), Interval(t, Month, n));
  }

  lemma SplitOrder(a: int, b: int)
    ensures a <= b <==> DayNumber(a) < DayNumber(b) ||
                        (DayNumber(a) == DayNumber(b) && TimeWithinDay(a) <= TimeWithinDay(b))
  {
  }

  /** 30 January at 23:00 and 31 January at 01:00 of 2026 swap order when a month is added. */
  lemma TimeOrderLost()
    ensures exists s: int, t: int :: s < t && Interval(s, Month, 1) > Interval(t, Month, 1)
  {
    hide CivilOf, DayOf, MonthStart, Interval;
    assert !Leap(2026);
    assert UtcDaysInMonth(2026, 1) == 28;
    var c, d := Civil(2026, 0, 30), Civil(2026, 0, 31);
    var s, t := MakeDate(DayOf(c), 82_800_000), MakeDate(DayOf(d), 3_600_000);
    PlaceDate(c, 82_800_000);
    PlaceDate(d, 3_600_000);
    DayOrder(c, d);
    MonthAdditionKeepsTimeOrder(s, t, 1);
    assert s < t && Interval(s, Month, 1) > Interval(t, Month, 1);
  }

  /** Two additions land in the month of the combined addition, never on a later day, and on the
      same time when the day is at most 28. */
  lemma MonthAdditionComposes(t: int, a: int, b: int)
    ensures var once, twice := Interval(t, Month, a + b), Interval(Interval(t, Month, a), Month, b);
            && MonthIndex(DateOf(twice)) == MonthIndex(DateOf(once))
            && twice <= once
            && (DateOf(t).day <= 28 ==> twice == once)
  {
    hide CivilOf, DayOf, DaysInMonth;
    var c := DateOf(t);
    var mid := Interval(t, Month, a);
    AddMonthsDate(t, a);
    AddMonthsDate(t, a + b);
    AddMonthsDate(mid, b);
    var q, r := ShiftMonths(ShiftMonths(c, a), b), ShiftMonths(c, a + b);
    DayOrder(r, q);
    SplitOrder(Interval(mid, Month, b), Interval(t, Month, a + b));
  }
}
