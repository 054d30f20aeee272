// The O'Hare base-rate tables and the holiday calendar the delay model
// multiplies in.

module FlightData {
  import opened Prelude
  import opened Utils

  /** Share of significant-delay days in each month, 0.22 for a month the table lacks. */
  function BaseRate(month: Option<int>): (r: real)
    ensures 0.14 <= r <= 0.35
    ensures month.None? ==> r == 0.22
  {
    match month
    case None => 0.22
    case Some(m) =>
      if m == 1 then 0.28 else if m == 2 then 0.26 else if m == 3 then 0.22
      else if m == 4 then 0.18 else if m == 5 then 0.20 else if m == 6 then 0.32
      else if m == 7 then 0.35 else if m == 8 then 0.30 else if m == 9 then 0.18
      else if m == 10 then 0.14 else if m == 11 then 0.20 else if m == 12 then 0.30
      else 0.22
  }

  /** Day-of-week multiplier, 1 = Monday through 7 = Sunday; 1.0 off the table. */
  function DowMultiplier(dow: int): (r: real)
    ensures 0.85 <= r <= 1.15
  {
    if dow == 1 then 1.05 else if dow == 2 then 0.90 else if dow == 3 then 0.95
    else if dow == 4 then 1.05 else if dow == 5 then 1.15 else if dow == 6 then 0.85
    else if dow == 7 then 1.10
    else 1.0
  }

  const ThanksgivingWeek: real := 1.35
  const ChristmasWeek: real := 1.30
  const NewYears: real := 1.20
  const MemorialDay: real := 1.15
  const LaborDay: real := 1.15
  const JulyFourth: real := 1.20

  // ------------------------------------------------------------------ weekdays

  /** Offsets of Sakamoto's weekday formula, one per month. */
  function MonthOffset(m: int): int
    requires 1 <= m <= 12
  {
    [0, 3, 2, 5, 0, 3, 5, 1, 4, 6, 2, 4][m - 1]
  }

  /** Sakamoto's year term `y + y/4 - y/100 + y/400`. */
  function YearKey(y: int): int
  {
    y + y / 4 - y / 100 + y / 400
  }

  /** `getDay()` of a proleptic Gregorian date: 0 = Sunday through 6 = Saturday. */
  function Weekday(y: int, m: int, d: int): (r: int)
    requires 1 <= m <= 12
    ensures 0 <= r < 7
  {
    var yy := if m < 3 then y - 1 else y;
    (YearKey(yy) + MonthOffset(m) + d) % 7
  }

  /** The year term grows by one more across a leap year. */
  lemma YearShift(y: int)
    ensures YearKey(y) - YearKey(y - 1) == (if LeapYear(y) then 2 else 1)
  {
    DivStep(y, 4);
    DivStep(y, 100);
    DivStep(y, 400);
    Divides400(y);
    Divides100(y);
  }

  /** 400 divides only multiples of 100. */
  lemma Divides400(y: int)
    ensures y % 400 == 0 ==> y % 100 == 0
  {
    if y % 400 == 0 {
      assert y == 100 * (4 * (y / 400));
    }
  }

  /** 100 divides only multiples of 4. */
  lemma Divides100(y: int)
    ensures y % 100 == 0 ==> y % 4 == 0
  {
    if y % 100 == 0 {
      assert y == 4 * (25 * (y / 100));
    }
  }

  /** Stepping from y - 1 to y crosses a multiple of n exactly when n divides y. */
  lemma DivStep(y: int, n: int)
    requires n == 4 || n == 100 || n == 400
    ensures y / n - (y - 1) / n == (if y % n == 0 then 1 else 0)
  {
    if n == 4 {
      assert y / 4 - (y - 1) / 4 == (if y % 4 == 0 then 1 else 0);
    } else if n == 100 {
      assert y / 100 - (y - 1) / 100 == (if y % 100 == 0 then 1 else 0);
    } else {
      assert y / 400 - (y - 1) / 400 == (if y % 400 == 0 then 1 else 0);
    }
  }

  /** Whole weeks do not change a weekday. */
  lemma WeekStep(a: int, b: int, k: int)
    requires b == a + 1 + 7 * k
    ensures b % 7 == (a % 7 + 1) % 7
  {
    var q := a / 7;
    assert a == 7 * q + a % 7;
    assert b == 7 * (q + k) + (a % 7 + 1);
  }

  lemma WeekOffset(c: int, x: int)
    ensures (c + x) % 7 == (c % 7 + x) % 7
  {
    var q := c / 7;
    assert c + x == 7 * q + (c % 7 + x);
  }

  /** Sakamoto's sum for a date, before the remainder is taken. */
  function DayKey(d: CivilDate): int
    requires 1 <= d.month <= 12
  {
    YearKey(if d.month < 3 then d.year - 1 else d.year) + MonthOffset(d.month) + d.day
  }

  lemma WeekdayOfKey(d: CivilDate)
    requires 1 <= d.month <= 12
    ensures Weekday(d.year, d.month, d.day) == DayKey(d) % 7
  {
  }

  /** Across a month end the sum moves by one day modulo whole weeks. */
  lemma MonthEndKey(d: CivilDate)
    requires ValidDate(d) && d.day == DaysInMonth(d.year, d.month)
    ensures exists k :: DayKey(NextDay(d)) == DayKey(d) + 1 + 7 * k
  {
    var m := d.month;
    if m == 12 {
      assert DayKey(NextDay(d)) == DayKey(d) + 1 + 7 * -5;
    } else if m == 2 {
      YearShift(d.year);
      assert DayKey(NextDay(d)) == DayKey(d) + 1 + 7 * -4;
    } else {
      var k := if m == 4 || m == 7 || m == 10 then -5 else -4;
      assert DayKey(NextDay(d)) == DayKey(d) + 1 + 7 * k;
    }
  }

  /** The weekday of the next day is the next weekday. */
  lemma WeekdayNext(d: CivilDate)
    requires ValidDate(d)
    ensures var n := NextDay(d);
      Weekday(n.year, n.month, n.day) == (Weekday(d.year, d.month, d.day) + 1) % 7
  {
    var n := NextDay(d);
    WeekdayOfKey(d);
    WeekdayOfKey(n);
    var a, b := DayKey(d), DayKey(n);
    if d.day < DaysInMonth(d.year, d.month) {
      WeekStep(a, b, 0);
    } else {
      MonthEndKey(d);
      var k :| b == a + 1 + 7 * k;
      WeekStep(a, b, k);
    }
    assert b % 7 == (a % 7 + 1) % 7;
  }

  /** 1 January 1970 was a Thursday. */
  lemma EpochThursday()
    ensures Weekday(1970, 1, 1) == 4
  {
  }

  // ------------------------------------------------------------------ holidays

  /** `new Date(y, 10, 1)` reads a year from 0 to 99 as 1900 onwards. */
  function LocalYear(y: int): int
  {
    if 0 <= y <= 99 then 1900 + y else y
  }

  /** The fourth Thursday of November, as the source computes it from the weekday of 1 November. */
  function Thanksgiving(y: int): int
  {
    var firstDay := Weekday(LocalYear(y), 11, 1);
    var firstThursday := if firstDay <= 4 then 5 - firstDay else 12 - firstDay;
    firstThursday + 21
  }

  /** A day of November from the 22nd to the 28th that falls on a Thursday. */
  predicate IsFourthThursday(y: int, t: int)
  {
    22 <= t <= 28 && Weekday(LocalYear(y), 11, t) == 4
  }

  /** A November weekday from the remainder of the month's key. */
  lemma NovemberWeekday(y: int, t: int)
    ensures Weekday(LocalYear(y), 11, t) == (YearKey(LocalYear(y)) % 7 + 2 + t) % 7
  {
    WeekOffset(YearKey(LocalYear(y)), 2 + t);
  }

  /** The computed Thanksgiving is the fourth Thursday, and it is the only one. */
  lemma ThanksgivingIsFourthThursday(y: int, t: int)
    ensures IsFourthThursday(y, Thanksgiving(y))
    ensures IsFourthThursday(y, t) ==> t == Thanksgiving(y)
  {
    var r := YearKey(LocalYear(y)) % 7;
    NovemberWeekday(y, 1);
    NovemberWeekday(y, Thanksgiving(y));
    NovemberWeekday(y, t);
    ThursdayArithmetic(r, t);
  }

  /** The fourth-Thursday rule checked for each remainder of the year's key. */
  lemma ThursdayArithmetic(r: int, t: int)
    requires 0 <= r < 7
    ensures var firstDay := (r + 3) % 7;
      var tg := (if firstDay <= 4 then 5 - firstDay else 12 - firstDay) + 21;
      && 22 <= tg <= 28 && (r + 2 + tg) % 7 == 4
      && (22 <= t <= 28 && (r + 2 + t) % 7 == 4 ==> t == tg)
  {
  }

  lemma ExampleThanksgiving()
    ensures Thanksgiving(2025) == 27 && Thanksgiving(2026) == 26
  {
  }

  predicate NearThanksgiving(d: CivilDate)
  {
    d.month == 11 && -3 <= d.day - Thanksgiving(d.year) <= 3
  }

  /**
   * `getHolidayMultiplier`: Thanksgiving week (three days either side) 1.35,
   * 20-31 December 1.30, 1-3 January 1.20, 2-5 July 1.20, from 24 May 1.15,
   * 1-7 September 1.15, otherwise 1.0. A date that does not parse is no
   * holiday.
   */
  function HolidayMultiplier(date: Option<CivilDate>): real
    requires date.Some? ==> ValidDate(date.value)
  {
    match date
    case None => 1.0
    case Some(d) =>
      if NearThanksgiving(d) then ThanksgivingWeek
      else if d.month == 12 && d.day >= 20 then ChristmasWeek
      else if d.month == 1 && d.day <= 3 then NewYears
      else if d.month == 7 && 2 <= d.day <= 5 then JulyFourth
      else if d.month == 5 && d.day >= 24 then MemorialDay
      else if d.month == 9 && d.day <= 7 then LaborDay
      else 1.0
  }

  /**
   * Each multiplier belongs to exactly its holiday window, and every date
   * outside the windows gets 1.0; Thanksgiving week is three days either
   * side of the fourth Thursday.
   */
  lemma HolidayWindows(d: CivilDate)
    requires ValidDate(d)
    ensures var r := HolidayMultiplier(Some(d));
      && (r == 1.35 <==> d.month == 11 && exists t :: IsFourthThursday(d.year, t) && -3 <= d.day - t <= 3)
      && (r == 1.30 <==> d.month == 12 && d.day >= 20)
      && (r == 1.20 <==> (d.month == 1 && d.day <= 3) || (d.month == 7 && 2 <= d.day <= 5))
      && (r == 1.15 <==> (d.month == 5 && d.day >= 24) || (d.month == 9 && d.day <= 7))
      && (r == 1.0 <==> (
            && !NearThanksgiving(d) && !(d.month == 12 && d.day >= 20) && !(d.month == 1 && d.day <= 3)
            && !(d.month == 7 && 2 <= d.day <= 5) && !(d.month == 5 && d.day >= 24) && !(d.month == 9 && d.day <= 7)))
  {
    var t := Thanksgiving(d.year);
    ThanksgivingIsFourthThursday(d.year, t);
    if d.month == 11 && exists t' :: IsFourthThursday(d.year, t') && -3 <= d.day - t' <= 3 {
      var t' :| IsFourthThursday(d.year, t') && -3 <= d.day - t' <= 3;
      ThanksgivingIsFourthThursday(d.year, t');
    }
  }

  /** A holiday never lowers the delay rate. */
  lemma HolidayAtLeastOne(date: Option<CivilDate>)
    requires date.Some? ==> ValidDate(date.value)
    ensures 1.0 <= HolidayMultiplier(date) <= 1.35
  {
  }
}
