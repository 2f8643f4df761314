/**
 The proleptic Gregorian calendar on day numbers (day 0 is 1 January 1970, UTC), as sections
 21.4.1.2 to 21.4.1.13 of ECMA-262 (13th edition) define it for JavaScript dates.
 */
module Calendar {

  predicate Leap(y: int) {
    y % 4 == 0 && (y % 100 != 0 || y % 400 == 0)
  }

  function YearLength(y: int): (len: int)
    ensures 365 <= len <= 366
  {
    if Leap(y) then 366 else 365
  }

  /** The day number of 1 January: the years between it and 1970 laid end to end. */
  function YearStart(y: int): int
    decreases if y < 1970 then 1970 - y else y - 1970
  {
    if y == 1970 then 0
    else if y > 1970 then YearStart(y - 1) + YearLength(y - 1)
    else YearStart(y + 1) - YearLength(y)
  }

  lemma YearStep(y: int)
    ensures YearStart(y + 1) == YearStart(y) + YearLength(y)
  {
  }

  /** DayFromYear of ECMA-262, section 21.4.1.3, is the closed form of the same count. */
  function DayFromYear(y: int): int {
    365 * (y - 1970) + (y - 1969) / 4 - (y - 1901) / 100 + (y - 1601) / 400
  }

  lemma FourthStep(y: int)
    ensures (y - 1968) / 4 == (y - 1969) / 4 + (if y % 4 == 0 then 1 else 0)
  {
  }

  lemma HundredthStep(y: int)
    ensures (y - 1900) / 100 == (y - 1901) / 100 + (if y % 100 == 0 then 1 else 0)
    ensures y % 100 == 0 ==> y % 4 == 0
  {
  }

  lemma FourHundredthStep(y: int)
    ensures (y - 1600) / 400 == (y - 1601) / 400 + (if y % 400 == 0 then 1 else 0)
    ensures y % 400 == 0 ==> y % 100 == 0
  {
  }

  lemma DayFromYearStep(y: int)
    ensures DayFromYear(y + 1) == DayFromYear(y) + YearLength(y)
  {
    FourthStep(y);
    HundredthStep(y);
    FourHundredthStep(y);
  }

  lemma {:induction false} ClosedForm(y: int)
    ensures DayFromYear(y) == YearStart(y)
    decreases if y < 1970 then 1970 - y else y - 1970
  {
    if y == 1970 {
    } else if y > 1970 {
      ClosedForm(y - 1);
      DayFromYearStep(y - 1);
    } else {
      ClosedForm(y + 1);
      DayFromYearStep(y);
    }
  }

  /** A function that grows by at least `step` at each point grows at least linearly. */
  lemma {:induction false} Growth(f: int -> int, step: int, a: int, b: int)
    requires a <= b && forall i :: f(i) + step <= f(i + 1)
    ensures f(a) + step * (b - a) <= f(b)
    decreases b - a
  {
    if a < b {
      Growth(f, step, a, b - 1);
      assert f(b - 1) + step <= f(b - 1 + 1);
    }
  }

  lemma YearsGrow(a: int, b: int)
    requires a <= b
    ensures YearStart(a) + 365 * (b - a) <= YearStart(b)
  {
    forall i ensures YearStart(i) + 365 <= YearStart(i + 1) {
      YearStep(i);
    }
    Growth(i => YearStart(i), 365, a, b);
  }

  function YearUpTo(n: int, y: int): (r: int)
    requires YearStart(y) <= n
    ensures YearStart(r) <= n < YearStart(r + 1)
    decreases n - YearStart(y)
  {
    YearStep(y);
    if n < YearStart(y + 1) then y else YearUpTo(n, y + 1)
  }

  function YearDownTo(n: int, y: int): (r: int)
    requires n < YearStart(y)
    ensures YearStart(r) <= n < YearStart(r + 1)
    decreases YearStart(y) - n
  {
    YearStep(y - 1);
    if YearStart(y - 1) <= n then y - 1 else YearDownTo(n, y - 1)
  }

  /** YearFromTime: the largest year whose first day is not after `n`. */
  function YearFromDay(n: int): (y: int)
    ensures YearStart(y) <= n < YearStart(y + 1)
  {
    if n < 0 then YearDownTo(n, 1970) else YearUpTo(n, 1970)
  }

  lemma YearUnique(n: int, y: int)
    requires YearStart(y) <= n < YearStart(y + 1)
    ensures YearFromDay(n) == y
  {
    var z := YearFromDay(n);
    if z < y {
      YearsGrow(z + 1, y);
    } else if y < z {
      YearsGrow(y + 1, z);
    }
  }

  /** Length of a month; months are numbered 0 (January) to 11 (December) as in JavaScript. */
  function MonthLength(y: int, m: int): (len: int)
    requires 0 <= m < 12
    ensures 28 <= len <= 31
  {
    if m == 1 then (if Leap(y) then 29 else 28)
    else if m in {3, 5, 8, 10} then 30
    else 31
  }

  /** Days of the year that precede the month. */
  function DaysBefore(y: int, m: int): (d: int)
    requires 0 <= m <= 12
    ensures 28 * m <= d <= 31 * m
  {
    if m == 0 then 0 else DaysBefore(y, m - 1) + MonthLength(y, m - 1)
  }

  lemma MonthsOfYear(y: int)
    ensures DaysBefore(y, 12) == YearLength(y)
  {
    assert DaysBefore(y, 2) == 31 + MonthLength(y, 1);
    assert DaysBefore(y, 4) == DaysBefore(y, 2) + 61;
    assert DaysBefore(y, 6) == DaysBefore(y, 4) + 61;
    assert DaysBefore(y, 8) == DaysBefore(y, 6) + 62;
    assert DaysBefore(y, 10) == DaysBefore(y, 8) + 61;
  }

  lemma YearIsItsMonths(y: int)
    ensures YearStart(y) + DaysBefore(y, 12) == YearStart(y + 1)
  {
    YearStep(y);
    MonthsOfYear(y);
  }

  /** MakeDay: months outside 0..11 carry into the year, days outside the month carry into its neighbours. */
  function MakeDay(y: int, m: int, d: int): int {
    YearStart(y + m / 12) + DaysBefore(y + m / 12, m % 12) + d - 1
  }

  /** The year the Date constructor and Date.UTC make of their first argument (section 21.4.2.1 of ECMA-262). */
  function FullYear(y: int): int {
    if 0 <= y <= 99 then 1900 + y else y
  }

  /** First day of the `ix`-th month, counting months from January of year 0. */
  function MonthStart(ix: int): int {
    MakeDay(0, ix, 1)
  }

  /** Consecutive months tile the days: each starts where the one before it ends. */
  lemma MonthsTile(ix: int)
    ensures MonthStart(ix + 1) == MonthStart(ix) + MonthLength(ix / 12, ix % 12)
  {
    if ix % 12 == 11 {
      YearIsItsMonths(ix / 12);
      assert (ix + 1) / 12 == ix / 12 + 1 && (ix + 1) % 12 == 0;
    } else {
      assert (ix + 1) / 12 == ix / 12 && (ix + 1) % 12 == ix % 12 + 1;
    }
  }

  lemma MonthsGrow(a: int, b: int)
    requires a <= b
    ensures MonthStart(a) + 28 * (b - a) <= MonthStart(b)
  {
    forall i ensures MonthStart(i) + 28 <= MonthStart(i + 1) {
      MonthsTile(i);
    }
    Growth(i => MonthStart(i), 28, a, b);
  }

  lemma MakeDayWithin(y: int, m: int, d: int)
    requires 0 <= m < 12
    ensures MakeDay(y, m, d) == YearStart(y) + DaysBefore(y, m) + d - 1
  {
    NoCarry(y, m);
  }

  lemma NoCarry(y: int, m: int)
    requires 0 <= m < 12
    ensures y + m / 12 == y && m % 12 == m
  {
  }

  datatype Civil = Civil(year: int, month: int, date: int)

  /** Last month m' <= m of the year that starts on or before the day-in-year `k`. */
  function MonthWithin(y: int, k: int, m: nat): (r: int)
    requires m < 12 && 0 <= k
    ensures 0 <= r <= m && DaysBefore(y, r) <= k
    ensures r < m ==> k < DaysBefore(y, r + 1)
  {
    if m == 0 || DaysBefore(y, m) <= k then m else MonthWithin(y, k, m - 1)
  }

  /** The year, month (0..11) and day of the month of a day number. */
  function CivilFromDay(n: int): Civil {
    var y := YearFromDay(n);
    var m := MonthWithin(y, n - YearStart(y), 11);
    Civil(y, m, n - YearStart(y) - DaysBefore(y, m) + 1)
  }

  predicate RealDate(c: Civil) {
    0 <= c.month < 12 && 1 <= c.date <= MonthLength(c.year, c.month)
  }

  /** Reading a day's date and making a day from it are inverse. */
  lemma DayToCivilToDay(n: int)
    ensures var c := CivilFromDay(n); RealDate(c) && MakeDay(c.year, c.month, c.date) == n
  {
    YearIsItsMonths(YearFromDay(n));
    var c := CivilFromDay(n);
    MakeDayWithin(c.year, c.month, c.date);
  }

  lemma {:induction false} DaysBeforeGrows(y: int, a: int, b: int)
    requires 0 <= a <= b <= 12
    ensures DaysBefore(y, a) + 28 * (b - a) <= DaysBefore(y, b)
    decreases b
  {
    if a < b {
      DaysBeforeGrows(y, a, b - 1);
    }
  }

  lemma MonthUnique(y: int, k: int, m: int)
    requires 0 <= m < 12 && DaysBefore(y, m) <= k < DaysBefore(y, m + 1)
    ensures MonthWithin(y, k, 11) == m
  {
    var r := MonthWithin(y, k, 11);
    if r < m {
      DaysBeforeGrows(y, r + 1, m);
    } else if m < r {
      DaysBeforeGrows(y, m + 1, r);
    }
  }

  lemma DayInsideYear(y: int, m: int, k: int)
    requires 0 <= m < 12 && DaysBefore(y, m) <= k < DaysBefore(y, m + 1)
    ensures YearFromDay(YearStart(y) + k) == y
  {
    DaysBeforeGrows(y, m + 1, 12);
    YearIsItsMonths(y);
    YearUnique(YearStart(y) + k, y);
  }

  lemma CivilOfParts(y: int, m: int, k: int)
    requires 0 <= m < 12 && DaysBefore(y, m) <= k < DaysBefore(y, m + 1)
    ensures CivilFromDay(YearStart(y) + k) == Civil(y, m, k - DaysBefore(y, m) + 1)
  {
    hide YearFromDay, MonthWithin, DaysBefore, YearStart;
    DayInsideYear(y, m, k);
    MonthUnique(y, k, m);
  }

  lemma DayWithinMonth(c: Civil)
    requires RealDate(c)
    ensures 0 <= c.month < 12
    ensures DaysBefore(c.year, c.month) <= DaysBefore(c.year, c.month) + c.date - 1 < DaysBefore(c.year, c.month + 1)
  {
  }

  /** Making a day from a date of the calendar and reading it back are inverse. */
  lemma CivilToDayToCivil(c: Civil)
    requires RealDate(c)
    ensures CivilFromDay(MakeDay(c.year, c.month, c.date)) == c
  {
    hide *;
    DayWithinMonth(c);
    MakeDayWithin(c.year, c.month, c.date);
    CivilOfParts(c.year, c.month, DaysBefore(c.year, c.month) + c.date - 1);
  }

  /** `setDate`: same month, another day of the month. */
  function SetDate(n: int, d: int): int {
    var c := CivilFromDay(n);
    MakeDay(c.year, c.month, d)
  }

  /** Setting the date to the current one plus `k` moves by `k` days, across any month or year end. */
  lemma SetDateMoves(n: int, k: int)
    ensures SetDate(n, CivilFromDay(n).date + k) == n + k
  {
    DayToCivilToDay(n);
  }

  /** WeekDay: 0 is Sunday. */
  function WeekDay(n: int): (w: int)
    ensures 0 <= w < 7
  {
    (n + 4) % 7
  }

  /** Counted from 1 January 2000, a Saturday. */
  lemma WeekDayExactly(n: int)
    ensures WeekDay(n) == (6 + n - MakeDay(2000, 0, 1)) % 7
  {
    ClosedForm(2000);
    hide YearStart;
  }
}
