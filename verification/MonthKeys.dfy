/**
 Which column of which timesheet a calendar day falls in: a model of getDayKeyForDate on millisecond
 instants, of the month's days, and of the window the monthly report queries.
 */
module MonthKeys {
  import opened Common
  import opened Calendar
  import opened Weeks
  import opened Schema

  const DAY_MS := 86400000

  function Midnight(n: int): int {
    n * DAY_MS
  }

  /** `Math.round(n / DAY_MS)`: halves go up. */
  function RoundDays(n: int): int {
    (2 * n + DAY_MS) / (2 * DAY_MS)
  }

  /** getDayKeyForDate: the column (0 is the first, `monHours`) of the date in the week, if any. */
  function DayKey(date: int, weekStart: int): (k: Option<int>)
    ensures k.Some? ==> 0 <= k.value <= 6
  {
    var diff := RoundDays(date - weekStart);
    if diff < 0 || diff > 6 then None else Some(diff)
  }

  /** The key is the column whose midnight, counted from the week start, is nearest to the date. */
  lemma DayKeyExactly(date: int, weekStart: int, k: int)
    ensures DayKey(date, weekStart) == Some(k)
       <==> 0 <= k <= 6 && -DAY_MS <= 2 * (date - (weekStart + k * DAY_MS)) < DAY_MS
  {
    var n := date - weekStart;
    var r := RoundDays(n);
    assert 2 * DAY_MS * r <= 2 * n + DAY_MS < 2 * DAY_MS * (r + 1);
    hide RoundDays;
  }

  /** The day whose midnight falls in the first column of a week stored with this start instant. */
  function Anchor(weekStart: int): int {
    -((DAY_MS - 2 * weekStart) / (2 * DAY_MS))
  }

  lemma RoundFromAnchor(n: int, weekStart: int)
    ensures RoundDays(Midnight(n) - weekStart) == n - Anchor(weekStart)
  {
    var r := DAY_MS - 2 * weekStart;
    assert 2 * (Midnight(n) - weekStart) + DAY_MS == 2 * DAY_MS * n + r;
  }

  lemma KeyFromAnchor(n: int, weekStart: int)
    ensures var a := Anchor(weekStart);
            DayKey(Midnight(n), weekStart) == if a <= n <= a + 6 then Some(n - a) else None
  {
    RoundFromAnchor(n, weekStart);
    hide RoundDays, Anchor;
  }

  /**
   Rounding gives every day its right column exactly while the stored start is off its midnight by
   less than twelve hours back, or at most twelve hours ahead.
   */
  lemma ClockShiftExactly(w: int, shift: int)
    ensures (forall n :: DayKey(Midnight(n), Midnight(w) + shift) == if w <= n <= w + 6 then Some(n - w) else None)
       <==> -DAY_MS < 2 * shift <= DAY_MS
  {
    var start := Midnight(w) + shift;
    AnchorOfShift(w, shift);
    forall n
      ensures DayKey(Midnight(n), start) == if Anchor(start) <= n <= Anchor(start) + 6 then Some(n - Anchor(start))
              else None
    {
      KeyFromAnchor(n, start);
    }
    hide DayKey, Anchor, Midnight;
    if Anchor(start) != w {
      assert DayKey(Midnight(w), start) != Some(0);
    }
  }

  lemma AnchorOfShift(w: int, shift: int)
    ensures Anchor(Midnight(w) + shift) == w <==> -DAY_MS < 2 * shift <= DAY_MS
  {
    var r := DAY_MS - 2 * shift;
    assert DAY_MS - 2 * (Midnight(w) + shift) == r - 2 * DAY_MS * w;
  }

  lemma MidnightAnchor(w: int)
    ensures Anchor(Midnight(w)) == w
  {
    AnchorOfShift(w, 0);
    assert Midnight(w) + 0 == Midnight(w);
  }

  /** The column that belongs to a day's weekday: Monday's is 0. */
  function WeekdayColumn(n: int): int {
    (WeekDay(n) + 6) % 7
  }

  /** Exactly one Monday week holds a day, and in the column of its weekday. */
  lemma OneMondayWeek(n: int, w: int)
    requires Aligned(w, Monday)
    ensures DayKey(Midnight(n), Midnight(w)) == if w == GetWeekStart(n, Monday) then Some(WeekdayColumn(n)) else None
  {
    MidnightAnchor(w);
    KeyFromAnchor(n, Midnight(w));
    WeeksTile(n, Monday, w);
    hide DayKey, Midnight, Anchor;
  }

  /** A matched column is the one of the day's weekday exactly when the week starts on a Monday. */
  lemma ColumnIsWeekdayExactly(n: int, w: int)
    requires DayKey(Midnight(n), Midnight(w)).Some?
    ensures DayKey(Midnight(n), Midnight(w)).value == WeekdayColumn(n) <==> Aligned(w, Monday)
  {
    MidnightAnchor(w);
    KeyFromAnchor(n, Midnight(w));
    hide DayKey, Midnight, Anchor;
    WeekStartUnique(w, Monday, w);
  }

  /** In a week that starts on Sunday every day is reported under the next weekday's column. */
  lemma SundayWeekShifts(n: int, w: int)
    requires Aligned(w, Sunday) && w <= n <= w + 6
    ensures DayKey(Midnight(n), Midnight(w)) == Some(WeekDay(n))
  {
    MidnightAnchor(w);
    KeyFromAnchor(n, Midnight(w));
    hide DayKey, Midnight, Anchor;
  }

  // ---- The month and the query window ----

  /** The month a request names, counted from January of year 0; any month number carries into the year. */
  function MonthIx(year: int, month: int): int {
    12 * FullYear(year) + month - 1
  }

  /** `new Date(year, month - 1, d)`: day `d` (1-based) of a month (1 for January). */
  function MonthDay(year: int, month: int, d: int): int {
    MakeDay(FullYear(year), month - 1, d)
  }

  /** `new Date(year, month, 0).getDate()` */
  function DaysInMonth(year: int, month: int): int {
    CivilFromDay(MakeDay(FullYear(year), month, 0)).date
  }

  function SearchStart(year: int, month: int): int {
    Midnight(MakeDay(FullYear(year), month - 1, -6))
  }

  function SearchEnd(year: int, month: int): int {
    Midnight(MakeDay(FullYear(year), month, 6))
  }

  lemma MonthFromIndex(y: int, m: int, d: int)
    ensures MakeDay(y, m, d) == MonthStart(12 * y + m) + d - 1
  {
    assert (12 * y + m) / 12 == y + m / 12 && (12 * y + m) % 12 == m % 12;
    hide YearStart, DaysBefore;
  }

  lemma MonthDays(year: int, month: int, d: int)
    ensures MonthDay(year, month, d) == MonthStart(MonthIx(year, month)) + d - 1
    ensures MakeDay(FullYear(year), month, d) == MonthStart(MonthIx(year, month) + 1) + d - 1
  {
    hide MakeDay, MonthStart, FullYear;
    MonthFromIndex(FullYear(year), month - 1, d);
    MonthFromIndex(FullYear(year), month, d);
    assert 12 * FullYear(year) + (month - 1) == MonthIx(year, month);
  }

  /** The last day of the month, read off the day before the next month starts. */
  lemma DaysInMonthLaw(year: int, month: int)
    ensures var ix := MonthIx(year, month);
            && DaysInMonth(year, month) == MonthLength(ix / 12, ix % 12)
            && MonthStart(ix + 1) == MonthStart(ix) + DaysInMonth(year, month)
    ensures 28 <= DaysInMonth(year, month) <= 31
  {
    var ix := MonthIx(year, month);
    var c := Civil(ix / 12, ix % 12, MonthLength(ix / 12, ix % 12));
    assert RealDate(c);
    hide MakeDay, MonthStart, FullYear, MonthLength, CivilFromDay, MonthIx;
    MonthDays(year, month, 0);
    MonthsTile(ix);
    MonthFromIndex(c.year, c.month, c.date);
    assert 12 * c.year + c.month == ix;
    CivilToDayToCivil(c);
  }

  /** A day of the month, read as a date. */
  lemma MonthDayCivil(year: int, month: int, d: int)
    requires 1 <= d <= DaysInMonth(year, month)
    ensures var ix := MonthIx(year, month); CivilFromDay(MonthDay(year, month, d)) == Civil(ix / 12, ix % 12, d)
  {
    var ix := MonthIx(year, month);
    DaysInMonthLaw(year, month);
    var c := Civil(ix / 12, ix % 12, d);
    assert RealDate(c);
    hide MakeDay, MonthStart, MonthDay, FullYear, MonthLength, CivilFromDay, MonthIx;
    MonthDays(year, month, d);
    MonthFromIndex(c.year, c.month, c.date);
    assert 12 * c.year + c.month == ix;
    CivilToDayToCivil(c);
  }

  /** Whatever instant a week start was stored with, a week that holds a day of the month is in the window. */
  lemma WindowIsWideEnough(year: int, month: int, d: int, weekStart: int)
    requires 1 <= d <= DaysInMonth(year, month)
    requires DayKey(Midnight(MonthDay(year, month, d)), weekStart).Some?
    ensures SearchStart(year, month) <= weekStart <= SearchEnd(year, month)
  {
    DaysInMonthLaw(year, month);
    MonthDays(year, month, d);
    MonthDays(year, month, -6);
    MonthDays(year, month, 6);
    hide MonthStart, MakeDay, DaysInMonth, MonthLength, FullYear, MonthIx, DayKey;
    KeyIsNear(MonthDay(year, month, d), weekStart);
  }

  /** A week start that gives a day a column is less than seven days before it, and not a whole day after it. */
  lemma KeyIsNear(n: int, weekStart: int)
    requires DayKey(Midnight(n), weekStart).Some?
    ensures Midnight(n - 7) < weekStart < Midnight(n + 1)
  {
  }
}
