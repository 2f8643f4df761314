/** Week boundaries: the model of getWeekStart and getWeekEnd, and how the weeks they give tile the days. */
module Weeks {
  import opened Calendar

  /** The organisation's first day of the week. */
  datatype FirstDay = Monday | Sunday

  function FirstWeekDay(first: FirstDay): int {
    if first.Monday? then 1 else 0
  }

  /** How far getWeekStart moves the date, by the weekday (0 is Sunday) it falls on. */
  function StartShift(day: int, first: FirstDay): int {
    if first.Monday? then (if day == 0 then -6 else 1 - day) else -day
  }

  function GetWeekStart(n: int, first: FirstDay): int {
    n + StartShift(WeekDay(n), first)
  }

  /** The last day of the week (its clock time, 23:59:59.999, is below the day grid). */
  function GetWeekEnd(start: int): int {
    start + 6
  }

  /**
   The code moves dates with `setDate(getDate() + k)` inside the date's month; that lands on the
   days above, over any month or year end.
   */
  lemma ByCalendar(n: int, first: FirstDay)
    ensures SetDate(n, CivilFromDay(n).date + StartShift(WeekDay(n), first)) == GetWeekStart(n, first)
    ensures SetDate(n, CivilFromDay(n).date + 6) == GetWeekEnd(n)
  {
    hide SetDate, CivilFromDay, StartShift;
    SetDateMoves(n, StartShift(WeekDay(n), first));
    SetDateMoves(n, 6);
  }

  /** The week start is the one day with the configured weekday among the seven days up to `n`. */
  lemma WeekStartUnique(n: int, first: FirstDay, s: int)
    ensures s == GetWeekStart(n, first) <==> n - 6 <= s <= n && WeekDay(s) == FirstWeekDay(first)
  {
  }

  lemma WeekStartIdempotent(n: int, first: FirstDay)
    ensures GetWeekStart(GetWeekStart(n, first), first) == GetWeekStart(n, first)
  {
  }

  predicate Aligned(start: int, first: FirstDay) {
    GetWeekStart(start, first) == start
  }

  /** Every day lies in exactly one of the weeks that start on the configured weekday. */
  lemma WeeksTile(n: int, first: FirstDay, s: int)
    requires Aligned(s, first)
    ensures s <= n <= GetWeekEnd(s) <==> s == GetWeekStart(n, first)
  {
    WeekStartUnique(s, first, s);
    WeekStartUnique(n, first, s);
  }

  /** Two weeks of one grid are the same week or share no day. */
  lemma AlignedWeeksDisjoint(s: int, t: int, first: FirstDay)
    requires Aligned(s, first) && Aligned(t, first) && s != t
    ensures GetWeekEnd(s) < t || GetWeekEnd(t) < s
  {
    WeekStartUnique(t, first, s);
    WeekStartUnique(s, first, t);
    WeekStartUnique(s, first, s);
    WeekStartUnique(t, first, t);
  }
}
