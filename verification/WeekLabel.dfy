/**
 The ISO week label: a model of toWeekLabel, and a proof that it is the week date of section 4.1.4
 of ISO 8601:2004, in which week 01 is the Monday-to-Sunday week that contains 4 January.
 */
module WeekLabel {
  import opened Calendar
  import opened Common
  import Weeks

  /** `Date.UTC`, which reads the years 0 to 99 as 1900 to 1999. */
  function DateUTC(y: int, m: int, d: int): int {
    MakeDay(FullYear(y), m, d)
  }

  function CeilDiv7(n: int): int {
    -((-n) / 7)
  }

  /** The day the code moves to before it reads the year: the Thursday of the date's week. */
  function ThursdayOf(d: int): int {
    var dayNum := if WeekDay(d) == 0 then 7 else WeekDay(d);
    d + 4 - dayNum
  }

  lemma ThursdayByCalendar(d: int)
    ensures var dayNum := if WeekDay(d) == 0 then 7 else WeekDay(d);
            SetDate(d, CivilFromDay(d).date + 4 - dayNum) == ThursdayOf(d)
  {
    hide SetDate, CivilFromDay;
    SetDateMoves(d, 4 - (if WeekDay(d) == 0 then 7 else WeekDay(d)));
  }

  /** The year and week number that toWeekLabel prints. */
  function WeekParts(n: int): (int, int) {
    var c := CivilFromDay(n);
    var t := ThursdayOf(DateUTC(c.year, c.month, c.date));
    var year := YearFromDay(t);
    (year, CeilDiv7(t - DateUTC(year, 0, 1) + 1))
  }

  function ToWeekLabel(n: int): string {
    var p := WeekParts(n);
    IntText(p.0) + "-W" + Pad2(p.1)
  }

  // ---- Reference definition, section 4.1.4 of ISO 8601:2004 ----

  /** The Monday on which week 01 of the year starts. */
  function WeekOne(y: int): int {
    Weeks.GetWeekStart(YearStart(y) + 3, Weeks.Monday)
  }

  /** Day `n` has the ISO week date with year `y` and week number `w`. */
  predicate IsoWeekDate(n: int, y: int, w: int) {
    WeekOne(y) <= n < WeekOne(y + 1) && w == (n - WeekOne(y)) / 7 + 1
  }

  lemma MondayLaw(n: int)
    ensures var m := Weeks.GetWeekStart(n, Weeks.Monday); n - 6 <= m <= n && (m + 3) % 7 == 0
  {
    Weeks.WeekStartUnique(n, Weeks.Monday, Weeks.GetWeekStart(n, Weeks.Monday));
  }

  /** Week 01 starts on the Monday within three days of 1 January. */
  lemma WeekOneLaw(y: int)
    ensures YearStart(y) - 3 <= WeekOne(y) <= YearStart(y) + 3 && (WeekOne(y) + 3) % 7 == 0
  {
    MondayLaw(YearStart(y) + 3);
  }

  lemma ThursdayLaw(n: int)
    ensures ThursdayOf(n) == Weeks.GetWeekStart(n, Weeks.Monday) + 3
    ensures n - 3 <= ThursdayOf(n) <= n + 3
  {
  }

  /** The arithmetic core: a week whose Thursday lies in the year from `d0` to before `d1`. */
  lemma ThursdayRule(d0: int, d1: int, one0: int, one1: int, monday: int, n: int)
    requires (one0 + 3) % 7 == 0 && d0 - 3 <= one0 <= d0 + 3
    requires (one1 + 3) % 7 == 0 && d1 - 3 <= one1 <= d1 + 3
    requires (monday + 3) % 7 == 0 && monday <= n <= monday + 6
    requires d0 <= monday + 3 < d1
    ensures one0 <= n < one1
    ensures CeilDiv7(monday + 3 - d0 + 1) == (n - one0) / 7 + 1
  {
    var k := (monday - one0) / 7;
    assert monday == one0 + 7 * k;
    assert (n - one0) / 7 == k;
  }

  /** The year of a week is the year of its Thursday, and the code's quotient is the ISO number. */
  lemma WeekOfThursday(n: int)
    ensures var t := ThursdayOf(n); var y := YearFromDay(t);
            IsoWeekDate(n, y, CeilDiv7(t - YearStart(y) + 1))
  {
    var t := ThursdayOf(n);
    var y := YearFromDay(t);
    ThursdayLaw(n);
    MondayLaw(n);
    WeekOneLaw(y);
    WeekOneLaw(y + 1);
    hide WeekOne, YearStart, CeilDiv7, ThursdayOf, Weeks.GetWeekStart;
    ThursdayRule(YearStart(y), YearStart(y + 1), WeekOne(y), WeekOne(y + 1), t - 3, n);
  }

  lemma WeekOneGrows(a: int, b: int)
    requires a < b
    ensures WeekOne(a) < WeekOne(b)
  {
    hide WeekOne, YearStart;
    YearsGrow(a, b);
    WeekOneLaw(a);
    WeekOneLaw(b);
  }

  /** A day has one ISO week date. */
  lemma IsoWeekDateUnique(n: int, y: int, w: int, y': int, w': int)
    requires IsoWeekDate(n, y, w) && IsoWeekDate(n, y', w')
    ensures y == y' && w == w'
  {
    hide WeekOne;
    if y + 1 < y' {
      WeekOneGrows(y + 1, y');
    } else if y' + 1 < y {
      WeekOneGrows(y' + 1, y);
    }
  }

  // ---- The label is the ISO week date, and exactly when ----

  /** The years that `Date.UTC` reads as another year. */
  predicate Remapped(y: int) {
    0 <= y <= 99
  }

  lemma FirstOfYear(y: int)
    ensures MakeDay(y, 0, 1) == YearStart(y)
  {
    MakeDayWithin(y, 0, 1);
  }

  lemma PlainParts(n: int)
    requires !Remapped(CivilFromDay(n).year)
    ensures var t := ThursdayOf(n); var y := YearFromDay(t);
            WeekParts(n) == (y, CeilDiv7(t - YearStart(if Remapped(y) then 1900 + y else y) + 1))
  {
    DayToCivilToDay(n);
    hide CivilFromDay, ThursdayOf, YearFromDay, YearStart, CeilDiv7, MakeDay;
    var y := YearFromDay(ThursdayOf(n));
    FirstOfYear(if Remapped(y) then 1900 + y else y);
  }

  lemma YearStretch(n: int, k: int)
    requires -6 <= k <= 6
    ensures YearFromDay(n) - 1 <= YearFromDay(n + k) <= YearFromDay(n) + 1
  {
    hide YearStart, YearFromDay;
    var y, z := YearFromDay(n), YearFromDay(n + k);
    YearsGrow(y - 1, y);
    YearsGrow(y + 1, y + 2);
    if z < y - 1 {
      YearsGrow(z + 1, y - 1);
    } else if y + 1 < z {
      YearsGrow(y + 2, z);
    }
  }

  lemma ThursdayNear(n: int)
    ensures YearFromDay(n) - 1 <= YearFromDay(ThursdayOf(n)) <= YearFromDay(n) + 1
  {
    ThursdayLaw(n);
    hide ThursdayOf, Weeks.GetWeekStart, YearFromDay;
    YearStretch(n, ThursdayOf(n) - n);
  }

  /** A date in a remapped year is labelled with a year of the twentieth century. */
  lemma RemappedYearIsWrong(n: int)
    requires Remapped(CivilFromDay(n).year)
    ensures WeekParts(n).0 >= 1899 && YearFromDay(ThursdayOf(n)) <= 100
  {
    var c := CivilFromDay(n);
    DayToCivilToDay(n);
    assert c.year == YearFromDay(n);
    hide CivilFromDay, ThursdayOf, YearFromDay, YearStart, CeilDiv7, MakeDay, MonthLength;
    ThursdayNear(n);
    var d := DateUTC(c.year, c.month, c.date);
    assert WeekParts(n).0 == YearFromDay(ThursdayOf(d));
    assert d == MakeDay(1900 + c.year, c.month, c.date);
    NotBeforeYear(1900 + c.year, c.month, c.date);
    ThursdayNear(d);
    YearAtLeast(d, 1900 + c.year);
  }

  lemma NotBeforeYear(y: int, m: int, d: int)
    requires 0 <= m < 12 && d >= 1
    ensures YearStart(y) <= MakeDay(y, m, d)
  {
    MakeDayWithin(y, m, d);
    hide YearStart, MakeDay;
  }

  lemma YearAtLeast(d: int, y: int)
    requires YearStart(y) <= d
    ensures y <= YearFromDay(d)
  {
    hide YearStart, YearFromDay;
    var z := YearFromDay(d);
    if z < y {
      YearsGrow(z + 1, y);
    }
  }

  lemma WrongNumber(n: int, y: int, w: int, t: int)
    requires IsoWeekDate(n, y, w) && t <= n + 3
    requires Remapped(y) && YearStart(y) + 365 * 1900 <= YearStart(1900 + y)
    ensures CeilDiv7(t - YearStart(1900 + y) + 1) < w
  {
    hide YearStart, WeekOne;
    WeekOneLaw(y);
    WeekOneLaw(y + 1);
    YearStep(y);
  }

  /**
   The label is the ISO week date exactly when neither the date's year nor the year of its week
   is one of the years 0 to 99.
   */
  lemma LabelIsIsoExactly(n: int, y: int, w: int)
    requires IsoWeekDate(n, y, w)
    ensures WeekParts(n) == (y, w) <==> !Remapped(CivilFromDay(n).year) && !Remapped(y)
  {
    hide CivilFromDay, ThursdayOf, YearFromDay, YearStart, CeilDiv7, WeekOne, WeekParts, IsoWeekDate;
    WeekOfThursday(n);
    var t := ThursdayOf(n);
    IsoWeekDateUnique(n, y, w, YearFromDay(t), CeilDiv7(t - YearStart(YearFromDay(t)) + 1));
    if Remapped(CivilFromDay(n).year) {
      RemappedYearIsWrong(n);
    } else {
      PlainParts(n);
      if Remapped(y) {
        YearsGrow(y, 1900 + y);
        ThursdayLaw(n);
        WrongNumber(n, y, w, t);
      }
    }
  }

  /** Dates whose label the code gets right. */
  predicate Supported(n: int) {
    !Remapped(CivilFromDay(n).year) && !Remapped(YearFromDay(ThursdayOf(n)))
  }

  lemma LabelIsIso(n: int)
    requires Supported(n)
    ensures IsoWeekDate(n, WeekParts(n).0, WeekParts(n).1)
  {
    hide CivilFromDay, ThursdayOf, YearFromDay, YearStart, CeilDiv7, WeekOne, WeekParts, IsoWeekDate;
    WeekOfThursday(n);
    PlainParts(n);
  }

  lemma WeekNumbers(n: int, y: int, w: int)
    requires IsoWeekDate(n, y, w)
    ensures 1 <= w <= 53
  {
    hide YearStart, WeekOne;
    WeekOneLaw(y);
    WeekOneLaw(y + 1);
    YearStep(y);
  }

  lemma LabelPieces(year: string, week: string)
    requires |week| == 2
    ensures var s := year + "-W" + week;
            && |s| == |year| + 4 && s[..|s| - 4] == year && s[|s| - 4..|s| - 2] == "-W" && s[|s| - 2..] == week
  {
  }

  lemma PartsText(y: nat, w: nat)
    requires w < 100
    ensures var s := IntText(y) + "-W" + Pad2(w);
            && |s| >= 5 && Value(s[..|s| - 4]) == y && s[|s| - 4..|s| - 2] == "-W" && Value(s[|s| - 2..]) == w
  {
    ValueOfNat(y);
    ValueOfPad2(w);
    assert IntText(y) == NatText(y);
    hide IntText, Value, Pad2, NatText;
    LabelPieces(IntText(y), Pad2(w));
  }

  /** The text of a label: the ISO year, "-W", and the ISO week number in two digits. */
  lemma LabelText(n: int, y: int, w: int)
    requires IsoWeekDate(n, y, w) && y >= 0 && !Remapped(CivilFromDay(n).year) && !Remapped(y)
    ensures var s := ToWeekLabel(n);
            && |s| >= 5 && Value(s[..|s| - 4]) == y && s[|s| - 4..|s| - 2] == "-W" && Value(s[|s| - 2..]) == w
  {
    LabelIsIsoExactly(n, y, w);
    WeekNumbers(n, y, w);
    hide WeekParts, IsoWeekDate, CivilFromDay, Value, Pad2, IntText;
    PartsText(y, w);
  }

  /** A day's week number counts the Mondays from that of week 01. */
  lemma WeekSpan(n: int, y: int, w: int)
    ensures IsoWeekDate(n, y, w) <==>
            var monday := Weeks.GetWeekStart(n, Weeks.Monday);
            WeekOne(y) <= monday < WeekOne(y + 1) && monday == WeekOne(y) + 7 * (w - 1)
  {
    MondayLaw(n);
    WeekOneLaw(y);
    WeekOneLaw(y + 1);
    hide YearStart, WeekOne, Weeks.GetWeekStart;
    WeekArithmetic(n, Weeks.GetWeekStart(n, Weeks.Monday), WeekOne(y), WeekOne(y + 1), w);
  }

  lemma WeekArithmetic(n: int, monday: int, one0: int, one1: int, w: int)
    requires (one0 + 3) % 7 == 0 && (one1 + 3) % 7 == 0 && (monday + 3) % 7 == 0
    requires monday <= n <= monday + 6
    ensures one0 <= n < one1 <==> one0 <= monday < one1
    ensures w == (n - one0) / 7 + 1 <==> monday == one0 + 7 * (w - 1)
  {
    var k := (monday - one0) / 7;
    assert monday == one0 + 7 * k;
    assert (n - one0) / 7 == k;
  }

  /** Week 01 of a year is the week that contains its 4 January. */
  lemma WeekOneHas4January(n: int, y: int)
    ensures IsoWeekDate(n, y, 1)
       <==> Weeks.GetWeekStart(n, Weeks.Monday) == Weeks.GetWeekStart(MakeDay(y, 0, 4), Weeks.Monday)
  {
    WeekSpan(n, y, 1);
    WeekOneGrows(y, y + 1);
    hide IsoWeekDate, Weeks.GetWeekStart, YearStart, MakeDay;
    MakeDayWithin(y, 0, 4);
  }

  // ---- The same laws for what the code prints ----

  /** The day whose week the code labels: the date itself, but in 1900 to 1999 for the years 0 to 99. */
  function AsRead(n: int): int {
    var c := CivilFromDay(n);
    DateUTC(c.year, c.month, c.date)
  }

  lemma PartsOfThursday(n: int)
    ensures var t := ThursdayOf(AsRead(n)); var y := YearFromDay(t);
            WeekParts(n) == (y, CeilDiv7(t - YearStart(FullYear(y)) + 1))
  {
    hide CivilFromDay, ThursdayOf, YearFromDay, YearStart, CeilDiv7, MakeDay;
    FirstOfYear(FullYear(YearFromDay(ThursdayOf(AsRead(n)))));
  }

  /** The number printed is in 1..53 exactly when the Thursday's year is not one of 0 to 99. */
  lemma LabelNumberExactly(n: int)
    ensures 1 <= WeekParts(n).1 <= 53 <==> !Remapped(YearFromDay(ThursdayOf(AsRead(n))))
  {
    var d := AsRead(n);
    var t := ThursdayOf(d);
    var y := YearFromDay(t);
    hide AsRead, WeekParts, ThursdayOf, YearFromDay, YearStart, CeilDiv7, IsoWeekDate;
    PartsOfThursday(n);
    if Remapped(y) {
      YearsGrow(y + 1, 1900 + y);
      CeilOfNegative(t - YearStart(1900 + y) + 1);
    } else {
      WeekOfThursday(d);
      WeekNumbers(d, y, WeekParts(n).1);
    }
  }

  lemma CeilOfNegative(k: int)
    requires k <= 0
    ensures CeilDiv7(k) <= 0
  {
  }

  lemma ReadWeekDate(n: int)
    requires !Remapped(YearFromDay(ThursdayOf(AsRead(n))))
    ensures IsoWeekDate(AsRead(n), WeekParts(n).0, WeekParts(n).1)
  {
    hide AsRead, WeekParts, ThursdayOf, YearFromDay, YearStart, CeilDiv7, IsoWeekDate;
    PartsOfThursday(n);
    WeekOfThursday(AsRead(n));
  }

  /**
   Week 01 of a year is printed exactly for the dates that are read as a day of the week with its 4
   January, but never for the years 0 to 99.
   */
  lemma LabelOfWeekOne(n: int, y: int)
    ensures WeekParts(n) == (y, 1) <==> SameWeek(AsRead(n), MakeDay(y, 0, 4)) && !Remapped(y)
  {
    var d, p := AsRead(n), WeekParts(n);
    var t := ThursdayOf(d);
    hide AsRead, WeekParts, ThursdayOf, YearFromDay, YearStart, CeilDiv7, IsoWeekDate, MakeDay, Weeks.GetWeekStart;
    PartsOfThursday(n);
    WeekOfThursday(d);
    WeekOneHas4January(d, y);
    LabelNumberExactly(n);
    if IsoWeekDate(d, y, 1) {
      IsoWeekDateUnique(d, y, 1, YearFromDay(t), CeilDiv7(t - YearStart(YearFromDay(t)) + 1));
    }
  }

  /** The week after, by ISO 8601: the next number, or week 01 of the next year after the year's last week. */
  function NextWeekDate(p: (int, int)): (int, int) {
    if WeekOne(p.0) + 7 * p.1 < WeekOne(p.0 + 1) then (p.0, p.1 + 1) else (p.0 + 1, 1)
  }

  lemma NextWeekLaw(n: int, y: int, w: int)
    requires IsoWeekDate(n, y, w)
    ensures var q := NextWeekDate((y, w)); IsoWeekDate(n + 7, q.0, q.1)
  {
    hide YearStart, WeekOne;
    WeekOneLaw(y);
    WeekOneLaw(y + 1);
    WeekOneLaw(y + 2);
    YearsGrow(y + 1, y + 2);
  }

  lemma SameDateSameWeek(a: int, b: int, y: int, w: int, y': int, w': int)
    requires IsoWeekDate(a, y, w) && IsoWeekDate(b, y', w')
    ensures y == y' && w == w' <==> SameWeek(a, b)
  {
    hide IsoWeekDate, WeekOne, Weeks.GetWeekStart;
    WeekSpan(a, y, w);
    WeekSpan(b, y', w');
    WeekSpan(b, y, w);
    if SameWeek(a, b) {
      IsoWeekDateUnique(b, y, w, y', w');
    }
  }

  /**
   A week later the label is that of the next week exactly if both are labels of ISO weeks and the two
   dates are read as days a week apart; so it is for all supported dates.
   */
  lemma LabelOfNextWeek(n: int)
    ensures 1 <= WeekParts(n).1 <= 53 && 1 <= WeekParts(n + 7).1 <= 53 && WeekParts(n + 7) == NextWeekDate(WeekParts(n))
       <==> && !Remapped(YearFromDay(ThursdayOf(AsRead(n)))) && !Remapped(YearFromDay(ThursdayOf(AsRead(n + 7))))
            && SameWeek(AsRead(n + 7), AsRead(n) + 7)
    ensures Supported(n) && Supported(n + 7) ==> WeekParts(n + 7) == NextWeekDate(WeekParts(n))
  {
    SupportedNext(n);
    var p, q := WeekParts(n), WeekParts(n + 7);
    hide AsRead, WeekParts, ThursdayOf, YearFromDay, IsoWeekDate, NextWeekDate, SameWeek, Supported, Remapped;
    LabelNumberExactly(n);
    LabelNumberExactly(n + 7);
    if !Remapped(YearFromDay(ThursdayOf(AsRead(n)))) && !Remapped(YearFromDay(ThursdayOf(AsRead(n + 7)))) {
      ReadWeekDate(n);
      ReadWeekDate(n + 7);
      NextWeekLaw(AsRead(n), p.0, p.1);
      var r := NextWeekDate(p);
      SameDateSameWeek(AsRead(n + 7), AsRead(n) + 7, q.0, q.1, r.0, r.1);
    }
  }

  lemma SupportedNext(n: int)
    ensures Supported(n) && Supported(n + 7) ==>
              && !Remapped(YearFromDay(ThursdayOf(AsRead(n)))) && !Remapped(YearFromDay(ThursdayOf(AsRead(n + 7))))
              && SameWeek(AsRead(n + 7), AsRead(n) + 7)
  {
    DayToCivilToDay(n);
    DayToCivilToDay(n + 7);
    hide CivilFromDay, MakeDay, YearFromDay, ThursdayOf, Weeks.GetWeekStart;
  }

  lemma PartsGiveThursday(s: int, t: int, start: int)
    requires s % 7 == t % 7 && CeilDiv7(s - start + 1) == CeilDiv7(t - start + 1)
    ensures s == t
  {
  }

  lemma ThursdayWeekday(n: int)
    ensures ThursdayOf(n) % 7 == 0
  {
  }

  /** The label text determines the two numbers printed in it. */
  lemma TextGivesParts(a: int, b: int)
    requires ToWeekLabel(a) == ToWeekLabel(b)
    ensures WeekParts(a) == WeekParts(b)
  {
    var p, q := WeekParts(a), WeekParts(b);
    hide WeekParts, IntText, Pad2;
    assert IntText(p.0) + "-W" + Pad2(p.1) == (IntText(p.0) + "-") + ['W'] + Pad2(p.1);
    assert IntText(q.0) + "-W" + Pad2(q.1) == (IntText(q.0) + "-") + ['W'] + Pad2(q.1);
    SplitAtSeparator(IntText(p.0) + "-", IntText(q.0) + "-", Pad2(p.1), Pad2(q.1), 'W');
    assert (IntText(p.0) + "-")[..|IntText(p.0)|] == IntText(p.0);
    assert (IntText(q.0) + "-")[..|IntText(q.0)|] == IntText(q.0);
    IntTextInjective(p.0, q.0);
    Pad2InjectiveAll(p.1, q.1);
  }

  predicate SameWeek(a: int, b: int) {
    Weeks.GetWeekStart(a, Weeks.Monday) == Weeks.GetWeekStart(b, Weeks.Monday)
  }

  /**
   Any two dates get the same label exactly when the days they are read as share a week; outside the
   years 0 to 99, when they share one themselves.
   */
  lemma SameLabelAsRead(a: int, b: int)
    ensures ToWeekLabel(a) == ToWeekLabel(b) <==> SameWeek(AsRead(a), AsRead(b))
    ensures !Remapped(YearFromDay(a)) && !Remapped(YearFromDay(b)) ==>
              (ToWeekLabel(a) == ToWeekLabel(b) <==> SameWeek(a, b))
  {
    hide ToWeekLabel, AsRead, SameWeek, Remapped, YearFromDay;
    LabelIsOfReadWeek(a, b);
    if !Remapped(YearFromDay(a)) && !Remapped(YearFromDay(b)) {
      ReadPlain(a);
      ReadPlain(b);
    }
  }

  lemma LabelIsOfReadWeek(a: int, b: int)
    ensures ToWeekLabel(a) == ToWeekLabel(b) <==> SameWeek(AsRead(a), AsRead(b))
  {
    var s, t := ThursdayOf(AsRead(a)), ThursdayOf(AsRead(b));
    ThursdayLaw(AsRead(a));
    ThursdayLaw(AsRead(b));
    ThursdayWeekday(AsRead(a));
    ThursdayWeekday(AsRead(b));
    hide AsRead, WeekParts, ToWeekLabel, ThursdayOf, YearFromDay, YearStart, CeilDiv7, Weeks.GetWeekStart, FullYear;
    PartsOfThursday(a);
    PartsOfThursday(b);
    if ToWeekLabel(a) == ToWeekLabel(b) {
      TextGivesParts(a, b);
      PartsGiveThursday(s, t, YearStart(FullYear(YearFromDay(s))));
    } else {
      PartsGiveText(a, b);
    }
  }

  lemma PartsGiveText(a: int, b: int)
    ensures WeekParts(a) == WeekParts(b) ==> ToWeekLabel(a) == ToWeekLabel(b)
  {
    hide WeekParts, IntText, Pad2;
  }

  lemma ReadPlain(n: int)
    requires !Remapped(YearFromDay(n))
    ensures AsRead(n) == n
  {
    DayToCivilToDay(n);
    assert CivilFromDay(n).year == YearFromDay(n);
    hide CivilFromDay, MakeDay;
  }

  // ---- Exactly which dates share their label with no other week ----

  predicate InCentury(n: int) {
    1900 <= YearFromDay(n) <= 1999
  }

  /** A date of the years 0 to 99 is read as one of the years 1900 to 1999. */
  lemma ReadInCentury(n: int)
    requires Remapped(YearFromDay(n))
    ensures InCentury(AsRead(n))
  {
    var c := CivilFromDay(n);
    DayToCivilToDay(n);
    assert c.year == YearFromDay(n);
    var y := 1900 + c.year;
    hide CivilFromDay, YearFromDay, YearStart, MakeDay, DaysBefore, MonthLength;
    MakeDayWithin(y, c.month, c.date);
    DateFits(y, c.month, c.date);
    YearIsItsMonths(y);
    YearUnique(AsRead(n), y);
  }

  /** A date of a year fits into the year 1900 years later, 29 February as 1 March. */
  lemma DateFits(y: int, m: int, d: int)
    requires 0 <= m < 12 && 1 <= d <= MonthLength(y - 1900, m)
    ensures 0 <= DaysBefore(y, m) + d - 1 < DaysBefore(y, 12)
  {
    assert d <= MonthLength(y, m) + (if m == 1 then 1 else 0);
    assert DaysBefore(y, m + 1) == DaysBefore(y, m) + MonthLength(y, m);
    DaysBeforeGrows(y, m + 1, 12);
    hide DaysBefore, MonthLength;
  }

  /** And every day of those years is what some date of the years 0 to 99 is read as. */
  lemma ReadFromCentury(n: int) returns (b: int)
    requires InCentury(n)
    ensures Remapped(YearFromDay(b)) && AsRead(b) == n
  {
    var c := CivilFromDay(n);
    DayToCivilToDay(n);
    assert c.year == YearFromDay(n);
    var early := Civil(c.year - 1900, c.month, c.date);
    assert RealDate(early) by { LeapFromCentury(c.year); }
    b := MakeDay(early.year, early.month, early.date);
    CivilToDayToCivil(early);
    assert CivilFromDay(b).year == YearFromDay(b);
    hide CivilFromDay, MakeDay, YearFromDay;
  }

  lemma LeapFromCentury(y: int)
    requires 1900 <= y <= 1999
    ensures Leap(y) ==> Leap(y - 1900)
  {
  }

  lemma CenturiesApart(a: int, b: int)
    requires YearFromDay(a) <= 100 && YearFromDay(b) >= 1899
    ensures !SameWeek(a, b)
  {
    hide YearFromDay, YearStart, Weeks.GetWeekStart;
    YearsGrow(101, 1899);
    if YearFromDay(a) < 100 {
      YearsGrow(YearFromDay(a) + 1, 101);
    }
    if 1899 < YearFromDay(b) {
      YearsGrow(1899, YearFromDay(b));
    }
    MondayLaw(a);
    MondayLaw(b);
  }

  /** A week that shares no day with the years 0 to 99 and 1900 to 1999. */
  ghost predicate ClearWeek(a: int) {
    forall n | SameWeek(n, a) :: !Remapped(YearFromDay(n)) && !InCentury(n)
  }

  lemma WeekIsNear(n: int, a: int)
    requires SameWeek(n, a)
    ensures YearFromDay(a) - 1 <= YearFromDay(n) <= YearFromDay(a) + 1
  {
    MondayLaw(n);
    MondayLaw(a);
    hide YearFromDay, YearStart, Weeks.GetWeekStart;
    var monday := Weeks.GetWeekStart(a, Weeks.Monday);
    YearStretch(a, n - a);
  }

  /** A date of an unclear week has a label it should not share, or does not share one it should. */
  lemma UnclearWeek(a: int, n: int) returns (b: int)
    requires SameWeek(n, a) && (Remapped(YearFromDay(n)) || InCentury(n))
    ensures (ToWeekLabel(a) == ToWeekLabel(b)) != SameWeek(a, b)
  {
    WeekIsNear(n, a);
    hide ToWeekLabel, AsRead, YearFromDay, SameWeek;
    if Remapped(YearFromDay(a)) {
      b := AsRead(a);
      ReadInCentury(a);
      ReadPlain(b);
      SameLabelAsRead(a, b);
      Reflexive(b);
      CenturiesApart(a, b);
    } else if Remapped(YearFromDay(n)) {
      b := n;
      ReadPlain(a);
      ReadInCentury(n);
      SameLabelAsRead(a, n);
      CenturiesApart(a, AsRead(n));
      Symmetric(n, a);
    } else {
      b := ReadFromCentury(n);
      ReadPlain(a);
      SameLabelAsRead(a, b);
      Symmetric(n, a);
      CenturiesApart(b, a);
      Symmetric(b, a);
    }
  }

  lemma Reflexive(a: int)
    ensures SameWeek(a, a)
  {
  }

  lemma Symmetric(a: int, b: int)
    ensures SameWeek(a, b) == SameWeek(b, a)
  {
  }

  /**
   A date shares its label with exactly the dates of its week if and only if its week has no day in
   the years 0 to 99, which are read as 1900 to 1999, or in 1900 to 1999, which they collide with.
   */
  lemma LabelTellsWeekExactly(a: int)
    ensures (forall b :: ToWeekLabel(a) == ToWeekLabel(b) <==> SameWeek(a, b)) <==> ClearWeek(a)
  {
    hide ToWeekLabel, SameWeek, YearFromDay, Remapped, InCentury;
    if ClearWeek(a) {
      forall b ensures ToWeekLabel(a) == ToWeekLabel(b) <==> SameWeek(a, b) {
        ClearFrom(a, b);
      }
    } else {
      var n :| SameWeek(n, a) && (Remapped(YearFromDay(n)) || InCentury(n));
      var b := UnclearWeek(a, n);
    }
  }

  lemma ClearFrom(a: int, b: int)
    requires ClearWeek(a)
    ensures ToWeekLabel(a) == ToWeekLabel(b) <==> SameWeek(a, b)
  {
    hide ToWeekLabel, SameWeek, YearFromDay, Remapped, InCentury, AsRead;
    Reflexive(a);
    Symmetric(a, b);
    if Remapped(YearFromDay(b)) {
      ReadPlain(a);
      ReadInCentury(b);
      SameLabelAsRead(a, b);
      Symmetric(a, AsRead(b));
    } else {
      ReadPlain(a);
      SameLabelAsRead(a, b);
    }
  }
}
