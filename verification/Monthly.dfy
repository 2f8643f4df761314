/**
 The monthly timesheet: a model of generateMonthlyTimesheetData, its loops against a declarative
 account of each day, and the laws of splitting weeks over months.
 */
module Monthly {
  import opened Common
  import opened Calendar
  import opened Rows
  import opened Schema
  import opened MonthKeys

  datatype MonthEntry = MonthEntry(hours: Week, timeOff: Week, notes: Notes, projectName: string, projectCode: string)

  /** A timesheet as the report reads it; the week start is an instant in milliseconds. */
  datatype MonthSheet = MonthSheet(weekStart: int, entries: seq<MonthEntry>)

  datatype Holiday = Holiday(name: string, date: int, recurring: bool)

  datatype DayRow = DayRow(
    date: string, day: string, project: string, task: string,
    time: real, overtime: real, totalTime: real, timeOffHours: real,
    isHoliday: bool, holidayName: Option<string>, isLeave: bool, isWeekend: bool)

  datatype MonthReport = MonthReport(
    days: seq<DayRow>, totalHours: real, totalOvertime: real, holidayCount: int, leaveCount: int)

  const DAY_NAMES: seq<string> := ["Sunday", "Monday", "Tuesday", "Wednesday", "Thursday", "Friday", "Saturday"]
  const MONTH_SHORT: seq<string> :=
    ["Jan", "Feb", "Mar", "Apr", "May", "Jun", "Jul", "Aug", "Sep", "Oct", "Nov", "Dec"]

  // ---- What falls on a day ----

  /** An entry read in one of its columns. */
  datatype Hit = Hit(entry: MonthEntry, column: int)

  function SheetHits(s: MonthSheet, n: int): (hits: seq<Hit>)
    ensures forall h | h in hits :: 0 <= h.column < 7
  {
    var key := DayKey(Midnight(n), s.weekStart);
    if key.None? then [] else seq(|s.entries|, i requires 0 <= i < |s.entries| => Hit(s.entries[i], key.value))
  }

  /** All entries that cover day `n`, with the column that does, in loop order. */
  function Hits(sheets: seq<MonthSheet>, n: int): (hits: seq<Hit>)
    ensures forall h | h in hits :: 0 <= h.column < 7
  {
    if sheets == [] then []
    else Hits(sheets[..|sheets| - 1], n) + SheetHits(sheets[|sheets| - 1], n)
  }

  function Positive(x: real): real {
    if x > 0.0 then x else 0.0
  }

  function HitHours(): Hit -> real {
    (h: Hit) => if 0 <= h.column < 7 then Positive(h.entry.hours[h.column]) else 0.0
  }

  function HitTimeOff(): Hit -> real {
    (h: Hit) => if 0 <= h.column < 7 then Positive(h.entry.timeOff[h.column]) else 0.0
  }

  /** The hours of a day, before holidays and leave are looked at. */
  function HoursOn(sheets: seq<MonthSheet>, n: int): real {
    Sum(Hits(sheets, n), HitHours())
  }

  function Lower(s: string): (r: string)
    ensures |r| == |s|
  {
    seq(|s|, i requires 0 <= i < |s| => if 'A' <= s[i] <= 'Z' then (s[i] as int + 32) as char else s[i])
  }

  predicate IsAt(s: string, part: string, i: int) {
    0 <= i <= |s| - |part| && s[i..i + |part|] == part
  }

  /** `s.includes(part)` */
  predicate Contains(s: string, part: string) {
    exists i | 0 <= i <= |s| :: IsAt(s, part, i)
  }

  /** A leave row by the naming convention of its project. */
  predicate IsLeaveProject(e: MonthEntry) {
    Contains(Lower(e.projectName), "leave") || Contains(Lower(e.projectCode), "leave")
  }

  predicate Worked(h: Hit) {
    0 <= h.column < 7 && h.entry.hours[h.column] > 0.0
  }

  predicate IsLeaveHit(h: Hit) {
    (Worked(h) && IsLeaveProject(h.entry)) || (0 <= h.column < 7 && h.entry.timeOff[h.column] > 0.0)
  }

  /** `push` unless empty or present. */
  function AddOnce(list: seq<string>, x: string): seq<string> {
    if x == "" || x in list then list else list + [x]
  }

  function NoteOf(h: Hit): string {
    if 0 <= h.column < 7 && h.entry.notes[h.column].Some? then h.entry.notes[h.column].value else ""
  }

  /** The distinct project names of the worked hits, in order of first appearance. */
  function ProjectNames(hits: seq<Hit>): seq<string> {
    if hits == [] then []
    else
      var before := ProjectNames(hits[..|hits| - 1]);
      if Worked(hits[|hits| - 1]) then AddOnce(before, hits[|hits| - 1].entry.projectName) else before
  }

  function TaskNotes(hits: seq<Hit>): seq<string> {
    if hits == [] then []
    else
      var before := TaskNotes(hits[..|hits| - 1]);
      if Worked(hits[|hits| - 1]) then AddOnce(before, NoteOf(hits[|hits| - 1])) else before
  }

  /** Each name is listed once, and exactly the named projects that were worked on are listed. */
  lemma {:induction false} ProjectNamesLaw(hits: seq<Hit>)
    ensures forall i, j | 0 <= i < j < |ProjectNames(hits)| :: ProjectNames(hits)[i] != ProjectNames(hits)[j]
    ensures forall x :: x in ProjectNames(hits) <==>
              x != "" && exists h | h in hits :: Worked(h) && h.entry.projectName == x
  {
    if hits != [] {
      var n := |hits| - 1;
      ProjectNamesLaw(hits[..n]);
      assert hits == hits[..n] + [hits[n]];
      assert forall h :: h in hits <==> h in hits[..n] || h == hits[n];
    }
  }

  function JoinText(parts: seq<string>): string {
    if |parts| == 0 then "" else if |parts| == 1 then parts[0] else parts[0] + ", " + JoinText(parts[1..])
  }

  // ---- Holidays ----

  function KeyText(y: int, month: int, d: int): string {
    IntText(y) + "-" + Pad2(month) + "-" + Pad2(d)
  }

  lemma Pad2Shape(m: int)
    ensures 0 <= m < 100 ==> |Pad2(m)| == 2 && forall c | c in Pad2(m) :: c != '-'
    ensures m >= 100 ==> |Pad2(m)| >= 3 && forall c | c in Pad2(m) :: c != '-'
    ensures m < 0 ==> |Pad2(m)| >= 2 && Pad2(m)[0] == '-' && forall i | 1 <= i < |Pad2(m)| :: Pad2(m)[i] != '-'
  {
    if m < 0 {
      assert Pad2(m) == "-" + NatText(-m);
      var t := NatText(-m);
      assert forall i | 0 <= i < |t| :: t[i] in t;
    } else if m >= 100 {
      assert Pad2(m) == NatText(m) == NatText(m / 10) + [Digit(m % 10)];
    }
  }

  lemma YearTextShape(y: int)
    ensures forall i | 1 <= i < |IntText(y)| :: IntText(y)[i] != '-'
  {
    if y < 0 {
      assert IntText(y) == "-" + NatText(-y);
    }
    var t := NatText(if y < 0 then -y else y);
    assert forall i | 0 <= i < |t| :: t[i] in t;
  }

  /** A text that ends in a two-digit month and a two-digit day was made from a month of two digits. */
  lemma MonthHasTwoDigits(y: int, m: int, d: int, y': int, m': int, d': int)
    requires 1 <= d <= 31 && 1 <= m' <= 12 && 1 <= d' <= 31
    requires KeyText(y, m, d) == KeyText(y', m', d')
    ensures 0 <= m < 100
  {
    var s, p := KeyText(y, m, d), Pad2(m);
    var k := |s| - 6;
    Pad2Shape(m);
    Pad2Shape(m');
    Pad2Shape(d);
    Pad2Shape(d');
    YearTextShape(y');
    hide IntText, Pad2;
    assert k == |IntText(y')| >= 1;
    assert s[k] == '-' && s[k + 1] == Pad2(m')[0] && s[k + 2] == Pad2(m')[1];
    assert Pad2(m')[0] in Pad2(m') && Pad2(m')[1] in Pad2(m');
    assert k >= 2 ==> s[k - 1] == IntText(y')[k - 1] != '-';
    var j := |IntText(y)|;
    assert |s| == j + |p| + 4 && s[j] == '-';
    assert forall x | j < x <= j + |p| :: s[x] == p[x - j - 1] && s[x] in p;
  }

  lemma KeyParts(y: int, m: int, d: int)
    requires 0 <= m < 100 && 0 <= d < 100
    ensures var s := KeyText(y, m, d);
            && |s| >= 6 && s[..|s| - 6] == IntText(y)
            && s[|s| - 5..|s| - 3] == Pad2(m) && s[|s| - 2..] == Pad2(d)
  {
    hide IntText, Pad2;
  }

  /** Different dates have different key texts, also when a request's month is none of the twelve. */
  lemma KeyTextInjective(y: int, m: int, d: int, y': int, m': int, d': int)
    requires 1 <= d <= 31 && 1 <= m' <= 12 && 1 <= d' <= 31
    requires KeyText(y, m, d) == KeyText(y', m', d')
    ensures y == y' && m == m' && d == d'
  {
    MonthHasTwoDigits(y, m, d, y', m', d');
    hide IntText, Pad2, KeyText;
    KeyParts(y, m, d);
    KeyParts(y', m', d');
    IntTextInjective(y, y');
    Pad2Injective(m, m');
    Pad2Injective(d, d');
  }

  /** The holiday falls on this date: exactly, or every year on this day of this month. */
  predicate FallsOn(h: Holiday, y: int, month: int, d: int) {
    var c := CivilFromDay(h.date);
    c.month + 1 == month && c.date == d && (h.recurring || c.year == y)
  }

  /** The name of the last holiday in the list that falls on the date. */
  function HolidayOn(holidays: seq<Holiday>, y: int, month: int, d: int): Option<string> {
    if holidays == [] then None
    else
      var last := holidays[|holidays| - 1];
      if FallsOn(last, y, month, d) then Some(last.name) else HolidayOn(holidays[..|holidays| - 1], y, month, d)
  }

  /** There is a name exactly when some holiday falls on the date, and it is that of the last one. */
  lemma {:induction false} HolidayOnLaw(holidays: seq<Holiday>, y: int, month: int, d: int)
    ensures HolidayOn(holidays, y, month, d).Some? <==> exists h | h in holidays :: FallsOn(h, y, month, d)
    ensures forall i | 0 <= i < |holidays| ::
              FallsOn(holidays[i], y, month, d) && (forall j | i < j < |holidays| :: !FallsOn(holidays[j], y, month, d))
              ==> HolidayOn(holidays, y, month, d) == Some(holidays[i].name)
  {
    hide FallsOn;
    if holidays != [] {
      var n := |holidays| - 1;
      HolidayOnLaw(holidays[..n], y, month, d);
      assert holidays == holidays[..n] + [holidays[n]];
      assert forall h :: h in holidays <==> h in holidays[..n] || h == holidays[n];
      assert forall i | 0 <= i < n :: holidays[..n][i] == holidays[i];
    }
  }

  function Answer(m: map<string, string>, key: string): Option<string> {
    if key in m then Some(m[key]) else None
  }

  /** The map answers for every date of the year what HolidayOn says. */
  ghost predicate MapsHolidays(m: map<string, string>, holidays: seq<Holiday>, year: int) {
    forall month, d | 1 <= d <= 31 ::
      Answer(m, KeyText(year, month, d)) == HolidayOn(holidays, year, month, d)
  }

  /** The entries the loop writes for one holiday. */
  function PutHoliday(m: map<string, string>, h: Holiday, year: int): map<string, string> {
    var c := CivilFromDay(h.date);
    var m1 := if h.recurring then m[KeyText(year, c.month + 1, c.date) := h.name] else m;
    m1[KeyText(c.year, c.month + 1, c.date) := h.name]
  }

  lemma PutHolidayAt(m: map<string, string>, h: Holiday, year: int, month: int, d: int)
    requires 1 <= d <= 31
    ensures Answer(PutHoliday(m, h, year), KeyText(year, month, d))
         == if FallsOn(h, year, month, d) then Some(h.name) else Answer(m, KeyText(year, month, d))
  {
    var c := CivilFromDay(h.date);
    CivilInRange(h.date);
    hide KeyText, CivilFromDay;
    if KeyText(year, month, d) == KeyText(c.year, c.month + 1, c.date) {
      KeyTextInjective(year, month, d, c.year, c.month + 1, c.date);
    }
    if KeyText(year, month, d) == KeyText(year, c.month + 1, c.date) {
      KeyTextInjective(year, month, d, year, c.month + 1, c.date);
    }
  }

  lemma CivilInRange(n: int)
    ensures var c := CivilFromDay(n); 1 <= c.month + 1 <= 12 && 1 <= c.date <= 31
  {
    DayToCivilToDay(n);
  }

  lemma HolidayOnNext(holidays: seq<Holiday>, h: Holiday, y: int, month: int, d: int)
    ensures HolidayOn(holidays + [h], y, month, d)
         == if FallsOn(h, y, month, d) then Some(h.name) else HolidayOn(holidays, y, month, d)
  {
    hide FallsOn;
    assert (holidays + [h])[..|holidays|] == holidays;
  }

  lemma PutHolidayMaps(m: map<string, string>, holidays: seq<Holiday>, h: Holiday, year: int)
    requires MapsHolidays(m, holidays, year)
    ensures MapsHolidays(PutHoliday(m, h, year), holidays + [h], year)
  {
    hide PutHoliday, KeyText, FallsOn, HolidayOn, Answer;
    forall month, d | 1 <= d <= 31
      ensures Answer(PutHoliday(m, h, year), KeyText(year, month, d)) == HolidayOn(holidays + [h], year, month, d)
    {
      PutHolidayAt(m, h, year, month, d);
      HolidayOnNext(holidays, h, year, month, d);
    }
  }

  lemma PutNextHoliday(m: map<string, string>, holidays: seq<Holiday>, i: nat, year: int)
    requires i < |holidays| && MapsHolidays(m, holidays[..i], year)
    ensures MapsHolidays(PutHoliday(m, holidays[i], year), holidays[..i + 1], year)
  {
    hide MapsHolidays, PutHoliday;
    assert holidays[..i + 1] == holidays[..i] + [holidays[i]];
    PutHolidayMaps(m, holidays[..i], holidays[i], year);
  }

  lemma NoHolidays(year: int)
    ensures MapsHolidays(map[], [], year)
  {
  }

  /** The body of the loop below. */
  method SetNames(m: map<string, string>, h: Holiday, year: int) returns (m': map<string, string>)
    ensures m' == PutHoliday(m, h, year)
  {
    hide KeyText, CivilFromDay;
    m' := m;
    var c := CivilFromDay(h.date);
    var hKey := KeyText(c.year, c.month + 1, c.date);
    if h.recurring {
      m' := m'[KeyText(year, c.month + 1, c.date) := h.name];
    }
    m' := m'[hKey := h.name];
  }

  /** The loop that builds the map of holiday names by date text. */
  method BuildHolidayMap(holidays: seq<Holiday>, year: int) returns (m: map<string, string>)
    ensures MapsHolidays(m, holidays, year)
  {
    hide MapsHolidays, PutHoliday;
    m := map[];
    NoHolidays(year);
    assert holidays[..0] == [];
    for i := 0 to |holidays|
      invariant MapsHolidays(m, holidays[..i], year)
    {
      PutNextHoliday(m, holidays, i, year);
      m := SetNames(m, holidays[i], year);
    }
    assert holidays[..|holidays|] == holidays;
  }

  /** The holiday falls on the day. */
  predicate FallsOnDay(h: Holiday, n: int) {
    var c, today := CivilFromDay(h.date), CivilFromDay(n);
    c.month == today.month && c.date == today.date && (h.recurring || c.year == today.year)
  }

  lemma MonthIxExactly(year: int, month: int)
    ensures var ix := MonthIx(year, month);
            ix % 12 + 1 == month && ix / 12 == year <==> 1 <= month <= 12 && !(0 <= year <= 99)
  {
  }

  /**
   The keys find the holidays of a day of the month exactly when the request's month is one of the
   twelve and its year is none of 0 to 99: those years are read as 1900 to 1999 for the days, but
   not for the keys.
   */
  lemma HolidayKeysExactly(year: int, month: int, d: int)
    requires 1 <= d <= DaysInMonth(year, month)
    ensures (forall h :: FallsOn(h, year, month, d) <==> FallsOnDay(h, MonthDay(year, month, d)))
       <==> 1 <= month <= 12 && !(0 <= year <= 99)
  {
    var n := MonthDay(year, month, d);
    var ix := MonthIx(year, month);
    MonthDayCivil(year, month, d);
    MonthIxExactly(year, month);
    hide CivilFromDay, MonthDay, DaysInMonth, MonthIx;
    if forall h :: FallsOn(h, year, month, d) <==> FallsOnDay(h, n) {
      assert FallsOnDay(Holiday("", n, false), n);
      assert FallsOn(Holiday("", n, false), year, month, d);
    }
  }

  // ---- One day ----

  /** What the loops collect for one day. */
  datatype DayTally = DayTally(hours: real, timeOff: real, projects: seq<string>, tasks: seq<string>, leave: bool)

  function TallyOf(hits: seq<Hit>): DayTally {
    DayTally(Sum(hits, HitHours()), Sum(hits, HitTimeOff()), ProjectNames(hits), TaskNotes(hits),
             exists h | h in hits :: IsLeaveHit(h))
  }

  lemma TallyNext(hits: seq<Hit>, h: Hit)
    ensures var t, t' := TallyOf(hits), TallyOf(hits + [h]);
            && t'.hours == t.hours + HitHours()(h) && t'.timeOff == t.timeOff + HitTimeOff()(h)
            && t'.projects == (if Worked(h) then AddOnce(t.projects, h.entry.projectName) else t.projects)
            && t'.tasks == (if Worked(h) then AddOnce(t.tasks, NoteOf(h)) else t.tasks)
            && (t'.leave <==> t.leave || IsLeaveHit(h))
  {
    var all := hits + [h];
    assert all[..|all| - 1] == hits && all[|all| - 1] == h;
    hide HitHours, HitTimeOff, IsLeaveHit, Worked, AddOnce;
    SumSnoc(hits, h, HitHours());
    SumSnoc(hits, h, HitTimeOff());
    assert forall x :: x in all <==> x in hits || x == h;
  }

  /** The body of the inner loop: one entry, one column. */
  method AddHit(t: DayTally, entry: MonthEntry, k: int) returns (t': DayTally)
    requires 0 <= k < 7
    ensures forall hits :: t == TallyOf(hits) ==> t' == TallyOf(hits + [Hit(entry, k)])
  {
    var DayTally(dayHours, dayTimeOff, projectNames, taskDescs, isLeave) := t;
    var hours := entry.hours[k];
    var timeOff := entry.timeOff[k];
    if hours > 0.0 {
      dayHours := dayHours + hours;
      if entry.projectName != "" && entry.projectName !in projectNames {
        projectNames := projectNames + [entry.projectName];
      }
      var desc := entry.notes[k];
      if desc.Some? && desc.value != "" && desc.value !in taskDescs {
        taskDescs := taskDescs + [desc.value];
      }
      if IsLeaveProject(entry) {
        isLeave := true;
      }
    }
    if timeOff > 0.0 {
      dayTimeOff := dayTimeOff + timeOff;
      isLeave := true;
    }
    t' := DayTally(dayHours, dayTimeOff, projectNames, taskDescs, isLeave);
    forall hits | t == TallyOf(hits) ensures t' == TallyOf(hits + [Hit(entry, k)]) {
      hide TallyOf, IsLeaveProject;
      TallyNext(hits, Hit(entry, k));
    }
  }

  lemma SheetHitsLaw(ts: MonthSheet, n: int)
    ensures var key, mine := DayKey(Midnight(n), ts.weekStart), SheetHits(ts, n);
            && |mine| == (if key.Some? then |ts.entries| else 0)
            && forall j | 0 <= j < |mine| :: mine[j] == Hit(ts.entries[j], key.value)
  {
    hide DayKey;
  }

  /** The loop over the entries of one timesheet, skipped when no column of it is the day's. */
  method TallySheet(t: DayTally, ts: MonthSheet, n: int, ghost before: seq<Hit>) returns (t': DayTally)
    requires t == TallyOf(before)
    ensures t' == TallyOf(before + SheetHits(ts, n))
  {
    SheetHitsLaw(ts, n);
    hide TallyOf, SheetHits, DayKey, Midnight;
    t' := t;
    var dayKey := DayKey(Midnight(n), ts.weekStart);
    ghost var mine := SheetHits(ts, n);
    assert before + mine[..0] == before;
    if dayKey.Some? {
      for j := 0 to |ts.entries|
        invariant t' == TallyOf(before + mine[..j])
      {
        t' := AddHit(t', ts.entries[j], dayKey.value);
        assert (before + mine[..j]) + [mine[j]] == before + mine[..j + 1];
      }
    }
    assert mine[..|mine|] == mine;
  }

  /** The loop over the timesheets for one day. */
  method TallyDay(sheets: seq<MonthSheet>, n: int) returns (t: DayTally)
    ensures t == TallyOf(Hits(sheets, n))
  {
    t := DayTally(0.0, 0.0, [], [], false);
    assert sheets[..0] == [];
    for i := 0 to |sheets|
      invariant t == TallyOf(Hits(sheets[..i], n))
    {
      assert sheets[..i + 1][..i] == sheets[..i];
      assert Hits(sheets[..i + 1], n) == Hits(sheets[..i], n) + SheetHits(sheets[i], n);
      hide TallyOf, Hits, SheetHits;
      t := TallySheet(t, sheets[i], n, Hits(sheets[..i], n));
    }
    assert sheets[..|sheets|] == sheets;
  }

  predicate IsWeekend(n: int) {
    WeekDay(n) == 0 || WeekDay(n) == 6
  }

  /** `MONTH_SHORT[month - 1]` in a template. */
  function MonthText(month: int): string {
    if 1 <= month <= 12 then MONTH_SHORT[month - 1] else "undefined"
  }

  /** The row of a day, from what falls on it. */
  function RowFor(year: int, month: int, d: int, t: DayTally, holiday: Option<string>): DayRow {
    var n := MonthDay(year, month, d);
    var off := holiday.Some? || t.leave;
    var regular := if t.hours < 8.0 then t.hours else 8.0;
    var overtime := if t.hours > 8.0 then t.hours - 8.0 else 0.0;
    DayRow(Pad2(d) + "-" + MonthText(month), DAY_NAMES[WeekDay(n)], JoinText(t.projects), JoinText(t.tasks),
           if off then 0.0 else regular, overtime, if off then 0.0 else t.hours, t.timeOff,
           holiday.Some?, holiday, t.leave, IsWeekend(n))
  }

  function RowOf(year: int, month: int, d: int, sheets: seq<MonthSheet>, holidays: seq<Holiday>): DayRow {
    RowFor(year, month, d, TallyOf(Hits(sheets, MonthDay(year, month, d))), HolidayOn(holidays, year, month, d))
  }

  // ---- The month ----

  /** Days that count towards the totals. */
  predicate Counts(r: DayRow) {
    !r.isHoliday && !r.isLeave && !r.isWeekend
  }

  function CountedTime(): DayRow -> real {
    (r: DayRow) => if Counts(r) then r.time else 0.0
  }

  function CountedOvertime(): DayRow -> real {
    (r: DayRow) => if Counts(r) then r.overtime else 0.0
  }

  function CountedTotal(): DayRow -> real {
    (r: DayRow) => if Counts(r) then r.totalTime else 0.0
  }

  function OnHoliday(): DayRow -> bool {
    (r: DayRow) => r.isHoliday
  }

  function OnLeave(): DayRow -> bool {
    (r: DayRow) => r.isLeave
  }

  function InWindow(year: int, month: int): MonthSheet -> bool {
    (s: MonthSheet) => SearchStart(year, month) <= s.weekStart <= SearchEnd(year, month)
  }

  /** Dropping the query window changes nothing on any day of the month. */
  lemma {:induction false} WindowRefinesScan(year: int, month: int, d: int, sheets: seq<MonthSheet>)
    requires 1 <= d <= DaysInMonth(year, month)
    ensures Hits(Filter(sheets, InWindow(year, month)), MonthDay(year, month, d))
            == Hits(sheets, MonthDay(year, month, d))
    decreases |sheets|
  {
    hide DayKey, MonthDay, SearchStart, SearchEnd, DaysInMonth;
    if sheets != [] {
      var k := |sheets| - 1;
      var n := MonthDay(year, month, d);
      var before := Filter(sheets[..k], InWindow(year, month));
      WindowRefinesScan(year, month, d, sheets[..k]);
      if InWindow(year, month)(sheets[k]) {
        assert (before + [sheets[k]])[..|before|] == before;
      } else {
        OutsideWindowNoHit(year, month, d, sheets[k]);
      }
    }
  }

  lemma OutsideWindowNoHit(year: int, month: int, d: int, s: MonthSheet)
    requires 1 <= d <= DaysInMonth(year, month)
    requires !InWindow(year, month)(s)
    ensures SheetHits(s, MonthDay(year, month, d)) == []
  {
    hide DayKey, MonthDay, SearchStart, SearchEnd, DaysInMonth;
    if DayKey(Midnight(MonthDay(year, month, d)), s.weekStart).Some? {
      WindowIsWideEnough(year, month, d, s.weekStart);
    }
  }

  /** The body of the day loop up to the row it pushes: the query's rows and the map give the row of the full scan. */
  method MakeRow(year: int, month: int, d: int, fetched: seq<MonthSheet>, holidayMap: map<string, string>,
                 ghost sheets: seq<MonthSheet>, ghost holidays: seq<Holiday>) returns (row: DayRow)
    requires 1 <= d <= DaysInMonth(year, month)
    requires fetched == Filter(sheets, InWindow(year, month)) && MapsHolidays(holidayMap, holidays, year)
    ensures row == RowOf(year, month, d, sheets, holidays)
  {
    DaysInMonthLaw(year, month);
    var dayOfWeek := WeekDay(MonthDay(year, month, d));
    var isWeekend := dayOfWeek == 0 || dayOfWeek == 6;
    var dateKey := KeyText(year, month, d);
    var isHoliday := dateKey in holidayMap;
    var holidayName := if isHoliday then Some(holidayMap[dateKey]) else None;
    assert holidayName == Answer(holidayMap, dateKey) == HolidayOn(holidays, year, month, d);
    WindowRefinesScan(year, month, d, sheets);
    hide TallyOf, Hits, HolidayOn, MapsHolidays, Answer;
    hide MonthDay, DaysInMonth, MonthText, KeyText, Pad2, JoinText, Filter, WeekDay;
    var t := TallyDay(fetched, MonthDay(year, month, d));
    var regularHours := if t.hours < 8.0 then t.hours else 8.0;
    var overtime := if t.hours > 8.0 then t.hours - 8.0 else 0.0;
    row := DayRow(
      Pad2(d) + "-" + MonthText(month), DAY_NAMES[dayOfWeek], JoinText(t.projects), JoinText(t.tasks),
      if isHoliday || t.leave then 0.0 else regularHours, overtime, if isHoliday || t.leave then 0.0 else t.hours,
      t.timeOff, isHoliday, holidayName, t.leave, isWeekend);
  }

  /** What the counters add up to over the rows so far. */
  ghost predicate CountersOf(r: MonthReport) {
    && r.totalHours == Sum(r.days, CountedTime()) && r.totalOvertime == Sum(r.days, CountedOvertime())
    && r.holidayCount == |Filter(r.days, OnHoliday())| && r.leaveCount == |Filter(r.days, OnLeave())|
  }

  /** The rest of the body: push the row and move the counters. */
  method PushRow(r: MonthReport, row: DayRow) returns (r': MonthReport)
    requires CountersOf(r)
    ensures CountersOf(r') && r'.days == r.days + [row]
  {
    var MonthReport(days, totalHours, totalOvertime, holidayCount, leaveCount) := r;
    if row.isHoliday {
      holidayCount := holidayCount + 1;
    }
    if row.isLeave {
      leaveCount := leaveCount + 1;
    }
    if !row.isHoliday && !row.isLeave && !row.isWeekend {
      totalHours := totalHours + row.time;
      totalOvertime := totalOvertime + row.overtime;
    }
    SumSnoc(days, row, CountedTime());
    SumSnoc(days, row, CountedOvertime());
    FilterSnocCount(days, row, OnHoliday());
    FilterSnocCount(days, row, OnLeave());
    hide Sum, Filter;
    r' := MonthReport(days + [row], totalHours, totalOvertime, holidayCount, leaveCount);
  }

  /** The report of a month over all the user's timesheets: what each row and each total is. */
  method GenerateMonthly(year: int, month: int, sheets: seq<MonthSheet>, holidays: seq<Holiday>)
    returns (r: MonthReport)
    ensures |r.days| == DaysInMonth(year, month)
    ensures forall d | 1 <= d <= |r.days| :: r.days[d - 1] == RowOf(year, month, d, sheets, holidays)
    ensures r.totalHours == Sum(r.days, CountedTime()) && r.totalOvertime == Sum(r.days, CountedOvertime())
    ensures r.holidayCount == |Filter(r.days, OnHoliday())| && r.leaveCount == |Filter(r.days, OnLeave())|
  {
    hide RowOf, MapsHolidays, Sum, Filter, DaysInMonth, MonthStart, MonthIx;
    var fetched := Filter(sheets, InWindow(year, month));
    var holidayMap := BuildHolidayMap(holidays, year);
    var daysInMonth := DaysInMonth(year, month);
    DaysInMonthLaw(year, month);
    r := MonthReport([], 0.0, 0.0, 0, 0);
    NothingCounted();
    for d := 1 to daysInMonth + 1
      invariant |r.days| == d - 1 && CountersOf(r)
      invariant forall k | 1 <= k < d :: r.days[k - 1] == RowOf(year, month, k, sheets, holidays)
    {
      var row := MakeRow(year, month, d, fetched, holidayMap, sheets, holidays);
      r := PushRow(r, row);
    }
  }

  lemma NothingCounted()
    ensures CountersOf(MonthReport([], 0.0, 0.0, 0, 0))
  {
  }

  lemma FilterSnocCount(rows: seq<DayRow>, x: DayRow, keep: DayRow -> bool)
    ensures |Filter(rows + [x], keep)| == |Filter(rows, keep)| + (if keep(x) then 1 else 0)
  {
    assert (rows + [x])[..|rows|] == rows;
  }

  // ---- Laws of the rows ----

  /** On every row: at most eight regular hours, and regular plus overtime is the total exactly unless the
      day is off with more than eight hours on it. */
  lemma RowLaw(year: int, month: int, d: int, sheets: seq<MonthSheet>, holidays: seq<Holiday>)
    ensures var r, hours := RowOf(year, month, d, sheets, holidays), HoursOn(sheets, MonthDay(year, month, d));
            && r.time <= 8.0
            && (r.time + r.overtime == r.totalTime <==> (!r.isHoliday && !r.isLeave) || hours <= 8.0)
            && (Counts(r) ==> r.totalTime == hours)
  {
    hide Hits, HolidayOn, MonthDay, WeekDay, Pad2, JoinText, ProjectNames, TaskNotes;
  }

  lemma CountedRow(year: int, month: int, d: int, sheets: seq<MonthSheet>, holidays: seq<Holiday>)
    ensures var r := RowOf(year, month, d, sheets, holidays);
            && CountedTotal()(r) == CountedTime()(r) + CountedOvertime()(r)
            && CountedTotal()(r) == if Counts(r) then HoursOn(sheets, MonthDay(year, month, d)) else 0.0
  {
    RowLaw(year, month, d, sheets, holidays);
    hide RowOf, HoursOn, MonthDay;
  }

  /** The two totals together are the hours of the counted days. */
  lemma TotalsAreCountedHours(year: int, month: int, sheets: seq<MonthSheet>, holidays: seq<Holiday>, days: seq<DayRow>)
    requires forall d | 1 <= d <= |days| :: days[d - 1] == RowOf(year, month, d, sheets, holidays)
    ensures Sum(days, CountedTime()) + Sum(days, CountedOvertime()) == Sum(days, CountedTotal())
    ensures forall d | 1 <= d <= |days| ::
              CountedTotal()(days[d - 1]) == if Counts(days[d - 1]) then HoursOn(sheets, MonthDay(year, month, d))
                  else 0.0
  {
    hide RowOf, HoursOn, MonthDay, Counts;
    forall r | r in days ensures CountedTotal()(r) == CountedTime()(r) + CountedOvertime()(r) {
      var i :| 0 <= i < |days| && days[i] == r;
      CountedRow(year, month, i + 1, sheets, holidays);
      assert days[i + 1 - 1] == RowOf(year, month, i + 1, sheets, holidays);
    }
    forall d | 1 <= d <= |days|
      ensures CountedTotal()(days[d - 1]) == if Counts(days[d - 1]) then HoursOn(sheets, MonthDay(year, month, d))
              else 0.0
    {
      CountedRow(year, month, d, sheets, holidays);
    }
    SumPlus(days, CountedTime(), CountedOvertime(), CountedTotal());
  }
}
