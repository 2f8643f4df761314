/**
 Concrete runs from the empty database that end in the states other modules speak of: a second
 timesheet for one week, overlapping weeks, hours hidden by a filter, overtime on a holiday, lost time
 off, hours charged twice, an EMPLOYEE with reports, an approved timesheet with stale totals. And what
 goes wrong with the years 0 to 99.
 */
module Witnesses {
  import opened Common
  import opened Calendar
  import opened Rows
  import opened Weeks
  import opened Schema
  import opened Timesheets
  import opened Approvals
  import opened People
  import opened LedgerLaws
  import opened Operations
  import opened StaffLaws
  import opened Runs
  import opened WeekRuns
  import opened MonthKeys
  import opened Monthly
  import opened MonthSplit
  import opened Interleaving
  import opened LateWrites
  import opened TornWrites
  import opened StaleTotals
  import opened StaffSteps
  import opened RoleLaws
  import opened EntryLaws
  import opened SheetOutcomes
  import opened EntryOutcomes
  import CopyLaws
  import Report
  import WeekLabel

  // ---- Reachability ----

  ghost predicate EndsIn(states: seq<State>, ops: seq<Op>, s: State) {
    IsRun(states, ops) && |states| == |ops| + 1 && states[|ops|] == s
  }

  /** The system comes to this state by some interleaving, entry writes without their recalculation included. */
  ghost predicate ComesTo(systems: seq<System>, events: seq<TornEvent>, sys: System) {
    IsTornSchedule(systems, events) && |systems| == |events| + 1 && systems[|events|] == sys
  }

  ghost predicate SystemReachable(sys: System) {
    exists systems, events :: ComesTo(systems, events, sys)
  }

  /** A run from the empty database ends in this state; so the system can come to it with no approval in progress. */
  ghost predicate Reachable(s: State) {
    (exists states, ops :: EndsIn(states, ops, s)) && SystemReachable(System(s, []))
  }

  lemma StartReachable()
    ensures Reachable(EMPTY_STATE)
  {
    EmptyRun();
    assert EndsIn([EMPTY_STATE], [], EMPTY_STATE);
    assert ComesTo([System(EMPTY_STATE, [])], [], System(EMPTY_STATE, []));
  }

  lemma SystemReach(sys: System, ev: TornEvent)
    requires SystemReachable(sys) && CanHappen(sys, ev)
    ensures SystemReachable(StepTorn(sys, ev))
  {
    hide CanHappen, StepTorn;
    var systems, events :| ComesTo(systems, events, sys);
    var next := StepTorn(sys, ev);
    assert ComesTo(systems + [next], events + [ev], next);
  }

  lemma Reach(s: State, op: Op, s': State)
    requires Reachable(s) && Legal(s, op) && !op.OpApprove? && Apply(s, op).state == s'
    ensures Reachable(s')
  {
    assert CanHappen(System(s, []), Whole(Request(op)))
        && StepTorn(System(s, []), Whole(Request(op))) == System(s', []);
    hide Legal, Apply, IsRun, CanHappen, StepTorn, SystemReachable;
    SystemReach(System(s, []), Whole(Request(op)));
    var states, ops :| EndsIn(states, ops, s);
    ExtendRun(states, ops, op);
    assert EndsIn(states + [s'], ops + [op], s');
  }

  // ---- Two timesheets in one week, and weeks that overlap ----

  const ADMIN_CALL := Caller(1, 1, ADMIN)
  const DEFAULTS := Settings(Monday, true, true, false, 24.0)
  const SUNDAYS := Settings(Sunday, true, true, false, 24.0)

  const ALONE := State(
    Ledger(map[], [], map[], 1, 1, 1), Staff(map[1 := User(1, "a@b.c", ADMIN, true)], {}, {}, {}, 2, 2),
        map[1 := DEFAULTS])

  /** The state with one administrator and these timesheets, numbered from 1. */
  function WithSheets(ts: map<int, Timesheet>, next: int, row: Settings): State {
    ALONE.(ledger := ALONE.ledger.(timesheets := ts, nextSheet := next), settings := map[1 := row])
  }

  lemma RegisterFirst()
    ensures Reachable(ALONE)
  {
    StartReachable();
    var op := OpRegister("a@b.c");
    assert Apply(EMPTY_STATE, op).state == ALONE;
    Reach(EMPTY_STATE, op, ALONE);
  }

  lemma CreateOne(ts: map<int, Timesheet>, next: int, row: Settings, date: int)
    requires Reachable(WithSheets(ts, next, row)) && row.allowBackdated
    requires !WeekTaken(WithSheets(ts, next, row).ledger, ADMIN_CALL, GetWeekStart(date, row.workWeekStart))
    ensures Reachable(WithSheets(
              ts[next := NewSheet(ADMIN_CALL, GetWeekStart(date, row.workWeekStart))], next + 1, row))
  {
    var s, op := WithSheets(ts, next, row), OpCreateTimesheet(ADMIN_CALL, date, 0);
    var s' := WithSheets(ts[next := NewSheet(ADMIN_CALL, GetWeekStart(date, row.workWeekStart))], next + 1, row);
    assert Apply(s, op).state == s' by { hide GetWeekStart, WeekTaken; }
    hide WithSheets, Apply, Reachable;
    Reach(s, op, s');
  }

  /** A second draft moved onto the first: two timesheets of one user for one week, one of them of the wrong length. */
  lemma DuplicateWeekReachable() returns (s: State)
    ensures Reachable(s) && !OnePerWeek(s.ledger, 1) && !WeekEndsOk(s.ledger, 1)
  {
    RegisterFirst();
    assert WithSheets(map[], 1, DEFAULTS) == ALONE;
    hide Reachable;
    CreateOne(map[], 1, DEFAULTS, 4);
    var a, b := NewSheet(ADMIN_CALL, 4), NewSheet(ADMIN_CALL, 11);
    CreateOne(map[1 := a], 2, DEFAULTS, 11);
    var before := WithSheets(map[1 := a, 2 := b], 3, DEFAULTS);
    assert map[1 := a][2 := b] == map[1 := a, 2 := b];
    s := WithSheets(map[1 := a, 2 := b.(weekStart := 4)], 3, DEFAULTS);
    assert map[1 := a, 2 := b][2 := b.(weekStart := 4)] == map[1 := a, 2 := b.(weekStart := 4)];
    MoveSecond(before, s);
    Reach(before, OpUpdateTimesheet(ADMIN_CALL, 2, Some(4)), s);
    assert SameOwner(s.ledger.timesheets[1], s.ledger.timesheets[2]);
  }

  lemma MoveSecond(s: State, s': State)
    requires s == WithSheets(map[1 := NewSheet(ADMIN_CALL, 4), 2 := NewSheet(ADMIN_CALL, 11)], 3, DEFAULTS)
    requires s' == s.(ledger := s.ledger.(timesheets :=
                        s.ledger.timesheets[2 := NewSheet(ADMIN_CALL, 11).(weekStart := 4)]))
    ensures Legal(s, OpUpdateTimesheet(ADMIN_CALL, 2, Some(4)))
    ensures Apply(s, OpUpdateTimesheet(ADMIN_CALL, 2, Some(4))).state == s'
  {
  }

  const MONDAY_WEEK := NewSheet(ADMIN_CALL, 4)
  const SUNDAY_WEEK := NewSheet(ADMIN_CALL, 10)

  /** A week from Monday and, after a change of settings, the next one from Sunday: both have day 10. */
  const OVERLAP := WithSheets(map[1 := MONDAY_WEEK, 2 := SUNDAY_WEEK], 3, SUNDAYS)

  /** With no updateTimesheet at all, two weeks of one user come to share a day. */
  lemma OverlapReachable()
    ensures Reachable(OVERLAP) && !OwnDisjoint(OVERLAP.ledger, ADMIN_CALL)
    ensures OVERLAP.ledger.timesheets[1].weekEnd == OVERLAP.ledger.timesheets[2].weekStart
  {
    RegisterFirst();
    assert WithSheets(map[], 1, DEFAULTS) == ALONE;
    hide Reachable;
    CreateOne(map[], 1, DEFAULTS, 4);
    var before := WithSheets(map[1 := MONDAY_WEEK], 2, DEFAULTS);
    var moved := WithSheets(map[1 := MONDAY_WEEK], 2, SUNDAYS);
    assert map[][1 := MONDAY_WEEK] == map[1 := MONDAY_WEEK];
    ChangeFirstDay(before, moved);
    Reach(before, OpSettings(ADMIN_CALL, SUNDAYS), moved);
    CreateOne(map[1 := MONDAY_WEEK], 2, SUNDAYS, 10);
    assert map[1 := MONDAY_WEEK][2 := SUNDAY_WEEK] == map[1 := MONDAY_WEEK, 2 := SUNDAY_WEEK];
    assert Overlap(OVERLAP.ledger.timesheets[1], OVERLAP.ledger.timesheets[2]);
  }

  lemma ChangeFirstDay(s: State, s': State)
    requires s == WithSheets(map[1 := MONDAY_WEEK], 2, DEFAULTS) && s' == WithSheets(map[1 := MONDAY_WEEK], 2, SUNDAYS)
    ensures Legal(s, OpSettings(ADMIN_CALL, SUNDAYS)) && Apply(s, OpSettings(ADMIN_CALL, SUNDAYS)).state == s'
  {
    assert map[1 := DEFAULTS][1 := SUNDAYS] == map[1 := SUNDAYS];
  }

  /** In that state's second week the monthly timesheet reads Monday, day 11, from the Tuesday column. */
  lemma SundayWeekMisread()
    ensures Reachable(OVERLAP) && WeekDay(11) == 1 && WeekdayColumn(11) == 0
    ensures DayKey(Midnight(11), Midnight(OVERLAP.ledger.timesheets[2].weekStart)) == Some(1)
  {
    OverlapReachable();
    SundayWeekShifts(11, 10);
  }

  // ---- Two administrators, two projects, one timesheet with ten hours on its Monday ----

  const SECOND_CALL := Caller(2, 1, ADMIN)
  const NINE: WeekInput := [Some(9.0), None, None, None, None, None, None]
  const ONE: WeekInput := [Some(1.0), None, None, None, None, None, None]
  const HALF_DAY: WeekInput := [None, Some(4.0), None, None, None, None, None]
  const BOOK_A := EntryInput(Some(1), None, NINE, NO_NOTES, HALF_DAY)
  const BOOK_B := EntryInput(Some(2), None, ONE, NO_NOTES, NO_INPUT)
  const ENTRY_A := Entry(1, 1, 1, true, [9.0, 0.0, 0.0, 0.0, 0.0, 0.0, 0.0], NO_NOTES,
      [0.0, 4.0, 0.0, 0.0, 0.0, 0.0, 0.0], 9.0)
  const ENTRY_B := Entry(2, 1, 2, true, [1.0, 0.0, 0.0, 0.0, 0.0, 0.0, 0.0], NO_NOTES, NO_HOURS, 1.0)

  const PAIR := ALONE.staff.users[2 := User(1, "d@b.c", ADMIN, true)]
  const PROJECT_A := Project(1, "A", "Alpha", true, 0.0, 0.0)
  const PROJECT_B := Project(1, "B", "Beta", true, 0.0, 0.0)
  const PROJECTS := map[1 := PROJECT_A, 2 := PROJECT_B]

  function Sheet(total: real, status: Status): Timesheet {
    NewSheet(ADMIN_CALL, 4).(totalHours := total, billableHours := total, status := status)
  }

  function Team(sheets: map<int, Timesheet>, entries: seq<Entry>, projects: map<int, Project>,
                nextSheet: int, nextEntry: int, nextProject: int): State {
    State(Ledger(sheets, entries, projects, nextSheet, nextEntry, nextProject),
          Staff(PAIR, {}, {}, {}, 3, 2), map[1 := DEFAULTS])
  }

  const DRAFTED := Team(map[1 := Sheet(0.0, DRAFT)], [], PROJECTS, 2, 1, 3)
  const BOOKED := Team(map[1 := Sheet(10.0, DRAFT)], [ENTRY_A, ENTRY_B], PROJECTS, 2, 3, 3)
  const HANDED_IN := Team(map[1 := Sheet(10.0, SUBMITTED)], [ENTRY_A, ENTRY_B], PROJECTS, 2, 3, 3)

  /** One operation leads from each state to the next. */
  predicate Leads(s: State, op: Op, s': State) {
    Legal(s, op) && !op.OpApprove? && Apply(s, op).state == s'
  }

  lemma Hire()
    ensures Leads(ALONE, OpCreateUser(ADMIN_CALL, "d@b.c", Some(ADMIN), [], []), Team(map[], [], map[], 1, 1, 1))
  {
    assert "d@b.c" != "a@b.c" by { assert "d@b.c"[0] != "a@b.c"[0]; }
  }

  lemma AddProject(s: State, s': State, dto: ProjectInput, project: Project)
    requires s == Team(map[], [], s.ledger.projects, 1, 1, s.ledger.nextProject)
    requires !CodeTaken(s.ledger, 1, dto.code, None) && dto.managerIds == [] && dto.employeeIds == []
    requires project == Project(1, dto.code, dto.name, dto.active != Some(false), 0.0, 0.0) && dto.budgetHours == None
    requires s' == Team(map[], [], s.ledger.projects[s.ledger.nextProject := project], 1, 1, s.ledger.nextProject + 1)
    ensures Leads(s, OpCreateProject(ADMIN_CALL, dto), s')
  {
    hide CodeTaken;
    assert (set e: (int, int) | e in s.staff.projectManagers && e.0 != s.ledger.nextProject) == {};
    assert (set e: (int, int) | e in s.staff.assignments && e.0 != s.ledger.nextProject) == {};
  }

  lemma Draft()
    ensures Leads(Team(map[], [], PROJECTS, 1, 1, 3), OpCreateTimesheet(ADMIN_CALL, 4, 0), DRAFTED)
  {
  }

  lemma SumOfTwo(a: Entry, b: Entry)
    requires a.sheet == 1 && b.sheet == 1 && a.billable && b.billable
    ensures SheetRows([a], 1) == [a] && HoursOf([a]) == a.totalHours && BillableHoursOf([a]) == a.totalHours
    ensures SheetRows([a, b], 1) == [a, b]
    ensures HoursOf([a, b]) == a.totalHours + b.totalHours && BillableHoursOf([a, b]) == a.totalHours + b.totalHours
  {
    assert [] + [a] == [a] && [a] + [b] == [a, b];
    SumSnoc([], a, Total());
    SumSnoc([a], b, Total());
    FilterAll([a], InSheet(1));
    FilterAll([a, b], InSheet(1));
    FilterAll([a], IsBillable());
    FilterAll([a, b], IsBillable());
  }

  lemma Book(s: State, entries: seq<Entry>, dto: EntryInput, row: Entry, total: real, total': real)
    requires s == Team(map[1 := Sheet(total, DRAFT)], entries, PROJECTS, 2, row.id, 3)
    requires NewEntryRefusal(s, ADMIN_CALL, 1, dto).None? && NewEntry(row.id, 1, dto) == row
    requires SheetRows(entries + [row], 1) == entries + [row]
    requires HoursOf(entries + [row]) == total' && BillableHoursOf(entries + [row]) == total'
    ensures Leads(s, OpCreateEntry(ADMIN_CALL, 1, dto),
                  Team(map[1 := Sheet(total', DRAFT)], entries + [row], PROJECTS, 2, row.id + 1, 3))
  {
    hide NewEntryRefusal, NewEntry, SheetRows, HoursOf, BillableHoursOf;
    assert map[1 := Sheet(total, DRAFT)][1 := Sheet(total', DRAFT)] == map[1 := Sheet(total', DRAFT)];
  }

  lemma BookingsAccepted(s: State, entries: seq<Entry>, total: real, nextEntry: int)
    requires s == Team(map[1 := Sheet(total, DRAFT)], entries, PROJECTS, 2, nextEntry, 3)
    ensures NewEntryRefusal(s, ADMIN_CALL, 1, BOOK_A).None? && NewEntryRefusal(s, ADMIN_CALL, 1, BOOK_B).None?
  {
    BookingAccepted(s, BOOK_A);
    BookingAccepted(s, BOOK_B);
    hide NewEntryRefusal;
  }

  lemma BookingAccepted(s: State, dto: EntryInput)
    requires dto == BOOK_A || dto == BOOK_B
    requires 1 in s.settings && s.settings[1] == DEFAULTS && s.ledger.projects == PROJECTS
    requires Mine(s, ADMIN_CALL, 1) && s.ledger.timesheets[1].status == DRAFT
    ensures NewEntryRefusal(s, ADMIN_CALL, 1, dto).None?
  {
    assert Bounded(dto) && WithinMaximum(s, 1, dto) && DescribedEnough(s, 1, dto);
    hide Bounded, WithinMaximum, DescribedEnough, NewEntryRefusal, NewEntry, Recalculate;
    CreateEntryExactly(s, ADMIN_CALL, 1, dto);
  }

  lemma RowsBooked()
    ensures NewEntry(1, 1, BOOK_A) == ENTRY_A && NewEntry(2, 1, BOOK_B) == ENTRY_B
  {
    assert MergeWeek(NINE, NO_HOURS) == ENTRY_A.hours && MergeWeek(HALF_DAY, NO_HOURS) == ENTRY_A.timeOff;
    assert MergeWeek(ONE, NO_HOURS) == ENTRY_B.hours && MergeWeek(NO_INPUT, NO_HOURS) == NO_HOURS;
  }

  lemma HandIn()
    ensures Leads(BOOKED, OpSubmit(ADMIN_CALL, 1), HANDED_IN)
  {
    assert map[1 := Sheet(10.0, DRAFT)][1 := Sheet(10.0, SUBMITTED)] == map[1 := Sheet(10.0, SUBMITTED)];
  }

  lemma ReachOn(s: State, op: Op, s': State)
    requires Reachable(s) && Leads(s, op, s')
    ensures Reachable(s')
  {
    hide Legal, Apply, Reachable;
    Reach(s, op, s');
  }

  lemma BookTwice()
    ensures Leads(DRAFTED, OpCreateEntry(ADMIN_CALL, 1, BOOK_A),
            Team(map[1 := Sheet(9.0, DRAFT)], [ENTRY_A], PROJECTS, 2, 2, 3))
    ensures Leads(Team(map[1 := Sheet(9.0, DRAFT)], [ENTRY_A], PROJECTS, 2, 2, 3),
            OpCreateEntry(ADMIN_CALL, 1, BOOK_B), BOOKED)
  {
    hide Leads, NewEntryRefusal, NewEntry, SheetRows, HoursOf, BillableHoursOf;
    RowsBooked();
    SumOfTwo(ENTRY_A, ENTRY_B);
    BookingsAccepted(DRAFTED, [], 0.0, 1);
    assert [] + [ENTRY_A] == [ENTRY_A];
    Book(DRAFTED, [], BOOK_A, ENTRY_A, 0.0, 9.0);
    var s := Team(map[1 := Sheet(9.0, DRAFT)], [ENTRY_A], PROJECTS, 2, 2, 3);
    BookingsAccepted(s, [ENTRY_A], 9.0, 2);
    assert [ENTRY_A] + [ENTRY_B] == [ENTRY_A, ENTRY_B];
    Book(s, [ENTRY_A], BOOK_B, ENTRY_B, 9.0, 10.0);
  }

  lemma HandedInReachable()
    ensures Reachable(DRAFTED) && Reachable(BOOKED) && Reachable(HANDED_IN)
  {
    RegisterFirst();
    var none := Team(map[], [], map[], 1, 1, 1);
    var one := Team(map[], [], map[1 := PROJECT_A], 1, 1, 2);
    var two := Team(map[], [], PROJECTS, 1, 1, 3);
    var alpha, beta := ProjectInput("A", "Alpha", None, None, [], []), ProjectInput("B", "Beta", None, None, [], []);
    assert !CodeTaken(one.ledger, 1, "B", None) by { assert "A"[0] != "B"[0]; }
    assert map[][1 := PROJECT_A] == map[1 := PROJECT_A] && map[1 := PROJECT_A][2 := PROJECT_B] == PROJECTS;
    Hire();
    AddProject(none, one, alpha, PROJECT_A);
    AddProject(one, two, beta, PROJECT_B);
    Draft();
    BookTwice();
    HandIn();
    hide Leads, Reachable;
    ReachOn(ALONE, OpCreateUser(ADMIN_CALL, "d@b.c", Some(ADMIN), [], []), none);
    ReachOn(none, OpCreateProject(ADMIN_CALL, alpha), one);
    ReachOn(one, OpCreateProject(ADMIN_CALL, beta), two);
    ReachOn(two, OpCreateTimesheet(ADMIN_CALL, 4, 0), DRAFTED);
    var s := Team(map[1 := Sheet(9.0, DRAFT)], [ENTRY_A], PROJECTS, 2, 2, 3);
    ReachOn(DRAFTED, OpCreateEntry(ADMIN_CALL, 1, BOOK_A), s);
    ReachOn(s, OpCreateEntry(ADMIN_CALL, 1, BOOK_B), BOOKED);
    ReachOn(BOOKED, OpSubmit(ADMIN_CALL, 1), HANDED_IN);
  }

  // ---- What happens from there ----

  lemma HandedInSound()
    ensures Reachable(HANDED_IN) && AddsUp(HANDED_IN.ledger) && UsedExact(HANDED_IN.ledger)
  {
    HandedInReachable();
    hide Reachable, AddsUp, UsedExact;
    SoundIfReachable(HANDED_IN);
  }

  lemma SoundIfReachable(s: State)
    requires Reachable(s)
    ensures AddsUp(s.ledger) && UsedExact(s.ledger)
  {
    var states, ops :| EndsIn(states, ops, s);
    hide IsRun, AddsUp, UsedExact, EdgesOk;
    ReachableSound(states, ops, |ops|);
  }

  const ON_ALPHA := Report.Filters(Midnight(0), Midnight(30), None, None, Some(1))

  /** A report filtered by project: its total is ten hours, the entries it lists have nine. */
  lemma FilterHidesHours()
    ensures Reachable(HANDED_IN) && Report.IsListing([1], HANDED_IN.ledger)
    ensures var r := Report.GenerateReport(HANDED_IN, [1], ON_ALPHA, ADMIN_CALL);
            r.Report? && r.aggregates.totalHours != Sum(r.rows, Report.ListedHours())
  {
    HandedInSound();
    var l := HANDED_IN.ledger;
    assert Report.IsListing([1], l);
    assert Report.Listed(HANDED_IN, ADMIN_CALL, ON_ALPHA, 1);
    assert ENTRY_B in l.entries && !Report.Shown(ON_ALPHA, ENTRY_B.sheet)(ENTRY_B);
    hide AddsUp, Reachable, Report.GenerateReport, Report.IsListing, Report.Listed, Report.Shown;
    Report.ReportScope(HANDED_IN, [1], ON_ALPHA, ADMIN_CALL);
    var r := Report.GenerateReport(HANDED_IN, [1], ON_ALPHA, ADMIN_CALL);
    var i :| 0 <= i < |r.rows| && r.rows[i].id == 1;
    assert Report.RowIds(r.rows)[i] == 1;
    Report.ListedHoursExactly(HANDED_IN, [1], ON_ALPHA, ADMIN_CALL);
  }

  const NEW_HOLIDAY := Holiday("Reopening", 4, false)

  lemma FifthOfJanuary()
    ensures MonthDay(1970, 1, 5) == 4 && CivilFromDay(4) == Civil(1970, 0, 5)
  {
    assert MonthDay(1970, 1, 5) == 4 by {
      MakeDayWithin(1970, 0, 5);
      assert YearStart(1970) == 0 && DaysBefore(1970, 0) == 0;
    }
    CivilToDayToCivil(Civil(1970, 0, 5));
  }

  lemma OneSheet(sheet: MonthSheet, n: int)
    ensures HoursOn([sheet], n) == SheetHoursOn(sheet)(n)
  {
    hide SheetHits, HitHours, Sum;
    var sheets := [sheet];
    assert sheets[..0] == [] && Hits([], n) == [];
    assert Hits(sheets, n) == Hits(sheets[..0], n) + SheetHits(sheets[0], n) == SheetHits(sheet, n);
  }

  /** The timesheet as the monthly report reads it. */
  function MondaySheets(): seq<MonthSheet> {
    ReadSheets(HANDED_IN.ledger, [1])
  }

  lemma MondaySheet() returns (sheet: MonthSheet, a: MonthEntry, b: MonthEntry)
    ensures MondaySheets() == [sheet] && sheet.entries == [a, b] && a.hours[0] == 9.0 && b.hours[0] == 1.0
    ensures NoNegativeHours(sheet) && Anchor(sheet.weekStart) == 4
  {
    var l := HANDED_IN.ledger;
    sheet, a, b := ReadSheet(l, 1), ReadEntry(l, ENTRY_A), ReadEntry(l, ENTRY_B);
    SumOfTwo(ENTRY_A, ENTRY_B);
    MidnightAnchor(4);
    hide SheetRows, Anchor;
    assert sheet.entries == [a, b];
  }

  lemma TenHoursOnMonday()
    ensures HoursOn(MondaySheets(), 4) == 10.0
  {
    hide MondaySheets, Anchor, DayKey, SheetHits, HitHours, SheetHoursOn, HoursOn, NoNegativeHours;
    var sheet, a, b := MondaySheet();
    SheetHoursLaw(sheet, 4);
    assert [] + [a] == [a] && [a] + [b] == [a, b];
    SumSnoc([], a, Column(0));
    SumSnoc([a], b, Column(0));
    OneSheet(sheet, 4);
  }

  /** The row of that Monday, if it is a holiday. */
  function ReopeningRow(): DayRow {
    RowOf(1970, 1, 5, MondaySheets(), [NEW_HOLIDAY])
  }

  /** It has no time, no total time, and two hours of overtime. */
  lemma OvertimeOnHoliday()
    ensures Reachable(HANDED_IN)
    ensures var r := ReopeningRow(); r.isHoliday && r.time == 0.0 && r.totalTime == 0.0 && r.overtime == 2.0
  {
    hide Reachable, RowOf, MondaySheets, HoursOn, HolidayOn, MonthDay;
    HandedInReachable();
    TenHoursOnMonday();
    FifthOfJanuary();
    ReopeningDay();
    HolidayRow(1970, 1, 5, MondaySheets(), [NEW_HOLIDAY]);
  }

  lemma ReopeningDay()
    ensures HolidayOn([NEW_HOLIDAY], 1970, 1, 5).Some?
  {
    FifthOfJanuary();
    hide CivilFromDay, MonthDay;
    var holidays := [NEW_HOLIDAY];
    assert holidays[|holidays| - 1] == NEW_HOLIDAY;
  }

  lemma HolidayRow(year: int, month: int, d: int, sheets: seq<MonthSheet>, holidays: seq<Holiday>)
    requires HolidayOn(holidays, year, month, d).Some? && HoursOn(sheets, MonthDay(year, month, d)) == 10.0
    ensures var r := RowOf(year, month, d, sheets, holidays);
            r.isHoliday && r.time == 0.0 && r.totalTime == 0.0 && r.overtime == 2.0
  {
    hide Hits, MonthDay, HolidayOn, WeekDay, Pad2, JoinText, ProjectNames, TaskNotes, MonthText, Sum, HitHours,
         HitTimeOff;
  }

  /** Copying that week leaves the half day of time off behind. */
  lemma CopyLosesTimeOff()
    ensures Reachable(HANDED_IN)
    ensures var op := OpCopyWeek(ADMIN_CALL, 11, false, Some(1), None);
            && Legal(HANDED_IN, op) && Apply(HANDED_IN, op).reply == Copied(2, 0)
            && var rows := SheetRows(Apply(HANDED_IN, op).state.ledger.entries, 2);
               |rows| == 2 && !SameContent(rows[0], ENTRY_A) && SameContent(rows[1], ENTRY_B)
  {
    var op := OpCopyWeek(ADMIN_CALL, 11, false, Some(1), None);
    var source := [ENTRY_A, ENTRY_B];
    assert HANDED_IN.ledger.entries == source && HANDED_IN.ledger.nextEntry == 3;
    hide Reachable, AddsUp, UsedExact, Apply, Legal, SheetRows, Filter, HANDED_IN, StillAssigned;
    HandedInSound();
    CopyReply();
    SumOfTwo(ENTRY_A, ENTRY_B);
    FilterAllAssigned(source);
    CopyLaws.CopyWeekLaw(HANDED_IN, op);
    CopiesAgree(source);
  }

  lemma FilterAllAssigned(source: seq<Entry>)
    ensures Filter(source, StillAssigned(HANDED_IN, ADMIN_CALL)) == source
  {
    FilterAll(source, StillAssigned(HANDED_IN, ADMIN_CALL));
  }

  lemma CopyReply()
    ensures var op := OpCopyWeek(ADMIN_CALL, 11, false, Some(1), None);
            Legal(HANDED_IN, op) && Apply(HANDED_IN, op).reply == Copied(2, 0)
  {
    var source := [ENTRY_A, ENTRY_B];
    assert HANDED_IN.ledger.entries == source;
    SumOfTwo(ENTRY_A, ENTRY_B);
    FilterAllAssigned(source);
    hide WriteCopies, SheetRows, Filter, StillAssigned;
  }

  lemma CopiesAgree(source: seq<Entry>)
    requires source == [ENTRY_A, ENTRY_B]
    ensures var rows := Copies(source, 2, 3); !SameContent(rows[0], ENTRY_A) && SameContent(rows[1], ENTRY_B)
  {
    assert Copies(source, 2, 3)[0].timeOff[1] == 0.0 && ENTRY_A.timeOff[1] == 4.0;
  }

  /** Once approved, a second status write whose checks ran before the first one leads to hours counted twice. */
  lemma HoursChargedTwice() returns (sys: System)
    ensures SystemReachable(sys) && sys.procs == [Loading(1)] && 1 in sys.db.ledger.timesheets
    ensures !Accounted(LateCommit(sys, 1, 2, 0))
    ensures Refusal(HANDED_IN, SECOND_CALL, 1).None?
  {
    hide SystemReachable, Accounted, LateCommit, SystemOk, Refusal, SheetRows;
    sys := ApprovalUnderWay();
    CommitHappens();
    RepeatedApprovalExactly(sys, 1, 2, 0);
  }

  lemma CommitHappens()
    ensures Refusal(HANDED_IN, SECOND_CALL, 1).None?
    ensures var start, ev := System(HANDED_IN, []), Commit(SECOND_CALL, 1, 0);
            && CanHappen(start, Whole(ev)) && Enabled(start, ev) && StepTorn(start, Whole(ev)) == Step(start, ev)
            && var sys := Step(start, ev);
               && sys.db.ledger.entries == [ENTRY_A, ENTRY_B] && sys.db.ledger.projects == PROJECTS
               && 1 in sys.db.ledger.timesheets && sys.db.ledger.timesheets[1].status == APPROVED
               && sys.procs == [Loading(1)]
  {
  }

  lemma StartOk()
    ensures SystemOk(System(HANDED_IN, []))
  {
    HandedInSound();
    hide AddsUp, Reachable;
  }

  lemma NineOnAlpha()
    ensures Sum(SheetRows([ENTRY_A, ENTRY_B], 1), OnProject(1)) == 9.0
  {
    SumOfTwo(ENTRY_A, ENTRY_B);
    hide SheetRows;
    assert [] + [ENTRY_A] == [ENTRY_A] && [ENTRY_A] + [ENTRY_B] == [ENTRY_A, ENTRY_B];
    SumSnoc([], ENTRY_A, OnProject(1));
    SumSnoc([ENTRY_A], ENTRY_B, OnProject(1));
  }

  // ---- Late rejections and entry writes ----

  /** While that approval is under way, a rejection that comes late leaves hours charged for a rejected timesheet. */
  lemma HoursChargedForRejected() returns (sys: System)
    ensures SystemReachable(sys) && 1 in sys.db.ledger.timesheets && !Accounted(LateReject(sys, 1, "too many hours"))
  {
    hide SystemReachable, Accounted, LateReject, LateCommit, SystemOk, Refusal, SheetRows;
    sys := ApprovalUnderWay();
    LateRejectionExactly(sys, 1, "too many hours");
  }

  /** The approval of the timesheet after its status write. */
  lemma ApprovalUnderWay() returns (sys: System)
    ensures SystemReachable(sys) && SystemOk(sys) && Accounted(sys) && sys.procs == [Loading(1)]
    ensures sys.db.ledger.entries == [ENTRY_A, ENTRY_B] && sys.db.ledger.projects == PROJECTS
    ensures 1 in sys.db.ledger.timesheets && sys.db.ledger.timesheets[1].status == APPROVED
    ensures Sum(SheetRows(sys.db.ledger.entries, 1), OnProject(1)) == 9.0
  {
    hide SystemReachable, AddsUp, UsedExact, Accounted, StepTorn, CanHappen, Step, Enabled, Reachable;
    HandedInSound();
    ReachableSystem(HANDED_IN);
    StartOk();
    CommitHappens();
    var start := System(HANDED_IN, []);
    sys := Step(start, Commit(SECOND_CALL, 1, 0));
    CommitKeeps(start, SECOND_CALL, 1, 0);
    SystemReach(start, Whole(Commit(SECOND_CALL, 1, 0)));
    NineOnAlpha();
  }

  const ENTRY_C := Entry(3, 1, 1, true, [0.0, 1.0, 0.0, 0.0, 0.0, 0.0, 0.0], NO_NOTES, NO_HOURS, 1.0)

  /** Once the approval has read the entries, a new one that comes late is approved without being charged. */
  lemma HoursNeverCharged() returns (sys: System)
    ensures SystemReachable(sys) && 1 in sys.db.ledger.timesheets
    ensures !Accounted(LateEntries(sys, sys.db.ledger.entries + [ENTRY_C]))
  {
    hide SystemReachable, Accounted, SystemOk, SheetRows, StepTorn, CanHappen, LateEntries;
    var before := ApprovalUnderWay();
    LoadHappens(before);
    sys := StepTorn(before, Whole(Load(0)));
    SystemReach(before, Whole(Load(0)));
    SoundSystem(sys);
    var entries := [ENTRY_A, ENTRY_B];
    hide TornSystemOk;
    TornIsAccounted(sys);
    AppendElsewhere(entries, [ENTRY_C], 1);
    OneMoreHour(entries);
    LateEntriesExactly(sys, 1, entries + [ENTRY_C]);
  }

  lemma LoadHappens(sys: System)
    requires sys.procs == [Loading(1)]
    ensures CanHappen(sys, Whole(Load(0)))
    ensures var sys' := StepTorn(sys, Whole(Load(0))); sys'.db == sys.db && Sum(sys'.procs, StillToRead(1)) == 0.0
  {
    var procs := StepTorn(sys, Whole(Load(0))).procs;
    assert procs == [] + [procs[0]] && procs[0].Adding?;
    hide SheetRows;
    SumSnoc([], procs[0], StillToRead(1));
  }

  lemma TornIsAccounted(sys: System)
    requires TornSystemOk(sys)
    ensures Accounted(sys)
  {
    hide TornSystemOk, ApprovedHours, Owed;
    forall p | p in sys.db.ledger.projects
      ensures sys.db.ledger.projects[p].usedHours + Owed(sys, p) == ApprovedHours(sys.db.ledger, p)
    {
      TornAccount(sys, p);
    }
  }

  lemma OneMoreHour(entries: seq<Entry>)
    ensures ProjectHours(entries + [ENTRY_C], 1, 1) == ProjectHours(entries, 1, 1) + 1.0
  {
    FilterConcat(entries, [ENTRY_C], InSheet(1));
    FilterAll([ENTRY_C], InSheet(1));
    SumSnoc(SheetRows(entries, 1), ENTRY_C, OnProject(1));
  }

  // ---- A manager with a report ----

  const LEAD := User(1, "d@b.c", MANAGER, true)
  const MEMBER := User(1, "e@b.c", EMPLOYEE, true)
  const LED := ALONE.(staff := Staff(ALONE.staff.users[2 := LEAD][3 := MEMBER], {(2, 3)}, {}, {}, 4, 2))

  lemma HireLead()
    ensures Leads(ALONE, OpCreateUser(ADMIN_CALL, "d@b.c", Some(MANAGER), [], []),
                  ALONE.(staff := Staff(ALONE.staff.users[2 := LEAD], {}, {}, {}, 3, 2)))
  {
    assert "d@b.c"[0] != "a@b.c"[0];
  }

  lemma HireMember(s: State)
    requires s == ALONE.(staff := Staff(ALONE.staff.users[2 := LEAD], {}, {}, {}, 3, 2))
    ensures Leads(s, OpCreateUser(ADMIN_CALL, "e@b.c", None, [2], []), LED)
  {
    assert "e@b.c"[0] != "a@b.c"[0] && "e@b.c"[0] != "d@b.c"[0];
    assert EdgesTo([2], 3) == {(2, 3)};
    assert WithManagers(AddUser(s.staff, MEMBER), 3, [2]).manages == {(2, 3)};
    hide EdgesTo;
  }

  /** The role write of a demotion, without the removal of edges, leaves an EMPLOYEE who manages someone. */
  lemma DemotedWithReports()
    ensures Reachable(LED) && EdgesOk(LED.staff)
    ensures !EdgesOk(WriteUser(LED.staff, 2, UserUpdate(Some(EMPLOYEE), None, None, None)))
  {
    RegisterFirst();
    var s := ALONE.(staff := Staff(ALONE.staff.users[2 := LEAD], {}, {}, {}, 3, 2));
    HireLead();
    HireMember(s);
    assert EdgesOk(LED.staff);
    assert (2, 3) in LED.staff.manages;
    hide Leads, Reachable, EdgesOk;
    ReachOn(ALONE, OpCreateUser(ADMIN_CALL, "d@b.c", Some(MANAGER), [], []), s);
    ReachOn(s, OpCreateUser(ADMIN_CALL, "e@b.c", None, [2], []), LED);
    RoleWriteExactly(LED.staff, 2, UserUpdate(Some(EMPLOYEE), None, None, None));
  }

  /** After the demotion of the manager, a late assignment gives the EMPLOYEE a report. */
  lemma LateAssignment() returns (s: State)
    ensures Reachable(s) && EdgesOk(s.staff) && 3 in s.staff.users && !EdgesOk(WithManagers(s.staff, 3, [2]))
    ensures ManagersRefused(LED.staff, 3, [2], 1).None?
  {
    DemotedWithReports();
    s := ALONE.(staff := Staff(ALONE.staff.users[2 := LEAD.(role := EMPLOYEE)][3 := MEMBER], {}, {}, {}, 4, 2));
    Demote(s);
    assert ManagersRefused(LED.staff, 3, [2], 1).None?;
    hide Leads, Reachable, ManagersRefused;
    ReachOn(LED, OpUpdateUser(ADMIN_CALL, 2, DEMOTION), s);
    LateManagersExactly(s.staff, 3, [2]);
  }

  const DEMOTION := UserUpdate(Some(EMPLOYEE), None, None, None)

  lemma Demote(s: State)
    requires s == ALONE.(staff := Staff(ALONE.staff.users[2 := LEAD.(role := EMPLOYEE)][3 := MEMBER], {}, {}, {}, 4, 2))
    ensures Leads(LED, OpUpdateUser(ADMIN_CALL, 2, DEMOTION), s)
  {
    assert LED.staff.users[2 := LEAD.(role := EMPLOYEE)] == s.staff.users;
    assert (set e: (int, int) | e in LED.staff.manages && e.0 != 2) == {};
  }

  // ---- Managers in the place of administrators ----

  const LEAD_CALL := Caller(2, 1, MANAGER)
  const NO_UPDATE := UserUpdate(None, None, None, None)
  const GAMMA := ProjectInput("C", "Gamma", None, None, [], [])
  const LED_PROJECT := LED.(
    ledger := LED.ledger.(projects := map[1 := Project(1, "C", "Gamma", true, 0.0, 0.0)], nextProject := 2),
    staff := LED.staff.(projectManagers := {(1, 2)}))

  /** In these states the manager's call succeeds. */
  lemma ManagerSucceeds()
    ensures Reachable(LED) && Reachable(LED_PROJECT)
    ensures Succeeds(LED, OpCreateUser(LEAD_CALL, "f@b.c", None, [], []))
    ensures Succeeds(LED, OpUpdateUser(LEAD_CALL, 3, NO_UPDATE)) && Succeeds(LED, OpDeactivateUser(LEAD_CALL, 3))
    ensures Succeeds(LED, OpCreateProject(LEAD_CALL, GAMMA))
    ensures Succeeds(LED_PROJECT, OpUpdateProject(LEAD_CALL, 1, NO_CHANGE))
            && Succeeds(LED_PROJECT, OpDeleteProject(LEAD_CALL, 1))
  {
    DemotedWithReports();
    LeadCreatesUser();
    LeadKeepsUser();
    LeadCreatesProject();
    LeadKeepsProject();
    hide Leads, Succeeds, Reachable, EdgesOk;
    ReachOn(LED, OpCreateProject(LEAD_CALL, GAMMA), LED_PROJECT);
  }

  predicate Succeeds(s: State, op: Op) {
    Legal(s, op) && !Apply(s, op).reply.Failed?
  }

  lemma LeadCreatesUser()
    ensures Succeeds(LED, OpCreateUser(LEAD_CALL, "f@b.c", None, [], []))
  {
    assert "f@b.c"[0] != "a@b.c"[0] && "f@b.c"[0] != "d@b.c"[0] && "f@b.c"[0] != "e@b.c"[0];
    hide WithManagers;
  }

  lemma LeadKeepsUser()
    ensures Succeeds(LED, OpUpdateUser(LEAD_CALL, 3, NO_UPDATE)) && Succeeds(LED, OpDeactivateUser(LEAD_CALL, 3))
  {
    assert (2, 3) in LED.staff.manages;
  }

  lemma LeadCreatesProject()
    ensures Succeeds(LED, OpCreateProject(LEAD_CALL, GAMMA))
            && Leads(LED, OpCreateProject(LEAD_CALL, GAMMA), LED_PROJECT)
  {
    assert Without([], 2) == [] && [2] + [] == [2];
    assert EdgesFrom(1, [2]) == {(1, 2)} && EdgesFrom(1, []) == {};
    assert (set e: (int, int) | e in LED.staff.projectManagers && e.0 != 1) == {};
    assert (set e: (int, int) | e in LED.staff.assignments && e.0 != 1) == {};
    hide EdgesFrom, Without;
  }

  lemma LeadKeepsProject()
    ensures Succeeds(LED_PROJECT, OpUpdateProject(LEAD_CALL, 1, NO_CHANGE))
            && Succeeds(LED_PROJECT, OpDeleteProject(LEAD_CALL, 1))
  {
  }

  /** Only administrators' calls of this kind ever succeed. */
  ghost predicate ForAdministrators(kind: StaffKind) {
    forall s, op | Reachable(s) && KindOf(op) == Some(kind) && Succeeds(s, op) :: op.c.role == ADMIN
  }

  /** Of the operations on users, projects and settings, exactly two are for administrators only. */
  lemma ForAdministratorsExactly(kind: StaffKind)
    ensures ForAdministrators(kind) <==> kind == SettingsKind || kind == ManagersKind
  {
    ManagerSucceeds();
    hide Reachable, Legal, Apply;
    if kind == SettingsKind || kind == ManagersKind {
      forall s, op | Reachable(s) && KindOf(op) == Some(kind) && Succeeds(s, op) ensures op.c.role == ADMIN {
        if op.c.role != ADMIN {
          RoleNeeded(s, op);
        }
      }
    } else {
      var s, op := ManagersCall(kind);
      assert KindOf(op) == Some(kind) && Succeeds(s, op);
    }
  }

  lemma ManagersCall(kind: StaffKind) returns (s: State, op: Op)
    requires kind != SettingsKind && kind != ManagersKind
    ensures Reachable(s) && KindOf(op) == Some(kind) && Succeeds(s, op) && op.c == LEAD_CALL
  {
    hide Reachable, Succeeds;
    ManagerSucceeds();
    match kind
    case CreateUserKind => s, op := LED, OpCreateUser(LEAD_CALL, "f@b.c", None, [], []);
    case UpdateUserKind => s, op := LED, OpUpdateUser(LEAD_CALL, 3, NO_UPDATE);
    case DeactivateKind => s, op := LED, OpDeactivateUser(LEAD_CALL, 3);
    case CreateProjectKind => s, op := LED, OpCreateProject(LEAD_CALL, GAMMA);
    case UpdateProjectKind => s, op := LED_PROJECT, OpUpdateProject(LEAD_CALL, 1, NO_CHANGE);
    case DeleteProjectKind => s, op := LED_PROJECT, OpDeleteProject(LEAD_CALL, 1);
  }

  // ---- An approved timesheet whose stored totals are wrong for good ----

  const UNCOUNTED := Team(map[1 := Sheet(0.0, DRAFT)], [ENTRY_A], PROJECTS, 2, 2, 3)
  const UNCOUNTED_IN := Team(map[1 := Sheet(0.0, SUBMITTED)], [ENTRY_A], PROJECTS, 2, 2, 3)

  lemma TornBooking()
    ensures var sys := System(DRAFTED, []); var ev := EntryWrite(OpCreateEntry(ADMIN_CALL, 1, BOOK_A));
            CanHappen(sys, ev) && StepTorn(sys, ev) == System(UNCOUNTED, [])
  {
    RowsBooked();
    BookingsAccepted(DRAFTED, [], 0.0, 1);
    assert [] + [ENTRY_A] == [ENTRY_A];
    hide NewEntryRefusal, NewEntry, SheetRows, HoursOf, BillableHoursOf;
  }

  lemma TornHandIn()
    ensures var sys := System(UNCOUNTED, []); var ev := Whole(Request(OpSubmit(ADMIN_CALL, 1)));
            CanHappen(sys, ev) && StepTorn(sys, ev) == System(UNCOUNTED_IN, [])
  {
    assert map[1 := Sheet(0.0, DRAFT)][1 := Sheet(0.0, SUBMITTED)] == map[1 := Sheet(0.0, SUBMITTED)];
  }

  lemma TornApproval()
    ensures var sys := System(UNCOUNTED_IN, []); var ev := Whole(Commit(SECOND_CALL, 1, 0));
            && CanHappen(sys, ev)
            && var l := StepTorn(sys, ev).db.ledger;
               1 in l.timesheets && l.entries == [ENTRY_A]
               && l.timesheets[1].status == APPROVED && l.timesheets[1].totalHours == 0.0
  {
  }

  /**
   If the server stops between an entry write and its recalculation, a timesheet can be approved with
   stale totals.
   */
  lemma ApprovedWithStaleTotals() returns (sys: System)
    ensures SystemReachable(sys) && TornSystemOk(sys)
    ensures 1 in sys.db.ledger.timesheets && sys.db.ledger.timesheets[1].status == APPROVED && Stale(sys.db.ledger, 1)
  {
    HandedInReachable();
    hide Reachable;
    ReachableSystem(DRAFTED);
    TornBooking();
    TornHandIn();
    TornApproval();
    SumOfTwo(ENTRY_A, ENTRY_A);
    var write := EntryWrite(OpCreateEntry(ADMIN_CALL, 1, BOOK_A));
    var handIn, approve := Whole(Request(OpSubmit(ADMIN_CALL, 1))), Whole(Commit(SECOND_CALL, 1, 0));
    sys := StepTorn(System(UNCOUNTED_IN, []), approve);
    hide CanHappen, StepTorn, SystemReachable, SheetRows, HoursOf, TornSystemOk;
    SystemReach(System(DRAFTED, []), write);
    SystemReach(System(UNCOUNTED, []), handIn);
    SystemReach(System(UNCOUNTED_IN, []), approve);
    SoundSystem(sys);
  }

  lemma ReachableSystem(s: State)
    requires Reachable(s)
    ensures SystemReachable(System(s, []))
  {
    hide SystemReachable;
  }

  lemma SoundSystem(sys: System)
    requires SystemReachable(sys)
    ensures TornSystemOk(sys)
  {
    var systems, events :| ComesTo(systems, events, sys);
    hide IsTornSchedule, TornSystemOk;
    TornScheduleSound(systems, events, |events|);
  }

  // ---- The years 0 to 99 ----

  /** A holiday on 5 March 1925 is not found by the monthly timesheet of March "25", whose days are those of 1925. */
  lemma HolidayOf1925Missed()
    ensures var h := Holiday("Founding day", MonthDay(25, 3, 5), false);
            FallsOnDay(h, MonthDay(25, 3, 5)) && !FallsOn(h, 25, 3, 5)
  {
    DaysInMonthLaw(25, 3);
    hide DaysInMonth, MonthDay, CivilFromDay, MonthIx;
    MonthDayCivil(25, 3, 5);
    MonthIxExactly(25, 3);
  }

  /** The first days of a year from 0 to 99 and of the year nineteen centuries later have the same label. */
  lemma LabelsCollide(y: int)
    requires 0 <= y <= 99
    ensures var a, b := MakeDay(1900 + y, 0, 1), MakeDay(y, 0, 1);
            WeekLabel.ToWeekLabel(a) == WeekLabel.ToWeekLabel(b) && !WeekLabel.SameWeek(b, a)
  {
    var a, b := MakeDay(1900 + y, 0, 1), MakeDay(y, 0, 1);
    CivilToDayToCivil(Civil(1900 + y, 0, 1));
    CivilToDayToCivil(Civil(y, 0, 1));
    assert YearFromDay(a) == CivilFromDay(a).year && YearFromDay(b) == CivilFromDay(b).year;
    hide CivilFromDay, YearFromDay, MakeDay, WeekLabel.ToWeekLabel, WeekLabel.SameWeek;
    WeekLabel.ReadPlain(a);
    assert WeekLabel.AsRead(b) == a;
    hide WeekLabel.AsRead;
    WeekLabel.SameLabelAsRead(a, b);
    WeekLabel.Reflexive(a);
    WeekLabel.CenturiesApart(b, a);
  }
}
