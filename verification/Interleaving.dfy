/**
 Approval statement by statement. approveTimesheet writes the status, reads the entries and then
 increments one project per entry, with no transaction around it: other calls run in between, and
 the server may stop at any point. Each approval in progress is a process here; every other
 operation of the system, of any user, may run between any two of its statements.

 The read and checks at the head of approveTimesheet and its status write form one step: calls on
 one timesheet are taken to be serialised up to there; `LateWrites` says what is lost without that.
 */
module Interleaving {
  import opened Common
  import opened Rows
  import opened Schema
  import opened Timesheets
  import opened Approvals
  import opened LedgerLaws
  import opened Operations
  import opened SheetLaws

  datatype Process =
    | Loading(sheet: int)                     // status written, entries not yet read
    | Adding(sheet: int, rest: seq<Entry>)    // entries read; those still to be added to their projects
    | Crashed(sheet: int, rest: seq<Entry>)   // gone, with these increments never made

  datatype System = System(db: State, procs: seq<Process>)

  datatype Event =
    | Request(op: Op)                              // any whole operation but an approval
    | Commit(c: Caller, id: int, now: int)         // an approval's checks and status write
    | Load(i: nat)                                 // its read of the entries
    | Increment(i: nat)                            // one project update
    | Crash(i: nat)

  predicate Enabled(sys: System, ev: Event) {
    match ev
    case Request(op) => Legal(sys.db, op) && !op.OpApprove?
    case Commit(c, id, _) => Authentic(sys.db, c) && Refusal(sys.db, c, id).None?
    case Load(i) => i < |sys.procs| && sys.procs[i].Loading?
    case Increment(i) => i < |sys.procs| && sys.procs[i].Adding? && sys.procs[i].rest != []
    case Crash(i) => i < |sys.procs| && !sys.procs[i].Crashed?
  }

  /** The increments a process has not made. */
  function Remaining(entries: seq<Entry>, p: Process): seq<Entry> {
    if p.Loading? then SheetRows(entries, p.sheet) else p.rest
  }

  /** One event; an increment of a project that is gone would throw and end its process. */
  function Step(sys: System, ev: Event): System
    requires Enabled(sys, ev)
  {
    var System(db, procs) := sys;
    match ev
    case Request(op) => System(Apply(db, op).state, procs)
    case Commit(c, id, now) => System(db.(ledger := MarkApproved(db.ledger, id, c.user, now)), procs + [Loading(id)])
    case Load(i) => System(db, procs[i := Adding(procs[i].sheet, SheetRows(db.ledger.entries, procs[i].sheet))])
    case Increment(i) =>
      var Adding(sheet, rest) := procs[i];
      if rest[0].project in db.ledger.projects then
        System(db.(ledger := db.ledger.(projects := AddHours(db.ledger.projects, rest[0]))),
            procs[i := Adding(sheet, rest[1..])])
      else System(db, procs[i := Crashed(sheet, rest)])
    case Crash(i) => System(db, procs[i := Crashed(procs[i].sheet, Remaining(db.ledger.entries, procs[i]))])
  }

  // ---- The account of hours ----

  /** What a process still owes to (or has lost for) project `p`. */
  function Owes(entries: seq<Entry>, p: int): Process -> real {
    (proc: Process) => Sum(Remaining(entries, proc), OnProject(p))
  }

  function Owed(sys: System, p: int): real {
    Sum(sys.procs, Owes(sys.db.ledger.entries, p))
  }

  /** A process works on an approved timesheet and has a tail of its rows to go. */
  ghost predicate ProcessOk(l: Ledger, proc: Process) {
    && proc.sheet in l.timesheets && l.timesheets[proc.sheet].status == APPROVED
    && (!proc.Loading? ==> IsTail(proc.rest, SheetRows(l.entries, proc.sheet)))
  }

  predicate IsTail<T(==)>(tail: seq<T>, whole: seq<T>) {
    |tail| <= |whole| && tail == whole[|whole| - |tail|..]
  }

  /** Used hours plus the increments still to be made, or lost in a crash, are the approved hours. */
  ghost predicate Accounted(sys: System) {
    var l := sys.db.ledger;
    forall p | p in l.projects :: l.projects[p].usedHours + Owed(sys, p) == ApprovedHours(l, p)
  }

  ghost predicate SystemOk(sys: System) {
    && AddsUp(sys.db.ledger)
    && (forall proc | proc in sys.procs :: ProcessOk(sys.db.ledger, proc))
    && Accounted(sys)
  }

  // ---- Steps keep the account ----

  /** Rows a process has to go are rows of the database, on projects that exist. */
  lemma RemainingRows(l: Ledger, proc: Process)
    requires AddsUp(l) && ProcessOk(l, proc)
    ensures forall e | e in Remaining(l.entries, proc) ::
              e in l.entries && e.project in l.projects && e.totalHours >= 0.0
  {
    FilterMembers(l.entries, InSheet(proc.sheet));
    forall e | e in Remaining(l.entries, proc)
      ensures e in l.entries && e.project in l.projects && e.totalHours >= 0.0
    {
      assert e in SheetRows(l.entries, proc.sheet);
      assert EntryOk(l, e);
      ColumnSumBounds(e.hours);
    }
  }

  /** No whole operation but an approval changes which rows are approved. */
  lemma ApprovedRowsStay(s: State, op: Op)
    requires Legal(s, op) && AddsUp(s.ledger) && !op.OpApprove?
    ensures var l' := Apply(s, op).state.ledger; AddsUp(l') && ApprovedRows(l') == ApprovedRows(s.ledger)
  {
    hide Apply, AddsUp;
    if IsStaffOp(op) {
      StaffOpTouchesNoRow(s, op);
      RowsUntouchedSound(s.ledger, Apply(s, op).state.ledger);
    } else {
      SheetOpSound(s, op);
    }
  }

  /** Projects that stay keep their used hours; a new one starts at zero and no row is on it yet. */
  lemma ProjectsMove(s: State, op: Op, p: int)
    requires Legal(s, op) && AddsUp(s.ledger) && !op.OpApprove? && p in Apply(s, op).state.ledger.projects
    ensures var q := Apply(s, op).state.ledger.projects[p];
            if p in s.ledger.projects then q.usedHours == s.ledger.projects[p].usedHours
            else q.usedHours == 0.0 && ApprovedHours(Apply(s, op).state.ledger, p) == 0.0
  {
    hide Apply, AddsUp;
    if IsStaffOp(op) {
      StaffOpTouchesNoRow(s, op);
      RowsUntouchedSound(s.ledger, Apply(s, op).state.ledger);
    } else {
      SheetOpSound(s, op);
    }
  }

  /** Processes work on frozen rows, so whatever else runs, what they have to do stays the same. */
  lemma ProcessesUndisturbed(s: State, op: Op, proc: Process)
    requires Legal(s, op) && AddsUp(s.ledger) && ProcessOk(s.ledger, proc)
    ensures var l' := Apply(s, op).state.ledger;
            ProcessOk(l', proc) && Remaining(l'.entries, proc) == Remaining(s.ledger.entries, proc)
  {
    hide Apply, AddsUp, Legal, SheetRows;
    Frozen(s, op, proc.sheet);
  }

  lemma RequestKeeps(sys: System, op: Op)
    requires SystemOk(sys) && Legal(sys.db, op) && !op.OpApprove?
    ensures SystemOk(Step(sys, Request(op)))
  {
    var sys' := Step(sys, Request(op));
    var l, l' := sys.db.ledger, sys'.db.ledger;
    ApprovedRowsStay(sys.db, op);
    assert sys' == System(Apply(sys.db, op).state, sys.procs);
    hide Step, Apply, AddsUp, Legal, SheetRows;
    forall proc | proc in sys.procs
      ensures ProcessOk(l', proc) && Remaining(l'.entries, proc) == Remaining(l.entries, proc)
    {
      ProcessesUndisturbed(sys.db, op, proc);
    }
    forall p | p in l'.projects ensures l'.projects[p].usedHours + Owed(sys', p) == ApprovedHours(l', p) {
      ProjectsMove(sys.db, op, p);
      SumSame(sys.procs, Owes(l'.entries, p), Owes(l.entries, p));
      if p !in l.projects {
        NothingOwed(sys, p);
      }
    }
  }

  lemma NothingOwed(sys: System, p: int)
    requires AddsUp(sys.db.ledger) && p !in sys.db.ledger.projects
    requires forall proc | proc in sys.procs :: ProcessOk(sys.db.ledger, proc)
    ensures Owed(sys, p) == 0.0
  {
    var entries := sys.db.ledger.entries;
    forall proc | proc in sys.procs ensures Owes(entries, p)(proc) == 0.0 {
      RemainingRows(sys.db.ledger, proc);
      SumZero(Remaining(entries, proc), OnProject(p));
    }
    SumZero(sys.procs, Owes(entries, p));
  }

  lemma CommitKeeps(sys: System, c: Caller, id: int, now: int)
    requires SystemOk(sys) && Enabled(sys, Commit(c, id, now))
    ensures SystemOk(Step(sys, Commit(c, id, now)))
  {
    var sys' := Step(sys, Commit(c, id, now));
    var l, l' := sys.db.ledger, sys'.db.ledger;
    MarkApprovedSound(l, id, c.user, now);
    assert l'.entries == l.entries && l'.projects == l.projects;
    forall proc | proc in sys'.procs ensures ProcessOk(l', proc) {
      assert proc in sys.procs || proc == Loading(id);
    }
    forall p | p in l'.projects ensures l'.projects[p].usedHours + Owed(sys', p) == ApprovedHours(l', p) {
      MarkApprovedMoves(l, id, c.user, now, p);
      SumSnoc(sys.procs, Loading(id), Owes(l.entries, p));
    }
  }

  /** Reading the entries, or crashing, only restates what a process has to go. */
  lemma RestateKeeps(sys: System, ev: Event)
    requires SystemOk(sys) && Enabled(sys, ev) && (ev.Load? || ev.Crash?)
    ensures SystemOk(Step(sys, ev))
  {
    var sys' := Step(sys, ev);
    var l := sys.db.ledger;
    var i := ev.i;
    var after := sys'.procs[i];
    hide AddsUp, SheetRows, OnProject;
    assert Remaining(l.entries, after) == Remaining(l.entries, sys.procs[i]);
    assert ProcessOk(l, sys.procs[i]);
    forall proc | proc in sys'.procs ensures ProcessOk(l, proc) {
      assert proc in sys.procs || proc == after;
    }
    forall p | p in l.projects ensures l.projects[p].usedHours + Owed(sys', p) == ApprovedHours(l, p) {
      SumReplace(sys.procs, i, after, Owes(l.entries, p));
    }
  }

  lemma AddsUpWithProjects(l: Ledger, projects: map<int, Project>)
    requires AddsUp(l) && projects.Keys == l.projects.Keys
    ensures AddsUp(l.(projects := projects)) && ApprovedRows(l.(projects := projects)) == ApprovedRows(l)
  {
    var l' := l.(projects := projects);
    forall e | e in l'.entries ensures EntryOk(l', e) {
      assert EntryOk(l, e);
    }
    assert forall p | p in l'.projects :: p in l.projects;
  }

  /** An increment never fails on a missing project: the approved entries keep their projects in place. */
  lemma IncrementFindsProject(sys: System, i: nat)
    requires SystemOk(sys) && Enabled(sys, Increment(i))
    ensures sys.procs[i].rest[0].project in sys.db.ledger.projects
  {
    assert ProcessOk(sys.db.ledger, sys.procs[i]);
    RemainingRows(sys.db.ledger, sys.procs[i]);
  }

  lemma IncrementKeeps(sys: System, i: nat)
    requires SystemOk(sys) && Enabled(sys, Increment(i))
    ensures SystemOk(Step(sys, Increment(i)))
  {
    IncrementFindsProject(sys, i);
    var sys' := Step(sys, Increment(i));
    var l, l' := sys.db.ledger, sys'.db.ledger;
    var Adding(sheet, rest) := sys.procs[i];
    var after := Adding(sheet, rest[1..]);
    assert sys'.procs == sys.procs[i := after] && l' == l.(projects := AddHours(l.projects, rest[0]));
    assert AddHours(l.projects, rest[0]).Keys == l.projects.Keys;
    hide AddsUp, SheetRows, Step, OnProject, ApprovedRows, AddHours;
    AddsUpWithProjects(l, l'.projects);
    assert ProcessOk(l, sys.procs[i]);
    forall proc | proc in sys'.procs ensures ProcessOk(l', proc) {
      assert proc in sys.procs || proc == after;
    }
    hide ProcessOk, Owed, Owes;
    forall p | p in l'.projects ensures l'.projects[p].usedHours + Owed(sys', p) == ApprovedHours(l', p) {
      IncrementPays(sys, sys', i, p);
    }
  }

  /** What a process no longer owes, its project has been credited with. */
  lemma IncrementPays(sys: System, sys': System, i: nat, p: int)
    requires i < |sys.procs| && sys.procs[i].Adding? && sys.procs[i].rest != []
    requires sys.procs[i].rest[0].project in sys.db.ledger.projects && p in sys.db.ledger.projects
    requires sys'.procs == sys.procs[i := Adding(sys.procs[i].sheet, sys.procs[i].rest[1..])]
    requires sys'.db.ledger == sys.db.ledger.(projects := AddHours(sys.db.ledger.projects, sys.procs[i].rest[0]))
    ensures sys'.db.ledger.projects[p].usedHours + Owed(sys', p) == sys.db.ledger.projects[p].usedHours + Owed(sys, p)
  {
    var rest := sys.procs[i].rest;
    SumReplace(sys.procs, i, sys'.procs[i], Owes(sys.db.ledger.entries, p));
    SumFront(rest, OnProject(p));
  }

  lemma StepKeepsSystem(sys: System, ev: Event)
    requires SystemOk(sys) && Enabled(sys, ev)
    ensures SystemOk(Step(sys, ev))
  {
    match ev
    case Request(op) => hide SystemOk, Step; RequestKeeps(sys, op);
    case Commit(c, id, now) => hide SystemOk, Step; CommitKeeps(sys, c, id, now);
    case Increment(i) => hide SystemOk, Step; IncrementKeeps(sys, i);
    case _ => hide SystemOk, Step; RestateKeeps(sys, ev);
  }

  // ---- Over whole schedules ----

  ghost predicate IsSchedule(systems: seq<System>, events: seq<Event>) {
    && |systems| == |events| + 1 && systems[0] == System(EMPTY_STATE, [])
    && forall i | 0 <= i < |events| :: Enabled(systems[i], events[i]) && systems[i + 1] == Step(systems[i], events[i])
  }

  /** Under any interleaving, with crashes anywhere, every project's hours are accounted for. */
  lemma {:induction false} ScheduleSound(systems: seq<System>, events: seq<Event>, i: nat)
    requires IsSchedule(systems, events) && i < |systems|
    ensures SystemOk(systems[i])
    decreases i
  {
    if i > 0 {
      ScheduleStep(systems, events, i - 1);
      hide *;
      ScheduleSound(systems, events, i - 1);
      StepKeepsSystem(systems[i - 1], events[i - 1]);
    } else {
      ScheduleStart(systems, events);
    }
  }

  lemma ScheduleStep(systems: seq<System>, events: seq<Event>, k: nat)
    requires IsSchedule(systems, events) && k < |events|
    ensures |systems| == |events| + 1
    ensures Enabled(systems[k], events[k]) && systems[k + 1] == Step(systems[k], events[k])
  {
    hide Enabled, Step;
  }

  lemma ScheduleStart(systems: seq<System>, events: seq<Event>)
    requires IsSchedule(systems, events)
    ensures SystemOk(systems[0])
  {
    hide Enabled, Step;
    assert systems[0].procs == [];
  }

  /** So used hours never exceed the approved hours. */
  lemma NeverOverCounts(sys: System, p: int)
    requires SystemOk(sys) && p in sys.db.ledger.projects
    ensures sys.db.ledger.projects[p].usedHours <= ApprovedHours(sys.db.ledger, p)
  {
    var entries := sys.db.ledger.entries;
    forall proc | proc in sys.procs ensures 0.0 <= Owes(entries, p)(proc) {
      RemainingRows(sys.db.ledger, proc);
      SumNonNegative(Remaining(entries, proc), OnProject(p));
    }
    SumNonNegative(sys.procs, Owes(entries, p));
  }

  lemma {:induction false} SumNonNegative<T>(rows: seq<T>, column: T -> real)
    requires forall x | x in rows :: 0.0 <= column(x)
    ensures 0.0 <= Sum(rows, column)
  {
    if rows != [] {
      SumNonNegative(rows[..|rows| - 1], column);
    }
  }

  function IsCrashed(): Process -> bool {
    (proc: Process) => proc.Crashed?
  }

  /** Once every approval has finished or crashed, a project's hours fall short by exactly what crashes lost. */
  lemma QuiescentShortfall(sys: System, p: int)
    requires SystemOk(sys) && p in sys.db.ledger.projects
    requires forall proc | proc in sys.procs :: proc.Crashed? || (proc.Adding? && proc.rest == [])
    ensures sys.db.ledger.projects[p].usedHours
         == ApprovedHours(sys.db.ledger, p) - Sum(Filter(sys.procs, IsCrashed()), Owes(sys.db.ledger.entries, p))
  {
    SumFilter(sys.procs, IsCrashed(), Owes(sys.db.ledger.entries, p));
  }

  /** With no crash, used hours are exact when no approval is in progress. */
  lemma QuiescentExact(sys: System)
    requires SystemOk(sys) && forall proc | proc in sys.procs :: proc.Adding? && proc.rest == []
    ensures UsedExact(sys.db.ledger)
  {
    forall p | p in sys.db.ledger.projects
      ensures sys.db.ledger.projects[p].usedHours == ApprovedHours(sys.db.ledger, p)
    {
      SumZero(sys.procs, Owes(sys.db.ledger.entries, p));
    }
  }

  // ---- The atomic step is an undisturbed approval ----

  /** Increments of process `i` from where it stands to its end, nothing else running. */
  function Drain(sys: System, i: nat): System
    requires i < |sys.procs| && sys.procs[i].Adding?
    decreases |sys.procs[i].rest|
  {
    if sys.procs[i].rest == [] then sys
    else
      var next := Step(sys, Increment(i));
      if next.procs[i].Adding? then Drain(next, i) else next
  }

  lemma {:induction false} DrainAdds(sys: System, i: nat)
    requires i < |sys.procs| && sys.procs[i].Adding?
    requires forall e | e in sys.procs[i].rest :: e.project in sys.db.ledger.projects
    ensures Drain(sys, i).db
         == sys.db.(ledger := sys.db.ledger.(projects := Charge(sys.db.ledger.projects, sys.procs[i].rest)))
    decreases |sys.procs[i].rest|
  {
    var rest := sys.procs[i].rest;
    var projects := sys.db.ledger.projects;
    if rest == [] {
      ChargeNothing(projects);
    } else {
      assert rest[0] in rest && forall e | e in rest[1..] :: e in rest;
      var next := Step(sys, Increment(i));
      assert next.procs[i] == Adding(sys.procs[i].sheet, rest[1..]);
      assert next.db == sys.db.(ledger := sys.db.ledger.(projects := AddHours(projects, rest[0])));
      assert Drain(sys, i) == Drain(next, i);
      hide Step, Charge, Drain;
      DrainAdds(next, i);
      ChargeFront(projects, rest);
    }
  }

  lemma ChargeFront(projects: map<int, Project>, rows: seq<Entry>)
    requires rows != [] && rows[0].project in projects
    ensures Charge(AddHours(projects, rows[0]), rows[1..]) == Charge(projects, rows)
  {
    forall p | p in projects ensures Charge(AddHours(projects, rows[0]), rows[1..])[p] == Charge(projects, rows)[p] {
      SumFront(rows, OnProject(p));
    }
  }

  /** An approval that runs alone does what the one-step ApproveTimesheet says. */
  lemma UndisturbedApproval(s: State, procs: seq<Process>, c: Caller, id: int, now: int)
    requires AddsUp(s.ledger) && Enabled(System(s, procs), Commit(c, id, now))
    ensures var committed := Step(System(s, procs), Commit(c, id, now));
            var loaded := Step(committed, Load(|procs|));
            Drain(loaded, |procs|).db == ApproveTimesheet(s, c, id, now).state
  {
    var committed := Step(System(s, procs), Commit(c, id, now));
    var loaded := Step(committed, Load(|procs|));
    var rows := SheetRows(s.ledger.entries, id);
    FilterMembers(s.ledger.entries, InSheet(id));
    assert loaded.procs[|procs|] == Adding(id, rows);
    forall e | e in rows ensures e.project in s.ledger.projects {
      assert EntryOk(s.ledger, e);
    }
    DrainAdds(loaded, |procs|);
  }
}
