/**
 Entry operations statement by statement. createEntry, updateEntry and deleteEntry write the entry
 first and recalculate the timesheet's totals afterwards, with no transaction around the two: other
 calls run in between, and the server may stop. So stored totals can be stale. No operation looks at
 them, which is why everything else stays right.
 */
module TornWrites {
  import opened Rows
  import opened Schema
  import opened Timesheets
  import opened Approvals
  import opened LedgerLaws
  import opened Operations
  import opened StoredSums
  import opened Interleaving

  // ---- Systems: processes, entry writes without their recalculation, late recalculations ----

  datatype TornEvent =
    | Whole(ev: Event)          // an event of the interleaving of approvals, whole operations included
    | EntryWrite(op: Op)        // the entry write of an entry operation, its recalculation not (yet) made
    | LateRecalculation(id: int)

  predicate IsEntryOp(op: Op) {
    op.OpCreateEntry? || op.OpUpdateEntry? || op.OpDeleteEntry?
  }

  predicate Writes(s: State, op: Op) {
    IsEntryOp(op) && Legal(s, op) && !Apply(s, op).reply.Failed?
  }

  predicate CanHappen(sys: System, ev: TornEvent) {
    match ev
    case Whole(e) => Enabled(sys, e)
    case EntryWrite(op) => Writes(sys.db, op)
    case LateRecalculation(id) => id in sys.db.ledger.timesheets
  }

  /** The ledger after the entry write alone. */
  function RowWrite(s: State, op: Op): Ledger
    requires Writes(s, op)
  {
    var l := s.ledger;
    match op
    case OpCreateEntry(_, id, dto) =>
        l.(entries := l.entries + [NewEntry(l.nextEntry, id, dto)], nextEntry := l.nextEntry + 1)
    case OpUpdateEntry(_, id, entryId, dto) =>
      var at := FindEntry(l.entries, entryId, id).value;
      Splice(l, at, [MergeEntry(l.entries[at], dto)])
    case OpDeleteEntry(_, id, entryId) => Splice(l, FindEntry(l.entries, entryId, id).value, [])
  }

  /** The whole operation is the entry write and then the recalculation. */
  lemma WholeIsWriteThenRecalculate(s: State, op: Op)
    requires Writes(s, op)
    ensures op.id in RowWrite(s, op).timesheets && op.id in s.ledger.timesheets
    ensures Apply(s, op).state == s.(ledger := Recalculate(RowWrite(s, op), op.id))
  {
    hide SchemaAccepts, Blank, Or, MergeEntry, NewEntry, Recalculate, SheetRows;
  }

  function StepTorn(sys: System, ev: TornEvent): System
    requires CanHappen(sys, ev)
  {
    match ev
    case Whole(e) => Step(sys, e)
    case EntryWrite(op) => sys.(db := sys.db.(ledger := RowWrite(sys.db, op)))
    case LateRecalculation(id) => sys.(db := sys.db.(ledger := Recalculate(sys.db.ledger, id)))
  }

  predicate SameSystem(sys: System, sys': System) {
    sys'.procs == sys.procs && SameState(sys.db, sys'.db, true)
  }

  function RefreshedSystem(sys: System): System {
    sys.(db := Refreshed(sys.db))
  }

  /** The account of hours and everything else that does not speak of stored timesheet totals. */
  ghost predicate TornSystemOk(sys: System) {
    SystemOk(RefreshedSystem(sys))
  }

  lemma RefreshedSystemSame(sys: System)
    ensures SameSystem(sys, RefreshedSystem(sys))
  {
    RefreshDiffersInSums(sys.db.ledger);
    hide Refresh, SameButSums;
  }

  lemma SameSystemsRefresh(sys: System, sys': System)
    requires SameSystem(sys, sys')
    ensures RefreshedSystem(sys) == RefreshedSystem(sys')
  {
    RefreshSame(sys.db.ledger, sys'.db.ledger);
    hide Refresh, SameSheets;
  }

  lemma SoundIsFresh(sys: System)
    requires SystemOk(sys)
    ensures RefreshedSystem(sys) == sys
  {
    RefreshFixed(sys.db.ledger);
    hide Refresh, SheetsOk;
  }

  /** The events of the interleaving do not look at stored totals either. */
  lemma EnabledIgnoresSums(sys: System, sys': System, ev: Event)
    requires SameSystem(sys, sys')
    ensures Enabled(sys, ev) == Enabled(sys', ev)
  {
    match ev
    case Request(op) => hide Legal, SameState; LegalIgnoresSums(sys.db, sys'.db, op, true);
    case Commit(c, id, _) =>
      assert Authentic(sys.db, c) == Authentic(sys'.db, c);
      hide SameState, Authentic;
      RefusalIgnoresSums(sys.db, sys'.db, c, id, true);
    case _ =>
  }

  lemma StepIgnoresSums(sys: System, sys': System, ev: Event)
    requires SameSystem(sys, sys') && Enabled(sys, ev) && Enabled(sys', ev)
    ensures SameSystem(Step(sys, ev), Step(sys', ev))
  {
    match ev
    case Request(op) => hide Apply, Legal, SameState; ApplyIgnoresSums(sys.db, sys'.db, op, true);
    case Commit(c, id, now) =>
      hide Refusal, SameSheets;
      var b, b' := sys.db.ledger, sys'.db.ledger;
      CommitIgnoresSums(b, b', id, c.user, now, true);
    case Increment(i) => hide SameSheets, AddHours;
    case _ => hide SameSheets, SheetRows;
  }

  lemma WholeKeepsTorn(sys: System, ev: Event)
    requires TornSystemOk(sys) && Enabled(sys, ev)
    ensures TornSystemOk(Step(sys, ev))
  {
    hide *;
    hide TornSystemOk;
    FromTorn(sys);
    var fresh' := RefreshedSystem(sys);
    RefreshedSystemSame(sys);
    EnabledIgnoresSums(sys, fresh', ev);
    StepIgnoresSums(sys, fresh', ev);
    StepKeepsSystem(fresh', ev);
    SoundIsFresh(Step(fresh', ev));
    SameSystemsRefresh(Step(sys, ev), Step(fresh', ev));
    ToTorn(Step(sys, ev));
  }

  lemma FromTorn(sys: System)
    requires TornSystemOk(sys)
    ensures SystemOk(RefreshedSystem(sys))
  {
    hide SystemOk, RefreshedSystem;
  }

  lemma ToTorn(sys: System)
    requires SystemOk(RefreshedSystem(sys))
    ensures TornSystemOk(sys)
  {
    hide SystemOk, RefreshedSystem;
  }

  lemma WriteIsWholeButSums(sys: System, op: Op) returns (whole: System)
    requires Writes(sys.db, op)
    ensures Enabled(sys, Request(op)) && whole == Step(sys, Request(op))
    ensures SameSystem(StepTorn(sys, EntryWrite(op)), whole)
  {
    hide Apply, Legal, RowWrite, Recalculate, SameSheets;
    whole := Step(sys, Request(op));
    WholeIsWriteThenRecalculate(sys.db, op);
    RecalculateDiffersInSums(RowWrite(sys.db, op), op.id);
  }

  lemma EntryWriteKeepsTorn(sys: System, op: Op)
    requires TornSystemOk(sys) && Writes(sys.db, op)
    ensures TornSystemOk(StepTorn(sys, EntryWrite(op)))
  {
    hide TornSystemOk, Apply, Legal, SameSystem, RefreshedSystem, RowWrite, Recalculate, SameSheets, Step, StepTorn;
    var whole := WriteIsWholeButSums(sys, op);
    WholeKeepsTorn(sys, Request(op));
    FromTorn(whole);
    SameSystemsRefresh(StepTorn(sys, EntryWrite(op)), whole);
    ToTorn(StepTorn(sys, EntryWrite(op)));
  }

  lemma RecalculationKeepsTorn(sys: System, id: int)
    requires TornSystemOk(sys) && id in sys.db.ledger.timesheets
    ensures TornSystemOk(StepTorn(sys, LateRecalculation(id)))
  {
    RecalculateDiffersInSums(sys.db.ledger, id);
    hide Recalculate, SystemOk, SameSheets;
    SameSystemsRefresh(sys, StepTorn(sys, LateRecalculation(id)));
    hide RefreshedSystem;
  }

  lemma StepKeepsTorn(sys: System, ev: TornEvent)
    requires TornSystemOk(sys) && CanHappen(sys, ev)
    ensures TornSystemOk(StepTorn(sys, ev))
  {
    hide TornSystemOk, Step, Writes, Enabled;
    match ev
    case Whole(e) => WholeKeepsTorn(sys, e);
    case EntryWrite(op) => hide StepTorn; EntryWriteKeepsTorn(sys, op);
    case LateRecalculation(id) => hide StepTorn; RecalculationKeepsTorn(sys, id);
  }

  // ---- What this says of the stored rows ----

  /** Statuses, entries and projects are those of the refreshed ledger, so the account of hours is the stored one. */
  lemma TornAccount(sys: System, p: int)
    requires TornSystemOk(sys) && p in sys.db.ledger.projects
    ensures sys.db.ledger.projects[p].usedHours + Owed(sys, p) == ApprovedHours(sys.db.ledger, p)
    ensures sys.db.ledger.projects[p].usedHours <= ApprovedHours(sys.db.ledger, p)
  {
    var l, fresh' := sys.db.ledger, Refresh(sys.db.ledger);
    RefreshDiffersInSums(l);
    FilterSame(l.entries, InApproved(l.timesheets), InApproved(fresh'.timesheets));
    NeverOverCounts(RefreshedSystem(sys), p);
    hide Refresh, AddsUp;
  }

  /** Entries, their totals and their foreign keys are right, whatever recalculations are missing. */
  lemma TornEntries(sys: System)
    requires TornSystemOk(sys)
    ensures EntriesOk(sys.db.ledger)
  {
    var l, fresh' := sys.db.ledger, Refresh(sys.db.ledger);
    RefreshDiffersInSums(l);
    assert EntriesOk(fresh');
    hide Refresh, SystemOk;
    forall e | e in l.entries ensures EntryOk(l, e) {
      assert EntryOk(fresh', e);
    }
  }

  ghost predicate IsTornSchedule(systems: seq<System>, events: seq<TornEvent>) {
    && |systems| == |events| + 1 && systems[0] == System(EMPTY_STATE, [])
    && forall i | 0 <= i < |events| :: CanHappen(systems[i], events[i])
        && systems[i + 1] == StepTorn(systems[i], events[i])
  }

  lemma TornStepOf(systems: seq<System>, events: seq<TornEvent>, k: nat)
    requires IsTornSchedule(systems, events) && k < |events|
    ensures |systems| == |events| + 1 && CanHappen(systems[k], events[k])
            && systems[k + 1] == StepTorn(systems[k], events[k])
  {
    hide CanHappen, StepTorn;
  }

  lemma TornStart()
    ensures TornSystemOk(System(EMPTY_STATE, []))
  {
    var sys := System(EMPTY_STATE, []);
    var none: map<int, Timesheet> := map[];
    assert Refresh(EMPTY_STATE.ledger).timesheets == none;
  }

  /**
   Under any interleaving of approvals with other operations, with crashes between any two statements
   and with the recalculations of entry operations late or missing: everything but stored timesheet
   totals is right.
   */
  lemma {:induction false} TornScheduleSound(systems: seq<System>, events: seq<TornEvent>, i: nat)
    requires IsTornSchedule(systems, events) && i < |systems|
    ensures TornSystemOk(systems[i])
    decreases i
  {
    if i > 0 {
      hide *;
      hide TornSystemOk, IsTornSchedule;
      TornStepOf(systems, events, i - 1);
      TornScheduleSound(systems, events, i - 1);
      StepKeepsTorn(systems[i - 1], events[i - 1]);
    } else {
      hide TornSystemOk, CanHappen, StepTorn;
      TornStart();
    }
  }
}
