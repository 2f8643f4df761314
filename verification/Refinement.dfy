/**
 Every schedule refines a run. Take an approval's status write and an entry operation's entry write
 for the whole operation, and the other statements for nothing: what is left is a run, and the
 database of the schedule is that of the run in everything but stored sums. So status histories, the
 freeze, the weeks and the manager edges are laws of schedules too.
 */
module Refinement {
  import opened Common
  import opened Schema
  import opened Timesheets
  import opened Approvals
  import opened LedgerLaws
  import opened Operations
  import opened SheetLaws
  import opened StaffLaws
  import opened StoredSums
  import opened Interleaving
  import opened TornWrites
  import opened Runs
  import opened WeekRuns

  /** The whole operation an event stands for, if it is its first write. */
  function RunOp(ev: TornEvent): Option<Op> {
    match ev
    case Whole(Request(op)) => Some(op)
    case Whole(Commit(c, id, now)) => Some(OpApprove(c, id, now))
    case Whole(_) => None
    case EntryWrite(op) => Some(op)
    case LateRecalculation(_) => None
  }

  /** The run's operations: those of the events, in order. */
  function RunOps(events: seq<TornEvent>): seq<Op> {
    if events == [] then []
    else
      var n := |events| - 1;
      var before := RunOps(events[..n]);
      if RunOp(events[n]).Some? then before + [RunOp(events[n]).value] else before
  }

  /** The same database in everything but stored sums. */
  predicate Like(s: State, s': State) {
    SameState(s, s', false)
  }

  lemma LikeTwice(a: State, b: State, c: State)
    requires Like(a, b) && Like(b, c)
    ensures Like(a, c)
  {
    forall t | t in a.ledger.timesheets ensures SameRowButTotals(a.ledger.timesheets[t], c.ledger.timesheets[t]) {
      assert SameRowButTotals(b.ledger.timesheets[t], c.ledger.timesheets[t]);
    }
    forall p | p in a.ledger.projects ensures SameProject(a.ledger.projects[p], c.ledger.projects[p], false) {
      assert SameProject(b.ledger.projects[p], c.ledger.projects[p], false);
    }
  }

  lemma LikeBack(a: State, b: State)
    requires Like(a, b)
    ensures Like(b, a)
  {
  }

  lemma LikeExact(a: State, b: State)
    requires SameState(a, b, true)
    ensures Like(a, b)
  {
  }

  // ---- One event ----

  lemma RequestRefines(db: State, s: State, op: Op)
    requires Like(db, s) && Legal(db, op)
    ensures Legal(s, op) && Like(Apply(db, op).state, Apply(s, op).state)
  {
    hide Apply, Legal, SameState;
    LegalIgnoresSums(db, s, op, false);
    ApplyIgnoresSums(db, s, op, false);
  }

  lemma ChargeOnlyAddsHours(s: State, c: Caller, id: int, now: int)
    requires Refusal(s, c, id).None?
    ensures Like(s.(ledger := MarkApproved(s.ledger, id, c.user, now)), ApproveTimesheet(s, c, id, now).state)
  {
    hide SheetRows, IsDirectReport;
  }

  lemma CommitRefines(sys: System, s: State, c: Caller, id: int, now: int)
    requires Like(sys.db, s) && Enabled(sys, Commit(c, id, now))
    ensures var op := OpApprove(c, id, now);
            Legal(s, op) && Like(Step(sys, Commit(c, id, now)).db, Apply(s, op).state)
  {
    var op := OpApprove(c, id, now);
    assert Legal(sys.db, op) && Apply(sys.db, op) == ApproveTimesheet(sys.db, c, id, now);
    ChargeOnlyAddsHours(sys.db, c, id, now);
    assert Step(sys, Commit(c, id, now)).db == sys.db.(ledger := MarkApproved(sys.db.ledger, id, c.user, now));
    hide Like, Apply, Legal, Step, Enabled, ApproveTimesheet;
    RequestRefines(sys.db, s, op);
    LikeTwice(Step(sys, Commit(c, id, now)).db, Apply(sys.db, op).state, Apply(s, op).state);
  }

  lemma QuietStep(sys: System, ev: Event)
    requires Enabled(sys, ev) && !ev.Request? && !ev.Commit?
    ensures Like(Step(sys, ev).db, sys.db)
  {
    hide SheetRows;
  }

  lemma WriteRefines(db: State, s: State, op: Op)
    requires Like(db, s) && Writes(db, op)
    ensures Legal(s, op) && Like(db.(ledger := RowWrite(db, op)), Apply(s, op).state)
  {
    WholeIsWriteThenRecalculate(db, op);
    RecalculateDiffersInSums(RowWrite(db, op), op.id);
    var after, whole := db.(ledger := RowWrite(db, op)), Apply(db, op).state;
    assert SameState(after, whole, true) by { hide RowWrite, Recalculate, Apply, SameSheets, SameProjects; }
    assert Legal(db, op);
    hide Like, Apply, Legal, RowWrite, Recalculate, Writes, SameState;
    LikeExact(after, whole);
    RequestRefines(db, s, op);
    LikeTwice(after, whole, Apply(s, op).state);
  }

  lemma RecalculationQuiet(s: State, id: int)
    requires id in s.ledger.timesheets
    ensures Like(s.(ledger := Recalculate(s.ledger, id)), s)
  {
    RecalculateDiffersInSums(s.ledger, id);
    hide Recalculate, SameSheets, SameProjects;
    LikeExact(s, s.(ledger := Recalculate(s.ledger, id)));
    LikeBack(s, s.(ledger := Recalculate(s.ledger, id)));
  }

  /** What the run does for an event. */
  ghost predicate Follows(s: State, ev: TornEvent, s': State) {
    match RunOp(ev)
    case Some(op) => Legal(s, op) && s' == Apply(s, op).state
    case None => s' == s
  }

  /** Whatever the event, the run can follow, and stays like the schedule. */
  lemma StepRefines(sys: System, ev: TornEvent, s: State) returns (s': State)
    requires Like(sys.db, s) && CanHappen(sys, ev)
    ensures Follows(s, ev, s') && Like(StepTorn(sys, ev).db, s')
  {
    hide Like, Apply, Legal, RowWrite, Writes, Recalculate, Refusal;
    match ev
    case Whole(Request(op)) =>
      RequestRefines(sys.db, s, op);
      s' := Apply(s, op).state;
    case Whole(Commit(c, id, now)) =>
      hide Enabled, Step;
      CommitRefines(sys, s, c, id, now);
      s' := Apply(s, OpApprove(c, id, now)).state;
    case Whole(e) =>
      hide Enabled, Step;
      QuietStep(sys, e);
      s' := s;
      LikeTwice(Step(sys, e).db, sys.db, s);
    case EntryWrite(op) =>
      WriteRefines(sys.db, s, op);
      s' := Apply(s, op).state;
    case LateRecalculation(id) =>
      RecalculationQuiet(sys.db, id);
      s' := s;
      LikeTwice(StepTorn(sys, ev).db, sys.db, s);
  }

  // ---- Schedules ----

  /** A run that a schedule refines: its operations are those of the events, and it ends like the schedule. */
  ghost predicate Refines(systems: seq<System>, events: seq<TornEvent>, i: nat, states: seq<State>, ops: seq<Op>)
    requires i < |systems| && i <= |events|
  {
    && IsRun(states, ops) && |states| == |ops| + 1 && ops == RunOps(events[..i])
    && Like(systems[i].db, states[|ops|])
  }

  lemma RunOpsNext(events: seq<TornEvent>, i: nat)
    requires i < |events|
    ensures RunOps(events[..i + 1])
         == if RunOp(events[i]).Some? then RunOps(events[..i]) + [RunOp(events[i]).value] else RunOps(events[..i])
  {
    hide RunOp;
    assert events[..i + 1][..i] == events[..i];
  }

  lemma LikeItself(s: State)
    ensures Like(s, s)
  {
  }

  /**
   Every schedule, with approvals interleaved statement by statement, crashes, and recalculations late
   or missing, refines the run of its operations.
   */
  lemma {:induction false} ScheduleRefinesRun(systems: seq<System>, events: seq<TornEvent>, i: nat)
      returns (states: seq<State>, ops: seq<Op>)
    requires IsTornSchedule(systems, events) && i < |systems| == |events| + 1
    ensures Refines(systems, events, i, states, ops)
    decreases i
  {
    if i == 0 {
      hide CanHappen, StepTorn, Like;
      EmptyRun();
      LikeItself(EMPTY_STATE);
      assert events[..0] == [];
      return [EMPTY_STATE], [];
    }
    hide IsTornSchedule, CanHappen, StepTorn, Like, IsRun, Legal, Apply, RunOp, RunOps;
    states, ops := ScheduleRefinesRun(systems, events, i - 1);
    TornStepOf(systems, events, i - 1);
    RunOpsNext(events, i - 1);
    var s' := StepRefines(systems[i - 1], events[i - 1], states[|ops|]);
    if RunOp(events[i - 1]).Some? {
      ExtendRun(states, ops, RunOp(events[i - 1]).value);
      states, ops := states + [s'], ops + [RunOp(events[i - 1]).value];
    }
  }

  // ---- The laws of runs, for schedules ----

  lemma LikeEdges(s: State, s': State)
    requires Like(s, s') && Sound(s')
    ensures EdgesOk(s.staff)
  {
    hide EdgesOk, AddsUp, UsedExact;
  }

  lemma EndSound(states: seq<State>, ops: seq<Op>)
    requires IsRun(states, ops) && |states| == |ops| + 1
    ensures Sound(states[|ops|])
  {
    hide IsRun, Sound;
    ReachableSound(states, ops, |ops|);
  }

  /** Nobody manages themselves, and whoever manages someone is a MANAGER or an ADMIN. */
  lemma ScheduleEdges(systems: seq<System>, events: seq<TornEvent>, i: nat)
    requires IsTornSchedule(systems, events) && i < |systems| == |events| + 1
    ensures EdgesOk(systems[i].db.staff)
  {
    hide IsTornSchedule, Like, IsRun, Sound, EdgesOk, RunOps;
    var states, ops := ScheduleRefinesRun(systems, events, i);
    EndSound(states, ops);
    LikeEdges(systems[i].db, states[|ops|]);
  }

  lemma RunOpsMember(events: seq<TornEvent>, i: nat, op: Op)
    requires i <= |events| && op in RunOps(events[..i])
    ensures exists k | 0 <= k < i :: RunOp(events[k]) == Some(op)
  {
    hide RunOp;
    if i > 0 {
      RunOpsNext(events, i - 1);
      if RunOp(events[i - 1]) != Some(op) {
        RunOpsMember(events, i - 1, op);
      }
    }
  }

  lemma LikeShape(s: State, s': State, org: int)
    requires Like(s, s') && Shape(s'.ledger, org)
    ensures Shape(s.ledger, org)
  {
    forall t | t in s.ledger.timesheets ensures SameRowButTotals(s.ledger.timesheets[t], s'.ledger.timesheets[t]) {
    }
    hide SameProjects;
  }

  /** If nobody of an organisation dates an update: its weeks span seven days, one per user and week. */
  lemma ScheduleShape(systems: seq<System>, events: seq<TornEvent>, i: nat, org: int)
    requires IsTornSchedule(systems, events) && i < |systems| == |events| + 1
    requires forall k | 0 <= k < i :: RunOp(events[k]).Some? ==> !IsDatedUpdate(RunOp(events[k]).value, org)
    ensures Shape(systems[i].db.ledger, org)
  {
    hide IsTornSchedule, Like, IsRun, Shape, RunOps, RunOp, IsDatedUpdate;
    var states, ops := ScheduleRefinesRun(systems, events, i);
    forall k | 0 <= k < |ops| ensures !IsDatedUpdate(ops[k], org) {
      RunOpsMember(events, i, ops[k]);
    }
    ShapeOverRun(states, ops, |ops|, org);
    LikeShape(systems[i].db, states[|ops|], org);
  }

  // ---- Status and freeze, step by step ----

  lemma LikeStatus(s: State, s': State, id: int)
    requires Like(s, s')
    ensures StatusOf(s.ledger, id) == StatusOf(s'.ledger, id) && s'.ledger.nextSheet == s.ledger.nextSheet
    ensures id in s.ledger.timesheets <==> id in s'.ledger.timesheets
    ensures s'.ledger.entries == s.ledger.entries
  {
    hide SameProjects;
  }

  /** The run's two states around an event of a schedule. */
  lemma AroundEvent(systems: seq<System>, events: seq<TornEvent>, k: nat) returns (s: State, s': State)
    requires IsTornSchedule(systems, events) && |systems| == |events| + 1 && k < |events|
    ensures Sound(s) && Follows(s, events[k], s')
    ensures Like(systems[k].db, s) && Like(systems[k + 1].db, s')
  {
    hide IsTornSchedule, CanHappen, StepTorn, Like, IsRun, Sound, RunOps, Follows;
    var states, ops := ScheduleRefinesRun(systems, events, k);
    EndSound(states, ops);
    TornStepOf(systems, events, k);
    s := states[|ops|];
    s' := StepRefines(systems[k], events[k], s);
  }

  lemma FollowedStatus(s: State, ev: TornEvent, s': State, id: int)
    requires Sound(s) && Follows(s, ev, s')
    ensures StatusStepOf(s.ledger, s'.ledger, id)
  {
    assert id in s.ledger.timesheets ==> id < s.ledger.nextSheet;
    hide Apply, Legal, AddsUp, UsedExact, EdgesOk, RunOp;
    if RunOp(ev).Some? {
      StatusMoves(s, RunOp(ev).value, id);
    }
  }

  lemma SystemStatusStep(systems: seq<System>, events: seq<TornEvent>, k: nat, id: int)
    requires IsTornSchedule(systems, events) && |systems| == |events| + 1 && k < |events|
    ensures StatusStepOf(systems[k].db.ledger, systems[k + 1].db.ledger, id)
  {
    hide IsTornSchedule, Like, Sound, Follows, StatusOf;
    var s, s' := AroundEvent(systems, events, k);
    FollowedStatus(s, events[k], s', id);
    LikeStatus(systems[k].db, s, id);
    LikeStatus(systems[k + 1].db, s', id);
  }

  /** The databases of a schedule, up to the `i`-th. */
  function Databases(systems: seq<System>, i: nat): (dbs: seq<State>)
    requires i <= |systems|
    ensures |dbs| == i && forall k | 0 <= k < i :: dbs[k] == systems[k].db
  {
    seq(i, k requires 0 <= k < i => systems[k].db)
  }

  /** Over any schedule a timesheet's history is a prefix of DRAFT (SUBMITTED REJECTED)* SUBMITTED APPROVED. */
  lemma {:induction false} ScheduleHistory(systems: seq<System>, events: seq<TornEvent>, i: nat, id: int)
    requires IsTornSchedule(systems, events) && i < |systems| == |events| + 1
    ensures var h := History(Databases(systems, i + 1), id); Regular(h) && EndsAt(h, systems[i].db.ledger, id)
    decreases i
  {
    var dbs := Databases(systems, i + 1);
    hide CanHappen, StepTorn, Regular, EndsAt, StatusOf;
    if i == 0 {
      NoStatusYet(id);
      NoHistory(dbs, id);
    } else {
      assert dbs[..i] == Databases(systems, i);
      ScheduleHistory(systems, events, i - 1, id);
      SystemStatusStep(systems, events, i - 1, id);
      hide IsTornSchedule;
      ExtendHistory(History(dbs[..i], id), systems[i - 1].db.ledger, systems[i].db.ledger, id);
    }
  }

  lemma NoStatusYet(id: int)
    ensures StatusOf(EMPTY_STATE.ledger, id).None?
  {
  }

  /** Owner, week and rows as before; only the decision and, by a late recalculation, the totals may differ. */
  predicate SameButDecision(b: Timesheet, a: Timesheet) {
    a == b.(status := a.status, approvedBy := a.approvedBy, approvedAt := a.approvedAt,
            rejectedReason := a.rejectedReason,
            totalHours := a.totalHours, billableHours := a.billableHours)
  }

  lemma FollowedFreeze(s: State, ev: TornEvent, s': State, id: int)
    requires Sound(s) && Follows(s, ev, s') && Held(s.ledger, id)
    ensures id in s.ledger.timesheets && id in s'.ledger.timesheets
    ensures SameButDecision(s.ledger.timesheets[id], s'.ledger.timesheets[id])
    ensures StatusOf(s.ledger, id) == Some(APPROVED) ==> StatusOf(s'.ledger, id) == Some(APPROVED)
    ensures SheetRows(s'.ledger.entries, id) == SheetRows(s.ledger.entries, id)
  {
    hide Apply, Legal, AddsUp, UsedExact, EdgesOk, RunOp, SheetRows;
    if RunOp(ev).Some? {
      Frozen(s, RunOp(ev).value, id);
    }
  }

  lemma LikeSheet(s: State, s': State, id: int)
    requires Like(s, s') && id in s.ledger.timesheets && id in s'.ledger.timesheets
    ensures SameButDecision(s.ledger.timesheets[id], s'.ledger.timesheets[id])
    ensures SameButDecision(s'.ledger.timesheets[id], s.ledger.timesheets[id])
  {
    assert SameRowButTotals(s.ledger.timesheets[id], s'.ledger.timesheets[id]);
  }

  lemma SystemFreeze(systems: seq<System>, events: seq<TornEvent>, k: nat, id: int)
    requires IsTornSchedule(systems, events) && |systems| == |events| + 1 && k < |events|
             && Held(systems[k].db.ledger, id)
    ensures id in systems[k].db.ledger.timesheets && id in systems[k + 1].db.ledger.timesheets
    ensures SameButDecision(systems[k].db.ledger.timesheets[id], systems[k + 1].db.ledger.timesheets[id])
    ensures StatusOf(systems[k].db.ledger, id) == Some(APPROVED)
            ==> StatusOf(systems[k + 1].db.ledger, id) == Some(APPROVED)
    ensures SheetRows(systems[k + 1].db.ledger.entries, id) == SheetRows(systems[k].db.ledger.entries, id)
  {
    hide IsTornSchedule, Like, Sound, Follows, SheetRows;
    var s, s' := AroundEvent(systems, events, k);
    LikeStatus(systems[k].db, s, id);
    LikeStatus(systems[k + 1].db, s', id);
    FollowedFreeze(s, events[k], s', id);
    LikeSheet(systems[k].db, s, id);
    LikeSheet(systems[k + 1].db, s', id);
  }

  /**
   While a timesheet stays submitted or approved, its entries, its owner and its week stay as they
   were: nothing that runs in between changes them.
   */
  lemma {:induction false} ScheduleFreeze(systems: seq<System>, events: seq<TornEvent>, i: nat, j: nat, id: int)
    requires IsTornSchedule(systems, events) && i <= j < |systems| == |events| + 1
    requires forall k | i <= k <= j :: Held(systems[k].db.ledger, id)
    ensures id in systems[i].db.ledger.timesheets && id in systems[j].db.ledger.timesheets
    ensures SameButDecision(systems[i].db.ledger.timesheets[id], systems[j].db.ledger.timesheets[id])
    ensures SheetRows(systems[j].db.ledger.entries, id) == SheetRows(systems[i].db.ledger.entries, id)
    decreases j
  {
    hide IsTornSchedule, SheetRows;
    assert Held(systems[j].db.ledger, id);
    if i < j {
      ScheduleFreeze(systems, events, i, j - 1, id);
      SystemFreeze(systems, events, j - 1, id);
    }
  }

  /** An approved timesheet stays approved, with the entries it was approved with. */
  lemma {:induction false} ScheduleApprovedForEver(systems: seq<System>, events: seq<TornEvent>, i: nat, j: nat,
      id: int)
    requires IsTornSchedule(systems, events) && i <= j < |systems| == |events| + 1
    requires StatusOf(systems[i].db.ledger, id) == Some(APPROVED)
    ensures StatusOf(systems[j].db.ledger, id) == Some(APPROVED)
    ensures SheetRows(systems[j].db.ledger.entries, id) == SheetRows(systems[i].db.ledger.entries, id)
    decreases j
  {
    hide IsTornSchedule, SheetRows, StatusOf;
    if i < j {
      ScheduleApprovedForEver(systems, events, i, j - 1, id);
      SystemFreeze(systems, events, j - 1, id);
    }
  }
}
