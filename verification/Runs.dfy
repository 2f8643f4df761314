/** The main laws of the timesheet system, over every run of its operations from an empty database. */
module Runs {
  import opened Common
  import opened Schema
  import opened LedgerLaws
  import opened Operations
  import opened StaffLaws
  import opened SheetLaws

  /** `states` are the database states of a run: one operation between each and the next. */
  ghost predicate IsRun(states: seq<State>, ops: seq<Op>) {
    && |states| == |ops| + 1 && states[0] == EMPTY_STATE
    && forall i | 0 <= i < |ops| :: Legal(states[i], ops[i]) && states[i + 1] == Apply(states[i], ops[i]).state
  }

  /** What holds in every reachable state. */
  ghost predicate Sound(s: State) {
    AddsUp(s.ledger) && UsedExact(s.ledger) && EdgesOk(s.staff)
  }

  lemma StepKeepsSound(s: State, op: Op)
    requires Legal(s, op) && Sound(s)
    ensures Sound(Apply(s, op).state)
  {
    StepSound(s, op);
    StepKeepsEdges(s, op);
  }

  /**
   In every reachable state the stored totals are the sums of the entries, used hours are the
   approved hours, and managers are managers.
   */
  lemma {:induction false} ReachableSound(states: seq<State>, ops: seq<Op>, i: nat)
    requires IsRun(states, ops) && i < |states|
    ensures Sound(states[i])
    decreases i
  {
    if i == 0 {
      assert SheetsOk(states[0].ledger);
    } else {
      ReachableSound(states, ops, i - 1);
      StepKeepsSound(states[i - 1], ops[i - 1]);
    }
  }

  lemma EmptyRun()
    ensures IsRun([EMPTY_STATE], []) && Sound(EMPTY_STATE)
  {
    ReachableSound([EMPTY_STATE], [], 0);
  }

  lemma ExtendRun(states: seq<State>, ops: seq<Op>, op: Op)
    requires IsRun(states, ops) && Legal(states[|ops|], op)
    ensures IsRun(states + [Apply(states[|ops|], op).state], ops + [op])
  {
    hide Legal, Apply;
  }

  lemma RunLength(states: seq<State>, ops: seq<Op>)
    requires IsRun(states, ops)
    ensures |states| == |ops| + 1
    ensures states[0] == EMPTY_STATE && forall id :: StatusOf(states[0].ledger, id).None?
  {
  }

  /** One step of a run, with what is known before it. */
  lemma StepOf(states: seq<State>, ops: seq<Op>, i: nat)
    requires IsRun(states, ops) && i < |ops|
    ensures Legal(states[i], ops[i]) && states[i + 1] == Apply(states[i], ops[i]).state
    ensures Sound(states[i])
  {
    ReachableSound(states, ops, i);
  }

  /** A timesheet that is submitted or approved changes by nothing but a decision, at any step of a run. */
  lemma FrozenInRun(states: seq<State>, ops: seq<Op>, i: nat, id: int)
    requires IsRun(states, ops) && i < |ops| && Held(states[i].ledger, id)
    ensures id in states[i].ledger.timesheets && id in states[i + 1].ledger.timesheets
    ensures SameButStatus(states[i].ledger.timesheets[id], states[i + 1].ledger.timesheets[id])
    ensures StatusOf(states[i].ledger, id) == Some(APPROVED) ==>
              states[i + 1].ledger.timesheets[id] == states[i].ledger.timesheets[id]
    ensures SheetRows(states[i + 1].ledger.entries, id) == SheetRows(states[i].ledger.entries, id)
  {
    StepOf(states, ops, i);
    hide IsRun, Legal, Apply, AddsUp, UsedExact, EdgesOk, SheetRows;
    Frozen(states[i], ops[i], id);
  }

  // ---- Status histories ----

  /** The statuses a timesheet went through, repetitions removed. */
  function History(states: seq<State>, id: int): seq<Status> {
    if states == [] then []
    else
      var n := |states| - 1;
      var before := History(states[..n], id);
      var now := StatusOf(states[n].ledger, id);
      if now.Some? && (before == [] || before[|before| - 1] != now.value) then before + [now.value] else before
  }

  /** A prefix of DRAFT (SUBMITTED REJECTED)* SUBMITTED APPROVED. */
  predicate Regular(h: seq<Status>) {
    h == [] || (h[0] == DRAFT && forall i | 0 < i < |h| ::
      if i % 2 == 1 then h[i] == SUBMITTED else h[i] == REJECTED || (h[i] == APPROVED && i == |h| - 1))
  }

  /** Where a timesheet stands at the end of its history. */
  predicate EndsAt(h: seq<Status>, l: Ledger, id: int) {
    match StatusOf(l, id)
    case Some(status) => h != [] && h[|h| - 1] == status
    case None => h != [] ==> id < l.nextSheet
  }

  lemma {:induction false} HistoryLaw(states: seq<State>, ops: seq<Op>, id: int)
    requires IsRun(states, ops)
    ensures Regular(History(states, id)) && EndsAt(History(states, id), states[|ops|].ledger, id)
    decreases |states|
  {
    var n := |ops|;
    RunLength(states, ops);
    hide IsRun, StatusOf, Regular, EndsAt;
    if n == 0 {
      NoHistory(states, id);
    } else {
      SubRun(states, ops);
      HistoryLaw(states[..n], ops[..n - 1], id);
      StatusInRun(states, ops, n - 1, id);
      ExtendHistory(History(states[..n], id), states[n - 1].ledger, states[n].ledger, id);
    }
  }

  /** A run without its last step is a run. */
  lemma SubRun(states: seq<State>, ops: seq<Op>)
    requires IsRun(states, ops) && ops != []
    ensures IsRun(states[..|ops|], ops[..|ops| - 1])
  {
    hide Legal, Apply;
  }

  lemma NoHistory(states: seq<State>, id: int)
    requires |states| == 1 && StatusOf(states[0].ledger, id).None?
    ensures Regular(History(states, id)) && EndsAt(History(states, id), states[0].ledger, id)
  {
    assert states[..0] == [];
  }

  /** How a step of a run moves a timesheet's status, and the ids in use. */
  lemma StatusInRun(states: seq<State>, ops: seq<Op>, i: nat, id: int)
    requires IsRun(states, ops) && i < |ops|
    ensures |states| == |ops| + 1
    ensures StatusStepOf(states[i].ledger, states[i + 1].ledger, id)
  {
    StepOf(states, ops, i);
    hide IsRun, Legal, Apply, AddsUp, UsedExact, EdgesOk;
    StatusMoves(states[i], ops[i], id);
  }

  /** A timesheet takes at most one step of the status machine, and one that is born gets a fresh id. */
  predicate StatusStepOf(l: Ledger, l': Ledger, id: int) {
    && StatusStep(StatusOf(l, id), StatusOf(l', id)) && l.nextSheet <= l'.nextSheet
    && (StatusOf(l, id).None? && StatusOf(l', id).Some? ==> id >= l.nextSheet)
    && (id in l.timesheets ==> id < l.nextSheet)
  }

  lemma ExtendHistory(h: seq<Status>, l: Ledger, l': Ledger, id: int)
    requires Regular(h) && EndsAt(h, l, id)
    requires StatusStepOf(l, l', id)
    ensures var now := StatusOf(l', id);
            var h' := if now.Some? && (h == [] || h[|h| - 1] != now.value) then h + [now.value] else h;
            Regular(h') && EndsAt(h', l', id)
  {
  }

  // ---- Who approved ----

  lemma ApprovalInRun(states: seq<State>, ops: seq<Op>, i: nat, id: int)
    requires IsRun(states, ops) && i < |ops|
    requires StatusOf(states[i].ledger, id) != Some(APPROVED) && StatusOf(states[i + 1].ledger, id) == Some(APPROVED)
    ensures ops[i].OpApprove? && ops[i].id == id && StatusOf(states[i].ledger, id) == Some(SUBMITTED)
    ensures MayDecide(states[i], ops[i].c, states[i].ledger.timesheets[id].user)
    ensures states[i + 1].ledger.timesheets[id].approvedBy == Some(ops[i].c.user)
  {
    StepOf(states, ops, i);
    hide IsRun, Legal, Apply, AddsUp, UsedExact, EdgesOk, MayDecide;
    ApprovalsAreDecisions(states[i], ops[i], id);
    StatusMoves(states[i], ops[i], id);
  }

  /** Behind every approved timesheet there is one decision, and nothing has changed since. */
  lemma {:induction false} ApprovedBySomeone(states: seq<State>, ops: seq<Op>, n: nat, id: int) returns (k: nat)
    requires IsRun(states, ops) && n < |states| && StatusOf(states[n].ledger, id) == Some(APPROVED)
    ensures k < n && ops[k].OpApprove? && ops[k].id == id
    ensures id in states[k].ledger.timesheets && states[k].ledger.timesheets[id].status == SUBMITTED
    ensures MayDecide(states[k], ops[k].c, states[k].ledger.timesheets[id].user)
    ensures var b, a := states[k].ledger.timesheets[id], states[n].ledger.timesheets[id];
            SameButStatus(b, a) && a.approvedBy == Some(ops[k].c.user)
    ensures SheetRows(states[n].ledger.entries, id) == SheetRows(states[k].ledger.entries, id)
    decreases n
  {
    hide IsRun, MayDecide, SheetRows, SameButStatus;
    RunLength(states, ops);
    if StatusOf(states[n - 1].ledger, id) == Some(APPROVED) {
      k := ApprovedBySomeone(states, ops, n - 1, id);
      FrozenInRun(states, ops, n - 1, id);
    } else {
      k := n - 1;
      ApprovalInRun(states, ops, k, id);
      FrozenInRun(states, ops, k, id);
    }
  }

  // ---- Freeze ----

  /** Submitted or approved: out of its owner's hands. */
  predicate Held(l: Ledger, id: int) {
    StatusOf(l, id) == Some(SUBMITTED) || StatusOf(l, id) == Some(APPROVED)
  }

  ghost predicate HeldThroughout(states: seq<State>, i: nat, j: nat, id: int)
    requires i <= j < |states|
  {
    forall k | i <= k <= j :: Held(states[k].ledger, id)
  }

  lemma SameButStatusOnce(a: Timesheet)
    ensures SameButStatus(a, a)
  {
  }

  lemma SameButStatusTwice(a: Timesheet, b: Timesheet, c: Timesheet)
    requires SameButStatus(a, b) && SameButStatus(b, c)
    ensures SameButStatus(a, c)
  {
  }

  /**
   While a timesheet stays submitted or approved, whoever does what, its entries, its totals, its
   owner and its week stay as they were.
   */
  lemma {:induction false} FreezeOverRun(states: seq<State>, ops: seq<Op>, i: nat, j: nat, id: int)
    requires IsRun(states, ops) && i <= j < |states| && HeldThroughout(states, i, j, id)
    ensures id in states[i].ledger.timesheets && id in states[j].ledger.timesheets
    ensures SameButStatus(states[i].ledger.timesheets[id], states[j].ledger.timesheets[id])
    ensures SheetRows(states[j].ledger.entries, id) == SheetRows(states[i].ledger.entries, id)
    decreases j
  {
    hide IsRun, SheetRows, SameButStatus;
    RunLength(states, ops);
    assert Held(states[i].ledger, id) && Held(states[j].ledger, id);
    if i == j {
      SameButStatusOnce(states[i].ledger.timesheets[id]);
    } else {
      assert Held(states[j - 1].ledger, id) && HeldThroughout(states, i, j - 1, id);
      FreezeOverRun(states, ops, i, j - 1, id);
      FrozenInRun(states, ops, j - 1, id);
      SameButStatusTwice(states[i].ledger.timesheets[id], states[j - 1].ledger.timesheets[id],
          states[j].ledger.timesheets[id]);
    }
  }

  /** An approved timesheet and its entries never change again. */
  lemma {:induction false} ApprovedForEver(states: seq<State>, ops: seq<Op>, i: nat, j: nat, id: int)
    requires IsRun(states, ops) && i <= j < |states| && StatusOf(states[i].ledger, id) == Some(APPROVED)
    ensures id in states[j].ledger.timesheets
    ensures states[j].ledger.timesheets[id] == states[i].ledger.timesheets[id]
    ensures SheetRows(states[j].ledger.entries, id) == SheetRows(states[i].ledger.entries, id)
    decreases j
  {
    hide IsRun, SheetRows;
    RunLength(states, ops);
    if i < j {
      ApprovedForEver(states, ops, i, j - 1, id);
      FrozenInRun(states, ops, j - 1, id);
    }
  }

  // ---- Owners ----

  predicate SameOwner(a: Timesheet, b: Timesheet) {
    a.user == b.user && a.org == b.org
  }

  /** An update of a timesheet is a call of its owner. */
  lemma UpdateIsOwn(s: State, op: Op, t: int)
    requires Legal(s, op) && op.OpUpdateTimesheet? && t in s.ledger.timesheets
    requires t in Apply(s, op).state.ledger.timesheets
    requires Apply(s, op).state.ledger.timesheets[t].weekStart != s.ledger.timesheets[t].weekStart
    ensures t == op.id && op.c.org == s.ledger.timesheets[t].org && op.c.user == s.ledger.timesheets[t].user
  {
  }

  /** The step writes this date on this timesheet as it is given. */
  predicate Dates(op: Op, t: int, a: Timesheet) {
    op.OpUpdateTimesheet? && op.newStart == Some(a.weekStart) && op.id == t && op.c.org == a.org && op.c.user == a.user
  }

  /** Each timesheet after the step is a new one on a free week, or one from before in the same week. */
  lemma WeekOrigins(s: State, op: Op, t: int)
    requires Legal(s, op) && AddsUp(s.ledger) && t in Apply(s, op).state.ledger.timesheets
    ensures var a := Apply(s, op).state.ledger.timesheets[t];
            if t in s.ledger.timesheets then
              var b := s.ledger.timesheets[t];
              SameOwner(a, b) && a.weekEnd == b.weekEnd
              && (a.weekStart == b.weekStart || Dates(op, t, a))
            else !IsStaffOp(op) && t == Subject(s, op) && SheetBirth(s, op, a)
  {
    hide Apply, AddsUp, MayDecide, SheetBirth, SheetRows;
    if IsStaffOp(op) || t != Subject(s, op) {
      OthersUntouched(s, op, t);
    } else {
      StepEffect(s, op);
      if op.OpUpdateTimesheet? && t in s.ledger.timesheets
         && Apply(s, op).state.ledger.timesheets[t].weekStart != s.ledger.timesheets[t].weekStart {
        UpdateIsOwn(s, op, t);
      }
    }
  }

  /** Users never leave and never change organisation, so a timesheet's organisation is its owner's. */
  ghost predicate OrgsOk(s: State) {
    forall t | t in s.ledger.timesheets ::
      var sheet := s.ledger.timesheets[t];
      sheet.user in s.staff.users && s.staff.users[sheet.user].org == sheet.org
  }

  lemma StepKeepsOrgs(s: State, op: Op)
    requires Legal(s, op) && AddsUp(s.ledger) && EdgesOk(s.staff) && OrgsOk(s)
    ensures OrgsOk(Apply(s, op).state)
  {
    var s' := Apply(s, op).state;
    assert !op.OpRegister? ==> Authentic(s, op.c);
    hide Apply, EdgesOk, AddsUp, Legal;
    forall t | t in s'.ledger.timesheets
      ensures var sheet := s'.ledger.timesheets[t];
              sheet.user in s'.staff.users && s'.staff.users[sheet.user].org == sheet.org
    {
      WeekOrigins(s, op, t);
      if IsStaffOp(op) {
        StaffOpsKeepUsers(s, op);
      } else {
        SheetOpsLeaveStaff(s, op);
      }
    }
  }

  lemma {:induction false} OrgsOverRun(states: seq<State>, ops: seq<Op>, i: nat)
    requires IsRun(states, ops) && i < |states|
    ensures OrgsOk(states[i])
    decreases i
  {
    if i > 0 {
      OrgsOverRun(states, ops, i - 1);
      StepOf(states, ops, i - 1);
      hide IsRun, Apply, Legal, AddsUp, UsedExact, EdgesOk, OrgsOk;
      StepKeepsOrgs(states[i - 1], ops[i - 1]);
    }
  }
}
