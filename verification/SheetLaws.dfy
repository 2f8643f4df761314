/**
 What an operation may do to the timesheet it is about: the status machine, who may move it, and
 what stays as it was. All laws over runs about single timesheets come from here.
 */
module SheetLaws {
  import opened Common
  import opened Rows
  import opened Weeks
  import opened Schema
  import opened Timesheets
  import opened People
  import opened LedgerLaws
  import opened Operations

  /** The sheet after the operation agrees with the one before, but for the columns of a status change. */
  predicate SameButStatus(b: Timesheet, a: Timesheet) {
    a == b.(status := a.status, approvedBy := a.approvedBy, approvedAt := a.approvedAt,
            rejectedReason := a.rejectedReason)
  }

  /** The caller is someone else than the owner, and an administrator or the owner's manager. */
  predicate MayDecide(s: State, c: Caller, owner: int) {
    && c.user != owner
    && (c.role == ADMIN || (c.role == MANAGER && (c.user, owner) in s.staff.manages))
  }

  /** The moves of an existing timesheet. */
  predicate SheetMove(s: State, op: Op, b: Timesheet, a: Timesheet) {
    || a == b
    || (op.OpSubmit? && SameButStatus(b, a) && b.status in {DRAFT, REJECTED} && a.status == SUBMITTED)
    || (op.OpApprove? && SameButStatus(b, a) && b.status == SUBMITTED && a.status == APPROVED
        && a.approvedBy == Some(op.c.user) && MayDecide(s, op.c, b.user))
    || (op.OpReject? && SameButStatus(b, a) && b.status == SUBMITTED && a.status == REJECTED
        && MayDecide(s, op.c, b.user))
    || (b.status in {DRAFT, REJECTED} && a == b.(totalHours := a.totalHours, billableHours := a.billableHours))
    || (op.OpUpdateTimesheet? && b.status == DRAFT && op.newStart.Some? && a == b.(weekStart := op.newStart.value))
  }

  /** A timesheet is born as a draft of the caller's for a whole week that was free. */
  predicate SheetBirth(s: State, op: Op, a: Timesheet) {
    && (op.OpCreateTimesheet? || op.OpCopyWeek?)
    && a.user == op.c.user && a.org == op.c.org && a.status == DRAFT
    && a.weekStart == GetWeekStart(op.date, WorkWeekStart(s, op.c.org)) && a.weekEnd == GetWeekEnd(a.weekStart)
    && !WeekTaken(s.ledger, op.c, a.weekStart)
  }

  predicate SheetEffect(s: State, op: Op, l': Ledger) {
    var l := s.ledger;
    var id := Subject(s, op);
    if id in l.timesheets then
      l'.nextSheet == l.nextSheet
      && if id in l'.timesheets then SheetMove(s, op, l.timesheets[id], l'.timesheets[id])
         else op.OpDeleteTimesheet? && l.timesheets[id].status == DRAFT
    else if id in l'.timesheets then
      id == l.nextSheet && l'.nextSheet == id + 1 && SheetBirth(s, op, l'.timesheets[id])
    else l'.nextSheet == l.nextSheet
  }

  lemma BirthEffects(s: State, op: Op)
    requires Legal(s, op) && AddsUp(s.ledger) && (op.OpCreateTimesheet? || op.OpCopyWeek?)
    ensures SheetEffect(s, op, Apply(s, op).state.ledger)
  {
    hide Filter, IsLatest, GetWeekStart, GetWeekEnd, HoursOf, BillableHoursOf, Copies, EntriesOk, SheetRows, WeekTaken;
  }

  lemma DraftEffects(s: State, op: Op)
    requires Legal(s, op) && AddsUp(s.ledger) && (op.OpUpdateTimesheet? || op.OpDeleteTimesheet?)
    ensures SheetEffect(s, op, Apply(s, op).state.ledger)
  {
    hide Filter, EntriesOk;
  }

  lemma EntryEffects(s: State, op: Op)
    requires Legal(s, op) && (op.OpCreateEntry? || op.OpUpdateEntry? || op.OpDeleteEntry?)
    ensures SheetEffect(s, op, Apply(s, op).state.ledger)
  {
    hide Filter, SchemaAccepts, SheetRows, HoursOf, BillableHoursOf, Blank;
  }

  lemma StatusEffects(s: State, op: Op)
    requires Legal(s, op) && (op.OpSubmit? || op.OpApprove? || op.OpReject?)
    ensures SheetEffect(s, op, Apply(s, op).state.ledger)
  {
    hide Filter, SheetRows;
  }

  lemma StepEffect(s: State, op: Op)
    requires Legal(s, op) && AddsUp(s.ledger) && !IsStaffOp(op)
    ensures SheetEffect(s, op, Apply(s, op).state.ledger)
  {
    hide AddsUp, Apply, SheetEffect;
    if op.OpCreateTimesheet? || op.OpCopyWeek? {
      BirthEffects(s, op);
    } else if op.OpUpdateTimesheet? || op.OpDeleteTimesheet? {
      DraftEffects(s, op);
    } else if op.OpSubmit? || op.OpApprove? || op.OpReject? {
      StatusEffects(s, op);
    } else {
      EntryEffects(s, op);
    }
  }

  lemma ApproveTouches(s: State, op: Op)
    requires Legal(s, op) && AddsUp(s.ledger) && op.OpApprove?
    ensures var l' := Apply(s, op).state.ledger;
            l'.entries == s.ledger.entries && forall u | u != op.id ::
              (u in l'.timesheets <==> u in s.ledger.timesheets)
              && (u in s.ledger.timesheets ==> l'.timesheets[u] == s.ledger.timesheets[u])
  {
    hide Filter, SheetRows;
  }

  /** Timesheets an operation is not about keep their row and their entries. */
  lemma OthersUntouched(s: State, op: Op, u: int)
    requires Legal(s, op) && AddsUp(s.ledger) && (IsStaffOp(op) || u != Subject(s, op))
    ensures var l' := Apply(s, op).state.ledger;
            (u in l'.timesheets <==> u in s.ledger.timesheets)
            && (u in s.ledger.timesheets ==> l'.timesheets[u] == s.ledger.timesheets[u]
                                             && SheetRows(l'.entries, u) == SheetRows(s.ledger.entries, u))
            && (IsStaffOp(op) ==> l'.nextSheet == s.ledger.nextSheet)
  {
    hide Apply, Filter, SheetRows;
    if IsStaffOp(op) {
      StaffOpTouchesNoRow(s, op);
    } else if op.OpApprove? {
      ApproveTouches(s, op);
    } else {
      SheetOpSound(s, op);
    }
  }

  /** The entry rows of a timesheet change only while it is a draft or rejected. */
  lemma RowsMove(s: State, op: Op, id: int)
    requires Legal(s, op) && AddsUp(s.ledger)
    requires id in s.ledger.timesheets && s.ledger.timesheets[id].status in {SUBMITTED, APPROVED}
    ensures SheetRows(Apply(s, op).state.ledger.entries, id) == SheetRows(s.ledger.entries, id)
  {
    if IsStaffOp(op) || id != Subject(s, op) {
      OthersUntouched(s, op, id);
    } else if op.OpApprove? {
      ApproveTouches(s, op);
    } else {
      hide Filter, SheetRows, SchemaAccepts, Blank, IsLatest, IsExisting, AddsUp;
    }
  }

  /** A submitted or approved timesheet changes by nothing but a decision, and an approved one never. */
  lemma Frozen(s: State, op: Op, id: int)
    requires Legal(s, op) && AddsUp(s.ledger)
    requires id in s.ledger.timesheets && s.ledger.timesheets[id].status in {SUBMITTED, APPROVED}
    ensures var b, l' := s.ledger.timesheets[id], Apply(s, op).state.ledger;
            && id in l'.timesheets
            && SameButStatus(b, l'.timesheets[id])
            && (b.status == APPROVED ==> l'.timesheets[id] == b)
            && SheetRows(l'.entries, id) == SheetRows(s.ledger.entries, id)
  {
    hide Apply, Filter, AddsUp;
    RowsMove(s, op, id);
    if IsStaffOp(op) || id != Subject(s, op) {
      OthersUntouched(s, op, id);
    } else {
      StepEffect(s, op);
    }
  }

  // ---- Status ----

  function StatusOf(l: Ledger, id: int): Option<Status> {
    if id in l.timesheets then Some(l.timesheets[id].status) else None
  }

  /** One step of the status machine; None is a timesheet that does not exist. */
  predicate StatusStep(a: Option<Status>, b: Option<Status>) {
    || a == b
    || (a == None && b == Some(DRAFT))
    || (a == Some(DRAFT) && b == None)
    || (a in {Some(DRAFT), Some(REJECTED)} && b == Some(SUBMITTED))
    || (a == Some(SUBMITTED) && b in {Some(APPROVED), Some(REJECTED)})
  }

  /** Every operation moves every timesheet by at most one step, and ids are never used twice. */
  lemma StatusMoves(s: State, op: Op, id: int)
    requires Legal(s, op) && AddsUp(s.ledger)
    ensures var l' := Apply(s, op).state.ledger;
            && StatusStep(StatusOf(s.ledger, id), StatusOf(l', id))
            && (StatusOf(s.ledger, id).None? && StatusOf(l', id).Some? ==> id >= s.ledger.nextSheet)
            && (id in s.ledger.timesheets ==> id < s.ledger.nextSheet)
            && s.ledger.nextSheet <= l'.nextSheet
  {
    assert id in s.ledger.timesheets ==> id < s.ledger.nextSheet;
    hide Apply, AddsUp, MayDecide, SheetBirth, SheetRows;
    if IsStaffOp(op) {
      OthersUntouched(s, op, id);
    } else {
      StepEffect(s, op);
      if id != Subject(s, op) {
        OthersUntouched(s, op, id);
      }
    }
  }

  /** Only an approval approves, by someone entitled to decide, and the sheet records who. */
  lemma ApprovalsAreDecisions(s: State, op: Op, id: int)
    requires Legal(s, op) && AddsUp(s.ledger)
    requires StatusOf(s.ledger, id) != Some(APPROVED) && StatusOf(Apply(s, op).state.ledger, id) == Some(APPROVED)
    ensures op.OpApprove? && op.id == id && id in s.ledger.timesheets
    ensures MayDecide(s, op.c, s.ledger.timesheets[id].user)
    ensures Apply(s, op).state.ledger.timesheets[id].approvedBy == Some(op.c.user)
  {
    hide Apply, AddsUp, MayDecide, SheetRows;
    if IsStaffOp(op) || id != Subject(s, op) {
      OthersUntouched(s, op, id);
    } else {
      StepEffect(s, op);
    }
  }
}
