/** The operations of the services as steps of one system, and what each step keeps. */
module Operations {
  import opened Common
  import opened Rows
  import opened Weeks
  import opened Schema
  import opened Timesheets
  import opened Approvals
  import opened People
  import opened LedgerLaws

  datatype Op =
    | OpRegister(email: string)
    | OpSettings(c: Caller, row: Settings)
    | OpCreateTimesheet(c: Caller, date: int, today: int)
    | OpUpdateTimesheet(c: Caller, id: int, newStart: Option<int>)
    | OpDeleteTimesheet(c: Caller, id: int)
    | OpSubmit(c: Caller, id: int)
    | OpCopyWeek(c: Caller, date: int, force: bool, previous: Option<int>, existing: Option<int>)
    | OpCreateEntry(c: Caller, id: int, dto: EntryInput)
    | OpUpdateEntry(c: Caller, id: int, entryId: int, dto: EntryInput)
    | OpDeleteEntry(c: Caller, id: int, entryId: int)
    | OpApprove(c: Caller, id: int, now: int)
    | OpReject(c: Caller, id: int, reason: string)
    | OpSetManagers(c: Caller, id: int, ids: seq<int>)
    | OpCreateUser(c: Caller, email: string, role: Option<Role>, managerIds: seq<int>, projectIds: seq<int>)
    | OpUpdateUser(c: Caller, id: int, user: UserUpdate)
    | OpDeactivateUser(c: Caller, id: int)
    | OpCreateProject(c: Caller, project: ProjectInput)
    | OpUpdateProject(c: Caller, id: int, change: ProjectUpdate)
    | OpDeleteProject(c: Caller, id: int)

  /** A token names a user and that user's organisation; its role may be out of date. */
  predicate Authentic(s: State, c: Caller) {
    c.user in s.staff.users && s.staff.users[c.user].org == c.org
  }

  /** The call can happen in this state: its token is genuine and its query answers are right. */
  predicate Legal(s: State, op: Op) {
    && (!op.OpRegister? ==> Authentic(s, op.c))
    && (op.OpCopyWeek? ==>
          && IsLatest(s.ledger, op.c, op.previous)
          && IsExisting(s.ledger, op.c, GetWeekStart(op.date, WorkWeekStart(s, op.c.org)), op.existing))
  }

  function Apply(s: State, op: Op): Outcome
    requires Legal(s, op)
  {
    match op
    case OpRegister(email) => Register(s, email)
    case OpSettings(c, row) => UpdateSettings(s, c, row)
    case OpCreateTimesheet(c, date, today) => CreateTimesheet(s, c, date, today)
    case OpUpdateTimesheet(c, id, newStart) => UpdateTimesheet(s, c, id, newStart)
    case OpDeleteTimesheet(c, id) => DeleteTimesheet(s, c, id)
    case OpSubmit(c, id) => SubmitTimesheet(s, c, id)
    case OpCopyWeek(c, date, force, previous, existing) => CopyPreviousWeek(s, c, date, force, previous, existing)
    case OpCreateEntry(c, id, dto) => CreateEntry(s, c, id, dto)
    case OpUpdateEntry(c, id, entryId, dto) => UpdateEntry(s, c, id, entryId, dto)
    case OpDeleteEntry(c, id, entryId) => DeleteEntry(s, c, id, entryId)
    case OpApprove(c, id, now) => ApproveTimesheet(s, c, id, now)
    case OpReject(c, id, reason) => RejectTimesheet(s, c, id, reason)
    case OpSetManagers(c, id, ids) => SetUserManagers(s, c, id, ids)
    case OpCreateUser(c, email, role, managerIds, projectIds) => CreateUser(s, c, email, role, managerIds, projectIds)
    case OpUpdateUser(c, id, user) => UpdateUser(s, c, id, user)
    case OpDeactivateUser(c, id) => DeactivateUser(s, c, id)
    case OpCreateProject(c, project) => CreateProject(s, c, project)
    case OpUpdateProject(c, id, change) => UpdateProject(s, c, id, change)
    case OpDeleteProject(c, id) => DeleteProject(s, c, id)
  }

  /** The timesheet an operation of the timesheet or approval service is about. */
  function Subject(s: State, op: Op): int {
    match op
    case OpUpdateTimesheet(_, id, _) => id
    case OpDeleteTimesheet(_, id) => id
    case OpSubmit(_, id) => id
    case OpCopyWeek(_, _, _, _, existing) => if existing.Some? then existing.value else s.ledger.nextSheet
    case OpCreateEntry(_, id, _) => id
    case OpUpdateEntry(_, id, _, _) => id
    case OpDeleteEntry(_, id, _) => id
    case OpApprove(_, id, _) => id
    case OpReject(_, id, _) => id
    case _ => s.ledger.nextSheet
  }

  /** Operations on users, projects and settings. */
  predicate IsStaffOp(op: Op) {
    op.OpRegister? || op.OpSettings? || op.OpSetManagers? || op.OpCreateUser? || op.OpUpdateUser?
    || op.OpDeactivateUser? || op.OpCreateProject? || op.OpUpdateProject? || op.OpDeleteProject?
  }

  // ---- Timesheet operations: one sound change each ----

  lemma NoChange(l: Ledger, id: int)
    requires AddsUp(l)
    ensures SoundChange(l, l, id)
  {
  }

  lemma CreateTimesheetSound(s: State, c: Caller, date: int, today: int)
    requires AddsUp(s.ledger)
    ensures SoundChange(s.ledger, CreateTimesheet(s, c, date, today).state.ledger, s.ledger.nextSheet)
  {
    hide AddsUp, SoundChange, AddSheet, GetWeekStart, WeekTaken;
    NoChange(s.ledger, s.ledger.nextSheet);
    AddSheetSound(s.ledger, NewSheet(c, GetWeekStart(date, WorkWeekStart(s, c.org))));
  }

  lemma UpdateTimesheetSound(s: State, c: Caller, id: int, date: Option<int>)
    requires AddsUp(s.ledger)
    ensures SoundChange(s.ledger, UpdateTimesheet(s, c, id, date).state.ledger, id)
  {
    NoChange(s.ledger, id);
    if Owns(s.ledger, id, c) && s.ledger.timesheets[id].status == DRAFT {
      var sheet := s.ledger.timesheets[id];
      SetSheetSound(s.ledger, id, if date.Some? then sheet.(weekStart := date.value) else sheet);
    }
  }

  lemma DeleteTimesheetSound(s: State, c: Caller, id: int)
    requires AddsUp(s.ledger)
    ensures SoundChange(s.ledger, DeleteTimesheet(s, c, id).state.ledger, id)
  {
    hide AddsUp, SoundChange, RemoveSheet;
    NoChange(s.ledger, id);
    if Owns(s.ledger, id, c) && s.ledger.timesheets[id].status == DRAFT {
      RemoveSheetSound(s.ledger, id);
    }
  }

  lemma SubmitSound(s: State, c: Caller, id: int)
    requires AddsUp(s.ledger)
    ensures SoundChange(s.ledger, SubmitTimesheet(s, c, id).state.ledger, id)
  {
    NoChange(s.ledger, id);
    if Owns(s.ledger, id, c) && s.ledger.timesheets[id].status in {DRAFT, REJECTED} {
      var sheet := s.ledger.timesheets[id];
      var reason := if sheet.status == REJECTED then None else sheet.rejectedReason;
      SetSheetSound(s.ledger, id, sheet.(status := SUBMITTED, rejectedReason := reason));
    }
  }

  lemma RejectSound(s: State, c: Caller, id: int, reason: string)
    requires AddsUp(s.ledger)
    ensures SoundChange(s.ledger, RejectTimesheet(s, c, id, reason).state.ledger, id)
  {
    NoChange(s.ledger, id);
    if Refusal(s, c, id).None? {
      SetSheetSound(s.ledger, id, s.ledger.timesheets[id].(status := REJECTED, rejectedReason := Some(reason)));
    }
  }

  lemma CreateEntrySound(s: State, c: Caller, id: int, dto: EntryInput)
    requires AddsUp(s.ledger)
    ensures SoundChange(s.ledger, CreateEntry(s, c, id, dto).state.ledger, id)
  {
    var l := s.ledger;
    hide AddsUp, SoundChange, Recalculate, NewEntryRefusal, EntryOk, SchemaAccepts;
    NoChange(l, id);
    if NewEntryRefusal(s, c, id, dto).None? {
      NewEntryOk(s, c, id, dto);
      AppendSound(l, NewEntry(l.nextEntry, id, dto));
    }
  }

  lemma NewEntryOk(s: State, c: Caller, id: int, dto: EntryInput)
    requires NewEntryRefusal(s, c, id, dto).None?
    ensures var l := s.ledger; EntryOk(l.(nextEntry := l.nextEntry + 1), NewEntry(l.nextEntry, id, dto))
  {
    hide NewEntryRefusal, ColumnSum;
  }

  lemma AppendSound(l: Ledger, e: Entry)
    requires AddsUp(l) && e.id == l.nextEntry && EntryOk(l.(nextEntry := l.nextEntry + 1), e)
    requires l.timesheets[e.sheet].status != APPROVED
    ensures SoundChange(l, Recalculate(l.(entries := l.entries + [e], nextEntry := l.nextEntry + 1), e.sheet), e.sheet)
  {
    var l1 := l.(entries := l.entries + [e], nextEntry := l.nextEntry + 1);
    forall x | x in l1.entries ensures EntryOk(l1, x) {
      assert x in l.entries || x == e;
    }
    assert forall i | 0 <= i < |l.entries| :: EntryOk(l, l.entries[i]);
    AppendElsewhere(l.entries, [e], e.sheet);
    RecalculateSound(l, l1, e.sheet);
  }

  lemma SpliceSound(l: Ledger, i: nat, rows: seq<Entry>)
    requires AddsUp(l) && i < |l.entries|
    requires l.entries[i].sheet in l.timesheets && l.timesheets[l.entries[i].sheet].status != APPROVED
    requires rows == [] || (|rows| == 1 && EntryOk(l, rows[0])
                            && rows[0].id == l.entries[i].id && rows[0].sheet == l.entries[i].sheet)
    ensures SoundChange(l, Recalculate(Splice(l, i, rows), l.entries[i].sheet), l.entries[i].sheet)
  {
    SpliceOk(l, i, rows);
    SpliceElsewhere(l.entries, i, rows, l.entries[i].sheet);
    RecalculateSound(l, Splice(l, i, rows), l.entries[i].sheet);
  }

  lemma UpdateEntrySound(s: State, c: Caller, id: int, entryId: int, dto: EntryInput)
    requires AddsUp(s.ledger)
    ensures SoundChange(s.ledger, UpdateEntry(s, c, id, entryId, dto).state.ledger, id)
  {
    var l := s.ledger;
    NoChange(l, id);
    var o := UpdateEntry(s, c, id, entryId, dto);
    if o.reply.Done? {
      var i := FindEntry(l.entries, entryId, id).value;
      MergeOk(l, l.entries[i], dto);
      SpliceSound(l, i, [MergeEntry(l.entries[i], dto)]);
    }
  }

  lemma MergeOk(l: Ledger, e: Entry, dto: EntryInput)
    requires EntryOk(l, e) && SchemaAccepts(dto, false) && (dto.project.Some? ==> dto.project.value in l.projects)
    ensures EntryOk(l, MergeEntry(e, dto))
  {
  }

  lemma DeleteEntrySound(s: State, c: Caller, id: int, entryId: int)
    requires AddsUp(s.ledger)
    ensures SoundChange(s.ledger, DeleteEntry(s, c, id, entryId).state.ledger, id)
  {
    var l := s.ledger;
    NoChange(l, id);
    var o := DeleteEntry(s, c, id, entryId);
    if o.reply.Done? {
      SpliceSound(l, FindEntry(l.entries, entryId, id).value, []);
    }
  }

  lemma CopyIntoNewSound(l: Ledger, sheet: Timesheet, source: seq<Entry>)
    requires AddsUp(l) && StatusOk(sheet) && sheet.status != APPROVED && sheet.totalHours == 0.0
             && sheet.billableHours == 0.0
    requires forall e | e in source :: EntryOk(l, e)
    ensures SoundChange(l, WriteCopies(AddSheet(l, sheet), l.nextSheet, source), l.nextSheet)
  {
    AddSheetSound(l, sheet);
    var l1 := AddSheet(l, sheet);
    forall e | e in source ensures EntryOk(l1, e) {
      assert EntryOk(l, e);
    }
    WriteCopiesSound(l1, l.nextSheet, source);
  }

  lemma SourceOk(s: State, c: Caller, from: int)
    requires EntriesOk(s.ledger)
    ensures forall e | e in Filter(SheetRows(s.ledger.entries, from), StillAssigned(s, c)) :: EntryOk(s.ledger, e)
  {
    FilterMembers(s.ledger.entries, InSheet(from));
    FilterMembers(SheetRows(s.ledger.entries, from), StillAssigned(s, c));
  }

  lemma CopyWeekSound(s: State, op: Op)
    requires op.OpCopyWeek? && Legal(s, op) && AddsUp(s.ledger)
    ensures SoundChange(s.ledger, Apply(s, op).state.ledger, Subject(s, op))
  {
    var l := s.ledger;
    NoChange(l, Subject(s, op));
    var o := Apply(s, op);
    if o.reply.Copied? {
      SourceOk(s, op.c, op.previous.value);
      var kept := Filter(SheetRows(l.entries, op.previous.value), StillAssigned(s, op.c));
      hide SoundChange, WriteCopies, Filter, AddSheet, SheetRows;
      if op.existing.Some? {
        WriteCopiesSound(l, op.existing.value, kept);
      } else {
        CopyIntoNewSound(l, NewSheet(op.c, GetWeekStart(op.date, WorkWeekStart(s, op.c.org))), kept);
      }
    }
  }

  // ---- Approval ----

  /** Approving a timesheet moves exactly its rows into the approved ones. */
  lemma MarkApprovedMoves(l: Ledger, id: int, approver: int, now: int, p: int)
    requires AddsUp(l) && id in l.timesheets && l.timesheets[id].status != APPROVED
    ensures ApprovedHours(MarkApproved(l, id, approver, now), p)
         == ApprovedHours(l, p) + Sum(SheetRows(l.entries, id), OnProject(p))
  {
    var l' := MarkApproved(l, id, approver, now);
    SumSplit(l.entries, InApproved(l'.timesheets), InApproved(l.timesheets), InSheet(id), OnProject(p));
  }

  lemma MarkApprovedSound(l: Ledger, id: int, approver: int, now: int)
    requires AddsUp(l) && id in l.timesheets && l.timesheets[id].status == SUBMITTED
             && l.timesheets[id].user != approver
    ensures AddsUp(MarkApproved(l, id, approver, now)) && TouchesOnly(l, MarkApproved(l, id, approver, now), id)
  {
  }

  lemma ApproveSound(s: State, c: Caller, id: int, now: int)
    requires AddsUp(s.ledger)
    ensures AddsUp(ApproveTimesheet(s, c, id, now).state.ledger)
    ensures UsedExact(s.ledger) ==> UsedExact(ApproveTimesheet(s, c, id, now).state.ledger)
  {
    var l := s.ledger;
    if Refusal(s, c, id).None? {
      MarkApprovedSound(l, id, c.user, now);
      var l1 := MarkApproved(l, id, c.user, now);
      var l2 := l1.(projects := Charge(l.projects, SheetRows(l.entries, id)));
      assert forall e | e in l1.entries :: EntryOk(l1, e) ==> EntryOk(l2, e);
      forall p | p in l2.projects && UsedExact(l) ensures l2.projects[p].usedHours == ApprovedHours(l2, p) {
        MarkApprovedMoves(l, id, c.user, now, p);
      }
    }
  }

  // ---- Projects, users, settings ----

  /** No timesheet or entry differs; projects that stay keep their used hours, new ones start at zero. */
  ghost predicate RowsUntouched(l: Ledger, l': Ledger) {
    && l'.timesheets == l.timesheets && l'.entries == l.entries
    && l'.nextSheet == l.nextSheet && l'.nextEntry == l.nextEntry
    && l'.nextProject >= l.nextProject
    && (forall p | p in l'.projects && p in l.projects :: l'.projects[p].usedHours == l.projects[p].usedHours)
    && (forall p | p in l'.projects && p !in l.projects :: p >= l.nextProject && l'.projects[p].usedHours == 0.0)
    && (forall p | p in l.projects && p !in l'.projects :: forall e | e in l.entries :: e.project != p)
    && (forall p | p in l'.projects :: p < l'.nextProject)
  }

  lemma LedgerUntouched(s: State, op: Op)
    requires IsStaffOp(op) && Legal(s, op)
    requires !op.OpCreateProject? && !op.OpUpdateProject? && !op.OpDeleteProject?
    ensures Apply(s, op).state.ledger == s.ledger
  {
  }

  lemma StaffOpTouchesNoRow(s: State, op: Op)
    requires IsStaffOp(op) && Legal(s, op) && AddsUp(s.ledger)
    ensures RowsUntouched(s.ledger, Apply(s, op).state.ledger)
  {
    hide EntriesOk, SheetsOk, CreateProject, UpdateProject, DeleteProject, IsLatest, IsExisting;
    match op
    case OpCreateProject(c, project) => CreateProjectTouches(s, c, project);
    case OpUpdateProject(c, id, change) => UpdateProjectTouches(s, c, id, change);
    case OpDeleteProject(c, id) => DeleteProjectTouches(s, c, id);
    case _ =>
      hide Apply;
      LedgerUntouched(s, op);
  }

  lemma CreateProjectTouches(s: State, c: Caller, dto: ProjectInput)
    requires forall p | p in s.ledger.projects :: p < s.ledger.nextProject
    ensures RowsUntouched(s.ledger, CreateProject(s, c, dto).state.ledger)
  {
    hide CodeTaken, EdgesAccepted, IsDirectReport, WithProjectManagers, WithProjectEmployees;
  }

  lemma UpdateProjectTouches(s: State, c: Caller, id: int, dto: ProjectUpdate)
    requires forall p | p in s.ledger.projects :: p < s.ledger.nextProject
    ensures RowsUntouched(s.ledger, UpdateProject(s, c, id, dto).state.ledger)
  {
    hide CodeTaken, EdgesAccepted, IsDirectReport, WithProjectManagers, WithProjectEmployees;
  }

  lemma DeleteProjectTouches(s: State, c: Caller, id: int)
    requires forall p | p in s.ledger.projects :: p < s.ledger.nextProject
    ensures RowsUntouched(s.ledger, DeleteProject(s, c, id).state.ledger)
  {
    hide WithProjectManagers, WithProjectEmployees;
  }

  lemma RowsUntouchedSound(l: Ledger, l': Ledger)
    requires AddsUp(l) && RowsUntouched(l, l')
    ensures AddsUp(l') && ApprovedRows(l') == ApprovedRows(l)
    ensures forall p | p in l'.projects && p !in l.projects :: ApprovedHours(l', p) == 0.0
  {
    forall e | e in l'.entries ensures EntryOk(l', e) {
      assert EntryOk(l, e);
    }
    forall p | p in l'.projects && p !in l.projects ensures ApprovedHours(l', p) == 0.0 {
      FilterMembers(l.entries, InApproved(l.timesheets));
      forall e | e in ApprovedRows(l') ensures OnProject(p)(e) == 0.0 {
        assert EntryOk(l, e);
      }
      SumZero(ApprovedRows(l'), OnProject(p));
    }
  }

  // ---- Every operation ----

  lemma SheetOpSound(s: State, op: Op)
    requires Legal(s, op) && AddsUp(s.ledger) && !IsStaffOp(op) && !op.OpApprove?
    ensures SoundChange(s.ledger, Apply(s, op).state.ledger, Subject(s, op))
  {
    hide SoundChange, AddsUp;
    match op
    case OpCreateTimesheet(c, date, today) => CreateTimesheetSound(s, c, date, today);
    case OpUpdateTimesheet(c, id, newStart) => UpdateTimesheetSound(s, c, id, newStart);
    case OpDeleteTimesheet(c, id) => DeleteTimesheetSound(s, c, id);
    case OpSubmit(c, id) => SubmitSound(s, c, id);
    case OpCopyWeek(_, _, _, _, _) => CopyWeekSound(s, op);
    case OpCreateEntry(c, id, dto) => CreateEntrySound(s, c, id, dto);
    case OpUpdateEntry(c, id, entryId, dto) => UpdateEntrySound(s, c, id, entryId, dto);
    case OpDeleteEntry(c, id, entryId) => DeleteEntrySound(s, c, id, entryId);
    case OpReject(c, id, reason) => RejectSound(s, c, id, reason);
  }

  /** Every operation keeps the stored sums, and the used hours exact. */
  lemma StepSound(s: State, op: Op)
    requires Legal(s, op) && AddsUp(s.ledger)
    ensures AddsUp(Apply(s, op).state.ledger)
    ensures UsedExact(s.ledger) ==> UsedExact(Apply(s, op).state.ledger)
  {
    var l' := Apply(s, op).state.ledger;
    hide Apply, AddsUp;
    if IsStaffOp(op) {
      StaffOpTouchesNoRow(s, op);
      RowsUntouchedSound(s.ledger, l');
    } else if op.OpApprove? {
      ApproveSound(s, op.c, op.id, op.now);
      ApplyApprove(s, op);
    } else {
      SheetOpSound(s, op);
    }
  }

  lemma ApplyApprove(s: State, op: Op)
    requires Legal(s, op) && op.OpApprove?
    ensures Apply(s, op) == ApproveTimesheet(s, op.c, op.id, op.now)
  {
  }

  /** A successful entry operation leaves right totals even when the stored ones were stale before. */
  lemma EntryOpRepairsTotals(s: State, op: Op)
    requires Legal(s, op) && (op.OpCreateEntry? || op.OpUpdateEntry? || op.OpDeleteEntry?)
    requires !Apply(s, op).reply.Failed?
    ensures var l' := Apply(s, op).state.ledger;
            op.id in l'.timesheets && TotalsOk(l'.timesheets[op.id], SheetRows(l'.entries, op.id))
  {
    hide Filter, SchemaAccepts, SheetRows, HoursOf, BillableHoursOf;
  }
}
