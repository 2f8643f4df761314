/** Ledgers that differ in stored sums only, timesheet totals and used hours: no operation can tell them apart. */
module StoredSums {
  import opened Common
  import opened Rows
  import opened Weeks
  import opened Schema
  import opened Timesheets
  import opened Approvals
  import opened People
  import opened LedgerLaws
  import opened Operations

  // ---- Ledgers that differ in stored sums only ----

  predicate SameRowButTotals(a: Timesheet, b: Timesheet) {
    b == a.(totalHours := b.totalHours, billableHours := b.billableHours)
  }

  predicate SameSheets(a: map<int, Timesheet>, b: map<int, Timesheet>) {
    a.Keys == b.Keys && forall t | t in a :: SameRowButTotals(a[t], b[t])
  }

  /** The same project, with the same used hours if `used` says so. */
  predicate SameProject(a: Project, b: Project, used: bool) {
    b == a.(usedHours := if used then a.usedHours else b.usedHours)
  }

  predicate SameProjects(a: map<int, Project>, b: map<int, Project>, used: bool) {
    a.Keys == b.Keys && forall p | p in a :: SameProject(a[p], b[p], used)
  }

  /** The same but for the totals of timesheets and, unless `used`, the used hours of projects. */
  predicate SameButSums(l: Ledger, l': Ledger, used: bool) {
    && l' == l.(timesheets := l'.timesheets, projects := l'.projects)
    && SameSheets(l.timesheets, l'.timesheets) && SameProjects(l.projects, l'.projects, used)
  }

  lemma UsedSame(l: Ledger, l': Ledger)
    requires SameButSums(l, l', true)
    ensures l'.projects == l.projects
  {
    assert forall p | p in l.projects :: SameProject(l.projects[p], l'.projects[p], true);
  }

  predicate SameState(s: State, s': State, used: bool) {
    s' == s.(ledger := s'.ledger) && SameButSums(s.ledger, s'.ledger, used)
  }

  /** Every timesheet with the totals its entries have. */
  function Refresh(l: Ledger): Ledger {
    l.(timesheets := map t | t in l.timesheets ::
         l.timesheets[t].(totalHours := HoursOf(SheetRows(l.entries, t)),
                          billableHours := BillableHoursOf(SheetRows(l.entries, t))))
  }

  function Refreshed(s: State): State {
    s.(ledger := Refresh(s.ledger))
  }

  lemma RefreshSame(l: Ledger, l': Ledger)
    requires SameButSums(l, l', true)
    ensures Refresh(l) == Refresh(l')
  {
    hide SheetRows, HoursOf, BillableHoursOf;
    forall t | t in l.timesheets ensures SameRowButTotals(l.timesheets[t], l'.timesheets[t]) {
    }
    assert Refresh(l).timesheets == Refresh(l').timesheets;
    UsedSame(l, l');
  }

  lemma RefreshDiffersInSums(l: Ledger)
    ensures SameButSums(l, Refresh(l), true)
  {
    hide SheetRows, HoursOf, BillableHoursOf;
  }

  lemma RefreshFixed(l: Ledger)
    requires SheetsOk(l)
    ensures Refresh(l) == l
  {
    hide SheetRows, HoursOf, BillableHoursOf;
    forall t | t in l.timesheets ensures Refresh(l).timesheets[t] == l.timesheets[t] {
      assert TotalsOk(l.timesheets[t], SheetRows(l.entries, t));
    }
    assert Refresh(l).timesheets == l.timesheets;
  }

  // ---- No operation looks at the stored sums ----

  lemma LegalIgnoresSums(s: State, s': State, op: Op, used: bool)
    requires SameState(s, s', used)
    ensures Legal(s, op) == Legal(s', op)
  {
    if op.OpCopyWeek? {
      WeeksIgnoreSums(s.ledger, s'.ledger, op.c, op.previous, GetWeekStart(op.date, WorkWeekStart(s, op.c.org)),
          op.existing, used);
    }
    hide IsLatest, IsExisting;
  }

  lemma WeeksIgnoreSums(l: Ledger, l': Ledger, c: Caller, previous: Option<int>, week: int, existing: Option<int>,
      used: bool)
    requires SameButSums(l, l', used)
    ensures IsLatest(l, c, previous) == IsLatest(l', c, previous)
    ensures IsExisting(l, c, week, existing) == IsExisting(l', c, week, existing)
    ensures WeekTaken(l, c, week) == WeekTaken(l', c, week)
  {
    forall t | t in l.timesheets
      ensures IsCandidate(l.timesheets[t], c) == IsCandidate(l'.timesheets[t], c)
      ensures IsWeekOf(l.timesheets[t], c, week) == IsWeekOf(l'.timesheets[t], c, week)
      ensures l.timesheets[t].weekStart == l'.timesheets[t].weekStart
    {
    }
    assert forall t :: t in l.timesheets <==> t in l'.timesheets;
    hide SameButSums, SameSheets, IsCandidate;
  }

  /** Same answer, and the same tables but for stored sums. */
  predicate SameOutcome(o: Outcome, o': Outcome, used: bool) {
    o.reply == o'.reply && SameState(o.state, o'.state, used)
  }

  lemma AssignManagersIgnoresSums(s: State, s': State, employee: int, ids: seq<int>, org: int, used: bool)
    requires SameState(s, s', used)
    ensures SameOutcome(AssignManagers(s, employee, ids, org), AssignManagers(s', employee, ids, org), used)
  {
    hide SameSheets, ManagersRefused, WithManagers;
  }

  lemma HandOutIgnoresSums(s: State, s': State, c: Caller, employee: int, ids: seq<int>, used: bool)
    requires SameState(s, s', used)
    ensures SameOutcome(HandOutProjects(s, c, employee, ids), HandOutProjects(s', c, employee, ids), used)
  {
    hide SameSheets;
    assert forall id :: ValidProject(s.ledger, id, c.org) == ValidProject(s'.ledger, id, c.org);
    assert forall id :: Manages(s, c, id) == Manages(s', c, id);
    hide ValidProject, Manages;
  }

  lemma CreateUserIgnoresSums(s: State, s': State, op: Op, used: bool)
    requires op.OpCreateUser? && SameState(s, s', used)
    ensures SameOutcome(CreateUser(s, op.c, op.email, op.role, op.managerIds, op.projectIds),
                        CreateUser(s', op.c, op.email, op.role, op.managerIds, op.projectIds), used)
  {
    hide SameButSums, AssignManagers, HandOutProjects, AddUser, EmailTaken;
    var id := s.staff.nextUser;
    var user := User(op.c.org, op.email, if op.role.Some? then op.role.value else EMPLOYEE, true);
    var b, b' := s.(staff := AddUser(s.staff, user)), s'.(staff := AddUser(s'.staff, user));
    var managers := if op.c.role == MANAGER && op.managerIds == [] then [op.c.user] else op.managerIds;
    AssignManagersIgnoresSums(b, b', id, managers, op.c.org, used);
    var o := if managers == [] then Outcome(b, Done) else AssignManagers(b, id, managers, op.c.org);
    var o' := if managers == [] then Outcome(b', Done) else AssignManagers(b', id, managers, op.c.org);
    HandOutIgnoresSums(o.state, o'.state, op.c, id, op.projectIds, used);
  }

  lemma UpdateUserIgnoresSums(s: State, s': State, c: Caller, id: int, dto: UserUpdate, used: bool)
    requires SameState(s, s', used)
    ensures SameOutcome(UpdateUser(s, c, id, dto), UpdateUser(s', c, id, dto), used)
  {
    hide SameButSums, AssignManagers, HandOutProjects, RewriteUser, CanManageUser;
    if id in s.staff.users {
      var b, b' := s.(staff := RewriteUser(s.staff, id, dto)), s'.(staff := RewriteUser(s'.staff, id, dto));
      var o, o' := Outcome(b, Done), Outcome(b', Done);
      if dto.managerIds.Some? {
        AssignManagersIgnoresSums(b, b', id, dto.managerIds.value, c.org, used);
        o, o' := AssignManagers(b, id, dto.managerIds.value, c.org),
            AssignManagers(b', id, dto.managerIds.value, c.org);
      }
      if dto.projectIds.Some? {
        HandOutIgnoresSums(o.state, o'.state, c, id, dto.projectIds.value, used);
      }
    }
  }

  lemma CodeIgnoresSums(l: Ledger, l': Ledger, org: int, code: string, except: Option<int>, used: bool)
    requires SameButSums(l, l', used)
    ensures CodeTaken(l, org, code, except) == CodeTaken(l', org, code, except)
  {
    hide SameSheets;
  }

  lemma CreateProjectIgnoresSums(s: State, s': State, c: Caller, dto: ProjectInput, used: bool)
    requires SameState(s, s', used)
    ensures SameOutcome(CreateProject(s, c, dto), CreateProject(s', c, dto), used)
  {
    CodeIgnoresSums(s.ledger, s'.ledger, c.org, dto.code, None, used);
    hide SameSheets, CodeTaken, EdgesAccepted, WithProjectManagers, WithProjectEmployees, IsDirectReport;
  }

  lemma MergedProjectsSame(l: Ledger, l': Ledger, id: int, dto: ProjectUpdate, used: bool)
    requires SameButSums(l, l', used) && id in l.projects && id in l'.projects
    ensures SameButSums(l.(projects := l.projects[id := MergeProject(l.projects[id], dto)]),
                        l'.(projects := l'.projects[id := MergeProject(l'.projects[id], dto)]), used)
  {
    hide SameSheets;
    assert SameProject(l.projects[id], l'.projects[id], used);
  }

  lemma ProjectRowSame(l: Ledger, l': Ledger, id: int, used: bool)
    requires SameButSums(l, l', used)
    ensures id in l.projects <==> id in l'.projects
    ensures id in l.projects ==>
              l'.projects[id].org == l.projects[id].org && l'.projects[id].code == l.projects[id].code
  {
    hide SameSheets;
  }

  lemma UpdateProjectIgnoresSums(s: State, s': State, c: Caller, id: int, dto: ProjectUpdate, used: bool)
    requires SameState(s, s', used)
    ensures SameOutcome(UpdateProject(s, c, id, dto), UpdateProject(s', c, id, dto), used)
  {
    if dto.code.Some? {
      CodeIgnoresSums(s.ledger, s'.ledger, c.org, dto.code.value, Some(id), used);
    }
    ProjectRowSame(s.ledger, s'.ledger, id, used);
    if id in s.ledger.projects {
      MergedProjectsSame(s.ledger, s'.ledger, id, dto, used);
    }
    hide SameButSums, CodeTaken, EdgesAccepted, WithProjectManagers, WithProjectEmployees, IsDirectReport, MergeProject;
  }

  lemma DeleteProjectIgnoresSums(s: State, s': State, c: Caller, id: int, used: bool)
    requires SameState(s, s', used)
    ensures SameOutcome(DeleteProject(s, c, id), DeleteProject(s', c, id), used)
  {
    hide SameSheets, WithProjectManagers, WithProjectEmployees;
  }

  lemma RegisterIgnoresSums(s: State, s': State, email: string, used: bool)
    requires SameState(s, s', used)
    ensures SameOutcome(Register(s, email), Register(s', email), used)
  {
    hide SameButSums, EmailTaken, AddUser;
  }

  lemma SettingsIgnoreSums(s: State, s': State, c: Caller, row: Settings, used: bool)
    requires SameState(s, s', used)
    ensures SameOutcome(UpdateSettings(s, c, row), UpdateSettings(s', c, row), used)
  {
    hide SameButSums;
  }

  lemma SetManagersIgnoresSums(s: State, s': State, c: Caller, id: int, ids: seq<int>, used: bool)
    requires SameState(s, s', used)
    ensures SameOutcome(SetUserManagers(s, c, id, ids), SetUserManagers(s', c, id, ids), used)
  {
    hide SameButSums, AssignManagers;
    AssignManagersIgnoresSums(s, s', id, ids, c.org, used);
  }

  lemma DeactivateIgnoresSums(s: State, s': State, c: Caller, id: int, used: bool)
    requires SameState(s, s', used)
    ensures SameOutcome(DeactivateUser(s, c, id), DeactivateUser(s', c, id), used)
  {
    hide SameButSums, CanManageUser, WriteUser;
  }

  lemma StaffOpsIgnoreSums(s: State, s': State, op: Op, used: bool)
    requires IsStaffOp(op) && SameState(s, s', used) && Legal(s, op) && Legal(s', op)
    ensures SameOutcome(Apply(s, op), Apply(s', op), used)
  {
    hide CreateUser, UpdateUser, Register, SetUserManagers, DeactivateUser, UpdateSettings;
    hide CreateProject, UpdateProject, DeleteProject, IsLatest, IsExisting, Authentic, SameState, SameOutcome;
    match op
    case OpRegister(email) => RegisterIgnoresSums(s, s', email, used);
    case OpSettings(c, row) => SettingsIgnoreSums(s, s', c, row, used);
    case OpSetManagers(c, id, ids) => SetManagersIgnoresSums(s, s', c, id, ids, used);
    case OpDeactivateUser(c, id) => DeactivateIgnoresSums(s, s', c, id, used);
    case OpCreateUser(_, _, _, _, _) => CreateUserIgnoresSums(s, s', op, used);
    case OpUpdateUser(c, id, user) => UpdateUserIgnoresSums(s, s', c, id, user, used);
    case OpCreateProject(c, project) => CreateProjectIgnoresSums(s, s', c, project, used);
    case OpUpdateProject(c, id, change) => UpdateProjectIgnoresSums(s, s', c, id, change, used);
    case OpDeleteProject(c, id) => DeleteProjectIgnoresSums(s, s', c, id, used);
  }

  lemma RowIgnoresSums(l: Ledger, l': Ledger, id: int, c: Caller, used: bool)
    requires SameButSums(l, l', used)
    ensures Owns(l, id, c) == Owns(l', id, c)
    ensures id in l.timesheets <==> id in l'.timesheets
    ensures id in l.timesheets ==> SameRowButTotals(l.timesheets[id], l'.timesheets[id])
  {
  }

  lemma RecalculateIgnoresSums(l: Ledger, l': Ledger, id: int, used: bool)
    requires SameButSums(l, l', used) && id in l.timesheets && id in l'.timesheets
    ensures SameButSums(Recalculate(l, id), Recalculate(l', id), used)
  {
    hide SheetRows, HoursOf, BillableHoursOf;
  }

  lemma CreateTimesheetIgnoresSums(s: State, s': State, c: Caller, date: int, today: int, used: bool)
    requires SameState(s, s', used)
    ensures SameOutcome(CreateTimesheet(s, c, date, today), CreateTimesheet(s', c, date, today), used)
  {
    WeeksIgnoreSums(s.ledger, s'.ledger, c, None, GetWeekStart(date, WorkWeekStart(s, c.org)), None, used);
    hide WeekTaken, GetWeekStart;
  }

  lemma UpdateTimesheetIgnoresSums(s: State, s': State, c: Caller, id: int, date: Option<int>, used: bool)
    requires SameState(s, s', used)
    ensures SameOutcome(UpdateTimesheet(s, c, id, date), UpdateTimesheet(s', c, id, date), used)
  {
    RowIgnoresSums(s.ledger, s'.ledger, id, c, used);
    hide Owns;
  }

  lemma DeleteTimesheetIgnoresSums(s: State, s': State, c: Caller, id: int, used: bool)
    requires SameState(s, s', used)
    ensures SameOutcome(DeleteTimesheet(s, c, id), DeleteTimesheet(s', c, id), used)
  {
    RowIgnoresSums(s.ledger, s'.ledger, id, c, used);
    hide Owns;
  }

  lemma SubmitIgnoresSums(s: State, s': State, c: Caller, id: int, used: bool)
    requires SameState(s, s', used)
    ensures SameOutcome(SubmitTimesheet(s, c, id), SubmitTimesheet(s', c, id), used)
  {
    RowIgnoresSums(s.ledger, s'.ledger, id, c, used);
    hide Owns;
  }

  lemma RefusalIgnoresSums(s: State, s': State, c: Caller, id: int, used: bool)
    requires SameState(s, s', used)
    ensures Refusal(s, c, id) == Refusal(s', c, id)
  {
    RowIgnoresSums(s.ledger, s'.ledger, id, c, used);
    hide Owns, IsDirectReport;
  }

  lemma ApproveIgnoresSums(s: State, s': State, c: Caller, id: int, now: int, used: bool)
    requires SameState(s, s', used)
    ensures SameOutcome(ApproveTimesheet(s, c, id, now), ApproveTimesheet(s', c, id, now), used)
  {
    RefusalIgnoresSums(s, s', c, id, used);
    RowIgnoresSums(s.ledger, s'.ledger, id, c, used);
    hide Owns, Charge, SheetRows, IsDirectReport;
  }

  lemma RejectIgnoresSums(s: State, s': State, c: Caller, id: int, reason: string, used: bool)
    requires SameState(s, s', used)
    ensures SameOutcome(RejectTimesheet(s, c, id, reason), RejectTimesheet(s', c, id, reason), used)
  {
    RefusalIgnoresSums(s, s', c, id, used);
    RowIgnoresSums(s.ledger, s'.ledger, id, c, used);
    hide Owns, IsDirectReport;
  }

  lemma NewEntryIgnoresSums(s: State, s': State, c: Caller, id: int, dto: EntryInput, used: bool)
    requires SameState(s, s', used)
    ensures NewEntryRefusal(s, c, id, dto) == NewEntryRefusal(s', c, id, dto)
  {
    RowIgnoresSums(s.ledger, s'.ledger, id, c, used);
    hide Owns, SchemaAccepts, Blank, Or, SameSheets;
  }

  lemma CreateEntryIgnoresSums(s: State, s': State, c: Caller, id: int, dto: EntryInput, used: bool)
    requires SameState(s, s', used)
    ensures SameOutcome(CreateEntry(s, c, id, dto), CreateEntry(s', c, id, dto), used)
  {
    NewEntryIgnoresSums(s, s', c, id, dto, used);
    var l, l' := s.ledger, s'.ledger;
    if NewEntryRefusal(s, c, id, dto).None? {
      var entries := l.entries + [NewEntry(l.nextEntry, id, dto)];
      hide NewEntryRefusal, NewEntry, Recalculate;
      RecalculateIgnoresSums(l.(entries := entries, nextEntry := l.nextEntry + 1),
                               l'.(entries := entries, nextEntry := l.nextEntry + 1), id, used);
    }
  }

  lemma UpdateEntryIgnoresSums(s: State, s': State, c: Caller, id: int, entryId: int, dto: EntryInput, used: bool)
    requires SameState(s, s', used)
    ensures SameOutcome(UpdateEntry(s, c, id, entryId, dto), UpdateEntry(s', c, id, entryId, dto), used)
  {
    var l, l' := s.ledger, s'.ledger;
    RowIgnoresSums(l, l', id, c, used);
    hide Owns, SchemaAccepts, MergeEntry, Recalculate, SameSheets;
    var o := UpdateEntry(s, c, id, entryId, dto);
    if o.reply.Done? {
      var at := FindEntry(l.entries, entryId, id).value;
      var row := MergeEntry(l.entries[at], dto);
      RecalculateIgnoresSums(Splice(l, at, [row]), Splice(l', at, [row]), id, used);
    }
  }

  lemma DeleteEntryIgnoresSums(s: State, s': State, c: Caller, id: int, entryId: int, used: bool)
    requires SameState(s, s', used)
    ensures SameOutcome(DeleteEntry(s, c, id, entryId), DeleteEntry(s', c, id, entryId), used)
  {
    var l, l' := s.ledger, s'.ledger;
    RowIgnoresSums(l, l', id, c, used);
    hide Owns, Recalculate, SameSheets;
    var o := DeleteEntry(s, c, id, entryId);
    if o.reply.Done? {
      var at := FindEntry(l.entries, entryId, id).value;
      RecalculateIgnoresSums(Splice(l, at, []), Splice(l', at, []), id, used);
    }
  }

  lemma WriteCopiesIgnoresSums(l: Ledger, l': Ledger, id: int, source: seq<Entry>, used: bool)
    requires SameButSums(l, l', used) && id in l.timesheets && id in l'.timesheets
    ensures SameButSums(WriteCopies(l, id, source), WriteCopies(l', id, source), used)
  {
    hide HoursOf, BillableHoursOf, Copies;
  }

  lemma CopyIgnoresSums(s: State, s': State, c: Caller, date: int, force: bool, previous: Option<int>,
      existing: Option<int>, used: bool)
    requires SameState(s, s', used)
    requires existing.Some? ==> existing.value in s.ledger.timesheets && existing.value in s'.ledger.timesheets
    ensures SameOutcome(CopyPreviousWeek(s, c, date, force, previous, existing),
                        CopyPreviousWeek(s', c, date, force, previous, existing), used)
  {
    var l, l' := s.ledger, s'.ledger;
    hide WriteCopies, GetWeekStart, IsAssigned;
    if previous.Some? {
      var source := SheetRows(l.entries, previous.value);
      FilterSame(source, StillAssigned(s, c), StillAssigned(s', c)) by { AssignedSame(s, s', c, used); }
      var kept := Filter(source, StillAssigned(s, c));
      if existing.Some? {
        RowIgnoresSums(l, l', existing.value, c, used);
        WriteCopiesIgnoresSums(l, l', existing.value, kept, used);
      } else {
        var sheet := NewSheet(c, GetWeekStart(date, WorkWeekStart(s, c.org)));
        WriteCopiesIgnoresSums(AddSheet(l, sheet), AddSheet(l', sheet), l.nextSheet, kept, used);
      }
    }
  }

  lemma AssignedSame(s: State, s': State, c: Caller, used: bool)
    requires SameState(s, s', used)
    ensures forall e :: StillAssigned(s, c)(e) == StillAssigned(s', c)(e)
  {
    hide SameSheets;
  }

  /** No operation looks at the stored totals of timesheets or the used hours of projects. */
  lemma ApplyIgnoresSums(s: State, s': State, op: Op, used: bool)
    requires SameState(s, s', used) && Legal(s, op) && Legal(s', op)
    ensures SameOutcome(Apply(s, op), Apply(s', op), used)
  {
    hide SameState, SameOutcome, IsLatest, Authentic;
    hide CreateTimesheet, UpdateTimesheet, DeleteTimesheet, SubmitTimesheet, CopyPreviousWeek;
    hide CreateEntry, UpdateEntry, DeleteEntry, ApproveTimesheet, RejectTimesheet;
    match op
    case OpCreateTimesheet(c, date, today) => CreateTimesheetIgnoresSums(s, s', c, date, today, used);
    case OpUpdateTimesheet(c, id, newStart) => UpdateTimesheetIgnoresSums(s, s', c, id, newStart, used);
    case OpDeleteTimesheet(c, id) => DeleteTimesheetIgnoresSums(s, s', c, id, used);
    case OpSubmit(c, id) => SubmitIgnoresSums(s, s', c, id, used);
    case OpCopyWeek(c, date, force, previous, existing) =>
        CopyIgnoresSums(s, s', c, date, force, previous, existing, used);
    case OpCreateEntry(c, id, dto) => CreateEntryIgnoresSums(s, s', c, id, dto, used);
    case OpUpdateEntry(c, id, entryId, dto) => UpdateEntryIgnoresSums(s, s', c, id, entryId, dto, used);
    case OpDeleteEntry(c, id, entryId) => DeleteEntryIgnoresSums(s, s', c, id, entryId, used);
    case OpApprove(c, id, now) => ApproveIgnoresSums(s, s', c, id, now, used);
    case OpReject(c, id, reason) => RejectIgnoresSums(s, s', c, id, reason, used);
    case _ => hide Apply, Legal; StaffOpsIgnoreSums(s, s', op, used);
  }

  lemma CommitIgnoresSums(l: Ledger, l': Ledger, id: int, approver: int, now: int, used: bool)
    requires SameButSums(l, l', used) && id in l.timesheets && id in l'.timesheets
    ensures SameButSums(MarkApproved(l, id, approver, now), MarkApproved(l', id, approver, now), used)
  {
  }

  lemma SubjectIgnoresSums(s: State, s': State, op: Op, used: bool)
    requires SameState(s, s', used)
    ensures Subject(s, op) == Subject(s', op)
  {
    hide SameSheets;
  }

  lemma RecalculateDiffersInSums(l: Ledger, id: int)
    requires id in l.timesheets
    ensures SameButSums(l, Recalculate(l, id), true)
  {
    hide SheetRows, HoursOf, BillableHoursOf;
  }
}
