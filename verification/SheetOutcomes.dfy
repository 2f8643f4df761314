/**
 What every call on a timesheet answers, and the tables it leaves: approval, rejection, birth, update,
 deletion, submission and the weekly copy, said in terms of the rows alone. Each law covers every
 caller, argument and state, and every answer comes with its reason.
 */
module SheetOutcomes {
  import opened Common
  import opened Calendar
  import opened Rows
  import opened Weeks
  import opened Schema
  import opened Timesheets
  import opened Approvals
  import opened Operations

  /** The same database with this row as timesheet `id`. */
  function WithRow(s: State, id: int, row: Timesheet): State {
    s.(ledger := s.ledger.(timesheets := s.ledger.timesheets[id := row]))
  }

  // ---- Decisions ----

  predicate InOrg(s: State, id: int, org: int) {
    id in s.ledger.timesheets && s.ledger.timesheets[id].org == org
  }

  /** An administrator, or a user of the organisation with a manager edge to the owner. */
  predicate Entitled(s: State, c: Caller, owner: int) {
    || c.role == ADMIN
    || (c.role == MANAGER && (c.user, owner) in s.staff.manages
        && c.user in s.staff.users && s.staff.users[c.user].org == c.org)
  }

  /** The answer of a decision on a timesheet, with its reason. */
  predicate DecisionAnswer(s: State, c: Caller, id: int, reply: Reply) {
    && (reply.Done? <==>
          && InOrg(s, id, c.org) && s.ledger.timesheets[id].status == SUBMITTED
          && s.ledger.timesheets[id].user != c.user && Entitled(s, c, s.ledger.timesheets[id].user))
    && (reply == Failed(Forbidden) <==> c.role == EMPLOYEE)
    && (reply == Failed(NotFound) <==> c.role != EMPLOYEE && !InOrg(s, id, c.org))
    && (reply == Failed(SelfApproval) <==>
          c.role != EMPLOYEE && InOrg(s, id, c.org) && s.ledger.timesheets[id].user == c.user)
    && (reply == Failed(NotDirectReport) <==>
          && c.role == MANAGER && InOrg(s, id, c.org) && s.ledger.timesheets[id].user != c.user
          && !Entitled(s, c, s.ledger.timesheets[id].user))
    && (reply == Failed(InvalidTransition) <==>
          && InOrg(s, id, c.org) && s.ledger.timesheets[id].status != SUBMITTED
          && s.ledger.timesheets[id].user != c.user && Entitled(s, c, s.ledger.timesheets[id].user))
  }

  /** An entry's hours, if it is on this timesheet and project. */
  function HoursFor(sheet: int, project: int): Entry -> real {
    (e: Entry) => if e.sheet == sheet && e.project == project then e.totalHours else 0.0
  }

  lemma ShareOfSheet(entries: seq<Entry>, id: int, p: int)
    ensures Sum(SheetRows(entries, id), OnProject(p)) == Sum(entries, HoursFor(id, p))
  {
    FilterMembers(entries, InSheet(id));
    SumSame(SheetRows(entries, id), OnProject(p), HoursFor(id, p));
    SumFilter(entries, InSheet(id), HoursFor(id, p));
  }

  /**
   A timesheet is approved exactly if it is a submitted one of the organisation and the caller, not
   its owner, is an administrator or its owner's manager. Its row records who and when, each project
   gets the hours booked on it there, and nothing else changes. Any other call changes nothing.
   */
  lemma ApproveExactly(s: State, c: Caller, id: int, now: int)
    ensures DecisionAnswer(s, c, id, ApproveTimesheet(s, c, id, now).reply)
    ensures var l, o := s.ledger, ApproveTimesheet(s, c, id, now);
            if !o.reply.Done? then o.state == s
            else
              var l' := o.state.ledger;
              && o.state.(ledger := l'.(projects := l.projects))
                 == WithRow(s, id, l.timesheets[id].(status := APPROVED, approvedBy := Some(c.user),
                                                     approvedAt := Some(now)))
              && l'.projects.Keys == l.projects.Keys
              && forall p | p in l.projects ::
                   l'.projects[p] == l.projects[p].(usedHours := l.projects[p].usedHours
                                                                 + Sum(l.entries, HoursFor(id, p)))
  {
    hide SheetRows, Sum;
    forall p ensures Sum(SheetRows(s.ledger.entries, id), OnProject(p)) == Sum(s.ledger.entries, HoursFor(id, p)) {
      ShareOfSheet(s.ledger.entries, id, p);
    }
  }

  /** A rejection is accepted from the same callers on the same timesheets, with a reason, which is stored. */
  lemma RejectExactly(s: State, c: Caller, id: int, reason: string)
    ensures var o := RejectTimesheet(s, c, id, reason);
            && (reason != "" ==> DecisionAnswer(s, c, id, o.reply))
            && (reason == "" ==> o.reply == Failed(if c.role == EMPLOYEE then Forbidden else ValidationError))
            && o.state == if !o.reply.Done? then s
                          else WithRow(s, id, s.ledger.timesheets[id].(status := REJECTED,
                                                                       rejectedReason := Some(reason)))
  {
  }

  // ---- Birth ----

  /** The day of the week that weeks of the organisation start on, as `getDay` numbers it. */
  function FirstWeekDayOf(s: State, org: int): int {
    if org in s.settings && s.settings[org].workWeekStart == Sunday then 0 else 1
  }

  /** `week` is the start of the week that holds `date`. */
  predicate IsStartOf(s: State, org: int, week: int, date: int) {
    week <= date <= week + 6 && WeekDay(week) == FirstWeekDayOf(s, org)
  }

  lemma StartOf(s: State, org: int, date: int)
    ensures forall week :: IsStartOf(s, org, week, date) <==> week == GetWeekStart(date, WorkWeekStart(s, org))
  {
    forall week ensures IsStartOf(s, org, week, date) <==> week == GetWeekStart(date, WorkWeekStart(s, org)) {
      WeekStartUnique(date, WorkWeekStart(s, org), week);
    }
  }

  /** A timesheet of the caller's in that organisation. */
  predicate Mine(s: State, c: Caller, id: int) {
    id in s.ledger.timesheets && s.ledger.timesheets[id].user == c.user && s.ledger.timesheets[id].org == c.org
  }

  /** The caller has a timesheet that starts on this day. */
  predicate HasWeek(s: State, c: Caller, week: int) {
    exists t | t in s.ledger.timesheets :: Mine(s, c, t) && s.ledger.timesheets[t].weekStart == week
  }

  function EmptyDraft(c: Caller, week: int): Timesheet {
    Timesheet(c.org, c.user, week, week + 6, DRAFT, 0.0, 0.0, None, None, None)
  }

  /**
   There is exactly one week to create a timesheet for; it is created exactly if the caller has none
   that starts then, and the week has not begun before today or the settings allow it.
   */
  lemma CreateTimesheetExactly(s: State, c: Caller, date: int, today: int) returns (week: int)
    ensures IsStartOf(s, c.org, week, date) && forall w :: IsStartOf(s, c.org, w, date) ==> w == week
    ensures var l, o := s.ledger, CreateTimesheet(s, c, date, today);
            var inTime := today <= week || (c.org in s.settings && s.settings[c.org].allowBackdated);
            && (o.reply.Created? <==> inTime && !HasWeek(s, c, week))
            && (o.reply == Failed(BackdatingNotAllowed) <==> !inTime)
            && (o.reply == Failed(Conflict) <==> inTime && HasWeek(s, c, week))
            && (if o.reply.Created?
                then
                  && o.reply.id == l.nextSheet
                  && o.state.(ledger := o.state.ledger.(nextSheet := l.nextSheet))
                     == WithRow(s, l.nextSheet, EmptyDraft(c, week))
                  && o.state.ledger.nextSheet == l.nextSheet + 1
                else o.state == s)
  {
    week := GetWeekStart(date, WorkWeekStart(s, c.org));
    StartOf(s, c.org, date);
    TakenExactly(s, c, week);
    hide GetWeekStart, WeekTaken, HasWeek;
  }

  lemma TakenExactly(s: State, c: Caller, week: int)
    ensures WeekTaken(s.ledger, c, week) <==> HasWeek(s, c, week)
  {
    assert forall t | t in s.ledger.timesheets ::
      IsWeekOf(s.ledger.timesheets[t], c, week) <==> Mine(s, c, t) && s.ledger.timesheets[t].weekStart == week;
  }

  // ---- Changes by the owner ----

  /** Only the owner's drafts can be updated; the week start is written, and nothing else. */
  lemma UpdateTimesheetExactly(s: State, c: Caller, id: int, date: Option<int>)
    ensures var o := UpdateTimesheet(s, c, id, date);
            && (o.reply.Done? <==> Mine(s, c, id) && s.ledger.timesheets[id].status == DRAFT)
            && (o.reply == Failed(NotFound) <==> !Mine(s, c, id))
            && (o.reply == Failed(ImmutableTimesheet) <==> Mine(s, c, id) && s.ledger.timesheets[id].status != DRAFT)
            && (if !o.reply.Done? || date.None? then o.state == s
                else o.state == WithRow(s, id, s.ledger.timesheets[id].(weekStart := date.value)))
  {
    if Mine(s, c, id) && date.None? {
      assert s.ledger.timesheets[id := s.ledger.timesheets[id]] == s.ledger.timesheets;
    }
  }

  /** Only the owner's drafts can be deleted: the row goes, with exactly its own entries. */
  lemma DeleteTimesheetExactly(s: State, c: Caller, id: int)
    ensures var l, o := s.ledger, DeleteTimesheet(s, c, id);
            && (o.reply.Done? <==> Mine(s, c, id) && l.timesheets[id].status == DRAFT)
            && (o.reply == Failed(NotFound) <==> !Mine(s, c, id))
            && (o.reply == Failed(ImmutableTimesheet) <==> Mine(s, c, id) && l.timesheets[id].status != DRAFT)
            && (if !o.reply.Done? then o.state == s
                else
                  var l' := o.state.ledger;
                  && o.state == s.(ledger := l.(timesheets := l'.timesheets, entries := l'.entries))
                  && id !in l'.timesheets
                  && (forall t | t != id :: (t in l'.timesheets <==> t in l.timesheets)
                        && (t in l.timesheets ==> l'.timesheets[t] == l.timesheets[t]))
                  && (forall e :: e in l'.entries <==> e in l.entries && e.sheet != id)
                  && forall t | t != id :: SheetRows(l'.entries, t) == SheetRows(l.entries, t))
  {
    var entries := s.ledger.entries;
    FilterMembers(entries, NotInSheet(id));
    forall t | t != id ensures SheetRows(Filter(entries, NotInSheet(id)), t) == SheetRows(entries, t) {
      FilterTwice(entries, NotInSheet(id), InSheet(t));
    }
    hide Filter, SheetRows;
  }

  /** The owner's drafts and rejected timesheets can be submitted; a rejection's reason is cleared. */
  lemma SubmitExactly(s: State, c: Caller, id: int)
    ensures var l, o := s.ledger, SubmitTimesheet(s, c, id);
            && (o.reply.Done? <==> Mine(s, c, id) && l.timesheets[id].status != SUBMITTED
                                   && l.timesheets[id].status != APPROVED)
            && (o.reply == Failed(NotFound) <==> !Mine(s, c, id))
            && (o.reply == Failed(InvalidTransition) <==>
                  Mine(s, c, id) && (l.timesheets[id].status == SUBMITTED || l.timesheets[id].status == APPROVED))
            && (if !o.reply.Done? then o.state == s
                else if l.timesheets[id].status == REJECTED
                then o.state == WithRow(s, id, l.timesheets[id].(status := SUBMITTED, rejectedReason := None))
                else o.state == WithRow(s, id, l.timesheets[id].(status := SUBMITTED)))
  {
  }

  // ---- The weekly copy ----

  /** A timesheet a week can be copied from. */
  predicate IsSource(s: State, c: Caller, id: int) {
    && Mine(s, c, id)
    && (s.ledger.timesheets[id].status == SUBMITTED || s.ledger.timesheets[id].status == APPROVED)
  }

  predicate HasSource(s: State, c: Caller) {
    exists t | t in s.ledger.timesheets :: IsSource(s, c, t)
  }

  predicate CopyAllowed(s: State, org: int) {
    org in s.settings && s.settings[org].allowCopyWeek
  }

  /** An EMPLOYEE copies only what is on a project of the organisation that is assigned to them. */
  function Copied(s: State, c: Caller, sheet: int): Entry -> bool {
    (e: Entry) =>
      && e.sheet == sheet
      && (c.role == EMPLOYEE ==> && (e.project, c.user) in s.staff.assignments
                                 && e.project in s.ledger.projects && s.ledger.projects[e.project].org == c.org)
  }

  /** What the two queries in front of a copy may answer. */
  lemma CopyQueries(s: State, op: Op)
    requires op.OpCopyWeek? && Legal(s, op)
    ensures op.previous.Some? <==> HasSource(s, op.c)
    ensures op.previous.Some? ==>
              IsSource(s, op.c, op.previous.value)
              && forall t | t in s.ledger.timesheets && IsSource(s, op.c, t) ::
                   s.ledger.timesheets[t].weekStart <= s.ledger.timesheets[op.previous.value].weekStart
    ensures var week := GetWeekStart(op.date, WorkWeekStart(s, op.c.org));
            && (op.existing.Some? <==> HasWeek(s, op.c, week))
            && (op.existing.Some? ==> Mine(s, op.c, op.existing.value)
                                      && s.ledger.timesheets[op.existing.value].weekStart == week)
  {
    var l := s.ledger;
    var week := GetWeekStart(op.date, WorkWeekStart(s, op.c.org));
    TakenExactly(s, op.c, week);
    hide GetWeekStart, WeekTaken, HasWeek;
    assert forall t | t in l.timesheets :: IsCandidate(l.timesheets[t], op.c) <==> IsSource(s, op.c, t);
  }

  /**
   A week is copied exactly if the settings allow it, the caller has a submitted or approved timesheet,
   and either none of the caller's starts on the target week or the call forces it and that one is a
   draft. In every other case nothing changes, and the answer says which condition failed.
   */
  lemma CopyExactly(s: State, op: Op, week: int)
    requires op.OpCopyWeek? && Legal(s, op) && IsStartOf(s, op.c.org, week, op.date)
    ensures var l, c, o := s.ledger, op.c, Apply(s, op);
            var isDraft := op.existing.Some? && op.existing.value in l.timesheets
                           && l.timesheets[op.existing.value].status == DRAFT;
            var may := CopyAllowed(s, c.org);
            && (o.reply.Copied? <==> may && HasSource(s, c) && (!HasWeek(s, c, week) || (op.force && isDraft)))
            && (o.reply == Failed(CopyWeekDisabled) <==> !may)
            && (o.reply == Failed(NotFound) <==> may && !HasSource(s, c))
            && (o.reply == Failed(Conflict) <==> may && HasSource(s, c) && HasWeek(s, c, week) && !op.force)
            && (o.reply == Failed(ImmutableTimesheet) <==>
                  may && HasSource(s, c) && HasWeek(s, c, week) && op.force && !isDraft)
            && (!o.reply.Copied? ==> o.state == s)
  {
    StartOf(s, op.c.org, op.date);
    CopyQueries(s, op);
    ApplyCopy(s, op);
    hide Apply, GetWeekStart, HasWeek, HasSource, IsLatest, IsExisting, WriteCopies, SheetRows, Filter;
  }

  lemma CopiedRows(s: State, c: Caller, from: int)
    ensures Filter(SheetRows(s.ledger.entries, from), StillAssigned(s, c))
         == Filter(s.ledger.entries, Copied(s, c, from))
  {
    var entries := s.ledger.entries;
    FilterMembers(entries, InSheet(from));
    FilterSame(SheetRows(entries, from), StillAssigned(s, c), Copied(s, c, from));
    FilterTwice(entries, InSheet(from), Copied(s, c, from));
  }

  /** The row a copied entry leaves on the target, time off at its default. */
  function CopyOf(e: Entry, id: int, sheet: int): Entry {
    Entry(id, sheet, e.project, e.billable, e.hours, e.notes,
          [0.0, 0.0, 0.0, 0.0, 0.0, 0.0, 0.0], e.totalHours)
  }

  /** The rows of the source that a copy takes over, in order, as rows of the target. */
  function CopyRows(s: State, c: Caller, from: int, id: int): seq<Entry> {
    var kept := Filter(s.ledger.entries, Copied(s, c, from));
    seq(|kept|, i requires 0 <= i < |kept| => CopyOf(kept[i], s.ledger.nextEntry + i, id))
  }

  /** The row a copy starts from: the caller's timesheet of that week, or else a new draft. */
  function TargetRow(s: State, c: Caller, existing: Option<int>, week: int): Timesheet {
    if existing.Some? && existing.value in s.ledger.timesheets then s.ledger.timesheets[existing.value]
    else EmptyDraft(c, week)
  }

  /** The database with these rows in place of those of timesheet `id`, and that timesheet's totals theirs. */
  function WithCopies(s: State, id: int, row: Timesheet, rows: seq<Entry>, nextSheet: int): State {
    var l := s.ledger;
    var written := row.(totalHours := HoursOf(rows), billableHours := BillableHoursOf(rows));
    s.(ledger := l.(timesheets := l.timesheets[id := written],
                    entries := Filter(l.entries, NotInSheet(id)) + rows,
                    nextEntry := l.nextEntry + |rows|, nextSheet := nextSheet))
  }

  lemma CopyIntoDraft(s: State, c: Caller, from: int, id: int, week: int)
    requires id in s.ledger.timesheets
    ensures s.(ledger := WriteCopies(s.ledger, id, Filter(s.ledger.entries, Copied(s, c, from))))
         == WithCopies(s, id, TargetRow(s, c, Some(id), week), CopyRows(s, c, from, id), s.ledger.nextSheet)
  {
    hide Filter, HoursOf, BillableHoursOf;
    var kept := Filter(s.ledger.entries, Copied(s, c, from));
    assert CopyRows(s, c, from, id) == Copies(kept, id, s.ledger.nextEntry);
  }

  lemma CopyIntoNew(s: State, c: Caller, from: int, week: int)
    ensures var l, id := s.ledger, s.ledger.nextSheet;
            var kept := Filter(l.entries, Copied(s, c, from));
            s.(ledger := WriteCopies(AddSheet(l, NewSheet(c, week)), id, kept))
            == WithCopies(s, id, TargetRow(s, c, None, week), CopyRows(s, c, from, id), id + 1)
  {
    hide Filter, HoursOf, BillableHoursOf;
    var l, id := s.ledger, s.ledger.nextSheet;
    var kept := Filter(l.entries, Copied(s, c, from));
    assert CopyRows(s, c, from, id) == Copies(kept, id, l.nextEntry);
    assert l.timesheets[id := EmptyDraft(c, week)][id := EmptyDraft(c, week)
        .(totalHours := HoursOf(CopyRows(s, c, from, id)), billableHours := BillableHoursOf(CopyRows(s, c, from, id)))]
        == l.timesheets[id := EmptyDraft(c, week)
        .(totalHours := HoursOf(CopyRows(s, c, from, id)), billableHours := BillableHoursOf(CopyRows(s, c, from, id)))];
  }

  lemma ApplyCopy(s: State, op: Op)
    requires op.OpCopyWeek? && Legal(s, op)
    ensures Apply(s, op) == CopyPreviousWeek(s, op.c, op.date, op.force, op.previous, op.existing)
  {
  }

  /**
   What a copy leaves: the latest submitted or approved timesheet is the source; its rows, less an
   EMPLOYEE's on projects no longer assigned, replace those of the target, which is the caller's
   timesheet of that week or else a new draft; all other entries stay in place, and of the target's own
   row only the totals change.
   */
  lemma CopyLeaves(s: State, op: Op, week: int)
    requires op.OpCopyWeek? && Legal(s, op) && IsStartOf(s, op.c.org, week, op.date) && Apply(s, op).reply.Copied?
    ensures op.previous.Some? && IsSource(s, op.c, op.previous.value)
    ensures forall t | t in s.ledger.timesheets && IsSource(s, op.c, t) ::
              s.ledger.timesheets[t].weekStart <= s.ledger.timesheets[op.previous.value].weekStart
    ensures op.existing.Some? <==> HasWeek(s, op.c, week)
    ensures op.existing.Some? ==>
              Mine(s, op.c, op.existing.value) && s.ledger.timesheets[op.existing.value].weekStart == week
    ensures var l, o := s.ledger, Apply(s, op);
            var rows := CopyRows(s, op.c, op.previous.value, o.reply.id);
            && o.reply.id == (if op.existing.Some? then op.existing.value else l.nextSheet)
            && o.reply.skipped == |SheetRows(l.entries, op.previous.value)| - |rows|
            && o.state == WithCopies(s, o.reply.id, TargetRow(s, op.c, op.existing, week), rows,
                                     if op.existing.Some? then l.nextSheet else l.nextSheet + 1)
  {
    var c := op.c;
    StartOf(s, c.org, op.date);
    CopyQueries(s, op);
    CopiedRows(s, c, op.previous.value);
    ApplyCopy(s, op);
    hide Apply, GetWeekStart, HasWeek, HasSource, IsLatest, IsExisting, SheetRows, Filter, WriteCopies, WithCopies,
      TargetRow, AddSheet;
    if op.existing.Some? {
      CopyIntoDraft(s, c, op.previous.value, op.existing.value, week);
    } else {
      CopyIntoNew(s, c, op.previous.value, week);
    }
  }
}
