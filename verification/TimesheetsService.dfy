/** timesheets.service.ts as the statements it runs against the store, each proved to do what Timesheets says. */
module TimesheetsService {
  import opened Common
  import opened Rows
  import opened Weeks
  import opened Schema
  import opened Database
  import Spec = Timesheets

  /** recalculateTimesheetTotals. */
  method RecalculateTimesheetTotals(db: Store, id: int)
    requires id in db.timesheets
    modifies db
    ensures db.Snapshot() == old(db.Snapshot()).(ledger := Spec.Recalculate(old(db.LedgerNow()), id))
  {
    var entries := SheetRows(db.entries, id);
    var totalHours := HoursOf(entries);
    var billableHours := BillableHoursOf(entries);
    db.timesheets := db.timesheets[id := db.timesheets[id].(totalHours := totalHours, billableHours := billableHours)];
  }

  method CreateTimesheet(db: Store, c: Caller, date: int, today: int) returns (reply: Reply)
    modifies db
    ensures Outcome(db.Snapshot(), reply) == Spec.CreateTimesheet(old(db.Snapshot()), c, date, today)
  {
    var startDay := if c.org in db.settings then db.settings[c.org].workWeekStart else Monday;
    var weekStart := GetWeekStart(date, startDay);
    var weekEnd := GetWeekEnd(weekStart);
    if !(c.org in db.settings && db.settings[c.org].allowBackdated) && weekStart < today {
      return Failed(BackdatingNotAllowed);
    }
    if exists t | t in db.timesheets :: Spec.IsWeekOf(db.timesheets[t], c, weekStart) {
      return Failed(Conflict);
    }
    reply := Created(db.nextSheet);
    db.timesheets := db.timesheets[db.nextSheet :=
      Timesheet(c.org, c.user, weekStart, weekEnd, DRAFT, 0.0, 0.0, None, None, None)];
    db.nextSheet := db.nextSheet + 1;
  }

  method UpdateTimesheet(db: Store, c: Caller, id: int, date: Option<int>) returns (reply: Reply)
    modifies db
    ensures Outcome(db.Snapshot(), reply) == Spec.UpdateTimesheet(old(db.Snapshot()), c, id, date)
  {
    if !Spec.Owns(db.LedgerNow(), id, c) {
      return Failed(NotFound);
    }
    if db.timesheets[id].status != DRAFT {
      return Failed(ImmutableTimesheet);
    }
    if date.Some? {
      db.timesheets := db.timesheets[id := db.timesheets[id].(weekStart := date.value)];
    } else {
      assert db.timesheets == db.timesheets[id := db.timesheets[id]];
    }
    return Done;
  }

  method DeleteTimesheet(db: Store, c: Caller, id: int) returns (reply: Reply)
    modifies db
    ensures Outcome(db.Snapshot(), reply) == Spec.DeleteTimesheet(old(db.Snapshot()), c, id)
  {
    if !Spec.Owns(db.LedgerNow(), id, c) {
      return Failed(NotFound);
    }
    if db.timesheets[id].status != DRAFT {
      return Failed(ImmutableTimesheet);
    }
    db.entries := Filter(db.entries, NotInSheet(id));
    db.timesheets := db.timesheets - {id};
    return Done;
  }

  method SubmitTimesheet(db: Store, c: Caller, id: int) returns (reply: Reply)
    modifies db
    ensures Outcome(db.Snapshot(), reply) == Spec.SubmitTimesheet(old(db.Snapshot()), c, id)
  {
    if !Spec.Owns(db.LedgerNow(), id, c) {
      return Failed(NotFound);
    }
    var sheet := db.timesheets[id];
    if sheet.status != DRAFT && sheet.status != REJECTED {
      return Failed(InvalidTransition);
    }
    db.timesheets := db.timesheets[id := sheet.(status := SUBMITTED)];
    if sheet.status == REJECTED {
      db.timesheets := db.timesheets[id := db.timesheets[id].(rejectedReason := None)];
    }
    return Done;
  }

  /** The query for the caller's latest submitted or approved timesheet; ties are the database's choice. */
  method FindLatest(db: Store, c: Caller) returns (pick: Option<int>)
    ensures Spec.IsLatest(db.LedgerNow(), c, pick)
  {
    var candidates := set t | t in db.timesheets && Spec.IsCandidate(db.timesheets[t], c);
    if candidates == {} {
      assert forall t | t in db.timesheets && Spec.IsCandidate(db.timesheets[t], c) :: t in candidates;
      return None;
    }
    var best := LatestOf(db.timesheets, candidates);
    assert forall t | t in db.timesheets && Spec.IsCandidate(db.timesheets[t], c) :: t in candidates;
    return Some(best);
  }

  method LatestOf(timesheets: map<int, Timesheet>, candidates: set<int>) returns (best: int)
    requires candidates != {} && candidates <= timesheets.Keys
    ensures best in candidates
    ensures forall t | t in candidates :: timesheets[t].weekStart <= timesheets[best].weekStart
  {
    ghost var some := SomeMember(candidates);
    best :| best in candidates;
    var rest := candidates;
    while rest != {}
      invariant best in candidates && rest <= candidates
      invariant forall t | t in candidates - rest :: timesheets[t].weekStart <= timesheets[best].weekStart
      decreases rest
    {
      some := SomeMember(rest);
      var t :| t in rest;
      if timesheets[t].weekStart > timesheets[best].weekStart {
        best := t;
      }
      rest := rest - {t};
    }
    assert candidates - rest == candidates;
  }

  method FindExisting(db: Store, c: Caller, week: int) returns (pick: Option<int>)
    ensures Spec.IsExisting(db.LedgerNow(), c, week, pick)
  {
    if t :| t in db.timesheets && Spec.IsWeekOf(db.timesheets[t], c, week) {
      return Some(t);
    }
    return None;
  }

  /** Delete a timesheet's entries, insert the copies, store their totals. */
  method ReplaceEntries(db: Store, id: int, source: seq<Entry>)
    requires id in db.timesheets
    modifies db
    ensures db.Snapshot() == old(db.Snapshot()).(ledger := Spec.WriteCopies(old(db.LedgerNow()), id, source))
  {
    var rows := Spec.Copies(source, id, db.nextEntry);
    db.entries := Filter(db.entries, NotInSheet(id));
    if |rows| > 0 {
      db.entries := db.entries + rows;
      db.nextEntry := db.nextEntry + |rows|;
    }
    db.timesheets := db.timesheets[id :=
        db.timesheets[id].(totalHours := HoursOf(rows), billableHours := BillableHoursOf(rows))];
  }

  method CopyPreviousWeek(db: Store, c: Caller, date: int, force: bool)
    returns (reply: Reply, ghost previous: Option<int>, ghost existing: Option<int>)
    modifies db
    ensures Spec.IsLatest(old(db.LedgerNow()), c, previous)
    ensures Spec.IsExisting(old(db.LedgerNow()), c, GetWeekStart(date, WorkWeekStart(old(db.Snapshot()), c.org)),
            existing)
    ensures Outcome(db.Snapshot(), reply)
         == Spec.CopyPreviousWeek(old(db.Snapshot()), c, date, force, previous, existing)
  {
    hide Filter, Sum, SheetRows, Spec.Copies, GetWeekStart, Spec.IsLatest, Spec.WeekTaken, Spec.WriteCopies;
    var week := GetWeekStart(date, WorkWeekStart(db.Snapshot(), c.org));
    var latest := FindLatest(db, c);
    var present := FindExisting(db, c, week);
    previous, existing := latest, present;
    if !(c.org in db.settings && db.settings[c.org].allowCopyWeek) {
      reply := Failed(CopyWeekDisabled);
      return;
    }
    if latest.None? {
      reply := Failed(NotFound);
      return;
    }
    if present.Some? && !force {
      reply := Failed(Conflict);
      return;
    }
    if present.Some? && force && db.timesheets[present.value].status != DRAFT {
      reply := Failed(ImmutableTimesheet);
      return;
    }
    var source := SheetRows(db.entries, latest.value);
    var entriesToCopy := source;
    var skippedCount := 0;
    if c.role == EMPLOYEE {
      entriesToCopy := Filter(source, Spec.StillAssigned(db.Snapshot(), c));
      skippedCount := |source| - |entriesToCopy|;
    } else {
      FilterAll(source, Spec.StillAssigned(db.Snapshot(), c));
    }
    if present.Some? {
      ReplaceEntries(db, present.value, entriesToCopy);
      reply := Copied(present.value, skippedCount);
    } else {
      reply := Copied(db.nextSheet, skippedCount);
      var id := db.nextSheet;
      db.timesheets := db.timesheets[id := Spec.NewSheet(c, week)];
      db.nextSheet := db.nextSheet + 1;
      ReplaceEntries(db, id, entriesToCopy);
    }
  }

  /** The per-day limit check: a loop over the seven columns. */
  method ExceedsMax(hours: WeekInput, maxPerDay: real) returns (tooLong: bool)
    ensures tooLong <==> exists i | 0 <= i < 7 :: hours[i].Some? && hours[i].value > maxPerDay
  {
    for i := 0 to 7
      invariant forall k | 0 <= k < i :: !(hours[k].Some? && hours[k].value > maxPerDay)
    {
      if hours[i].Some? && hours[i].value > maxPerDay {
        return true;
      }
    }
    return false;
  }

  /** The checks of createEntry, one query after another. */
  method CheckNewEntry(db: Store, c: Caller, id: int, dto: Spec.EntryInput) returns (refusal: Option<Error>)
    ensures refusal == Spec.NewEntryRefusal(db.Snapshot(), c, id, dto)
  {
    assert Spec.SchemaAccepts(dto, true) ==> dto.project.Some?;
    hide Spec.SchemaAccepts, Spec.Blank, Spec.Or;
    if !Spec.SchemaAccepts(dto, true) {
      return Some(ValidationError);
    }
    if !Spec.Owns(db.LedgerNow(), id, c) {
      return Some(NotFound);
    }
    if db.timesheets[id].status != DRAFT && db.timesheets[id].status != REJECTED {
      return Some(ImmutableTimesheet);
    }
    if c.org in db.settings && db.settings[c.org].mandatoryDesc
       && exists i | 0 <= i < 7 :: Spec.Or(dto.hours[i], 0.0) > 0.0 && Spec.Blank(dto.notes[i])
    {
      return Some(DescriptionRequired);
    }
    var project := dto.project.value;
    if !(project in db.projects && db.projects[project].org == c.org) {
      return Some(NotFound);
    }
    if c.role == EMPLOYEE && (project, c.user) !in db.assignments {
      return Some(EmployeeNotAssigned);
    }
    var maxPerDay := if c.org in db.settings then db.settings[c.org].maxHoursPerDay else 24.0;
    var tooLong := ExceedsMax(dto.hours, maxPerDay);
    return if tooLong then Some(MaxHoursExceeded) else None;
  }

  method CreateEntry(db: Store, c: Caller, id: int, dto: Spec.EntryInput) returns (reply: Reply)
    modifies db
    ensures Outcome(db.Snapshot(), reply) == Spec.CreateEntry(old(db.Snapshot()), c, id, dto)
  {
    var refusal := CheckNewEntry(db, c, id, dto);
    assert refusal.None? ==> dto.project.Some?;
    hide Spec.NewEntryRefusal, Spec.SchemaAccepts, Spec.Recalculate;
    if refusal.Some? {
      return Failed(refusal.value);
    }
    reply := Created(db.nextEntry);
    var hours := Spec.MergeWeek(dto.hours, NO_HOURS);
    var totalHours := Spec.CalcEntryTotal(hours);
    var entry := Entry(db.nextEntry, id, dto.project.value, Spec.Or(dto.billable, true), hours, dto.notes,
                       Spec.MergeWeek(dto.timeOff, NO_HOURS), totalHours);
    InsertEntry(db, id, entry);
  }

  /** Insert a row under the next id, then recalculate its timesheet. */
  method InsertEntry(db: Store, id: int, entry: Entry)
    requires id in db.timesheets
    modifies db
    ensures var l := old(db.LedgerNow());
            db.Snapshot() == old(db.Snapshot()).(ledger :=
              Spec.Recalculate(l.(entries := l.entries + [entry], nextEntry := l.nextEntry + 1), id))
  {
    db.entries := db.entries + [entry];
    db.nextEntry := db.nextEntry + 1;
    RecalculateTimesheetTotals(db, id);
  }

  method UpdateEntry(db: Store, c: Caller, id: int, entryId: int, dto: Spec.EntryInput) returns (reply: Reply)
    modifies db
    ensures Outcome(db.Snapshot(), reply) == Spec.UpdateEntry(old(db.Snapshot()), c, id, entryId, dto)
  {
    if !Spec.SchemaAccepts(dto, false) {
      return Failed(ValidationError);
    }
    if !Spec.Owns(db.LedgerNow(), id, c) {
      return Failed(NotFound);
    }
    if db.timesheets[id].status != DRAFT && db.timesheets[id].status != REJECTED {
      return Failed(ImmutableTimesheet);
    }
    var at := Spec.FindEntry(db.entries, entryId, id);
    if at.None? {
      return Failed(NotFound);
    }
    if dto.project.Some? && c.role == EMPLOYEE && (dto.project.value, c.user) !in db.assignments {
      return Failed(EmployeeNotAssigned);
    }
    var i := at.value;
    var updated := Spec.MergeEntry(db.entries[i], dto);
    if dto.project.Some? && dto.project.value !in db.projects {
      return Failed(ConstraintViolation);
    }
    db.entries := db.entries[..i] + [updated] + db.entries[i + 1..];
    RecalculateTimesheetTotals(db, id);
    return Done;
  }

  method DeleteEntry(db: Store, c: Caller, id: int, entryId: int) returns (reply: Reply)
    modifies db
    ensures Outcome(db.Snapshot(), reply) == Spec.DeleteEntry(old(db.Snapshot()), c, id, entryId)
  {
    if !Spec.Owns(db.LedgerNow(), id, c) {
      return Failed(NotFound);
    }
    if db.timesheets[id].status != DRAFT && db.timesheets[id].status != REJECTED {
      return Failed(ImmutableTimesheet);
    }
    var at := Spec.FindEntry(db.entries, entryId, id);
    if at.None? {
      return Failed(NotFound);
    }
    var i := at.value;
    assert db.entries[..i] + [] + db.entries[i + 1..] == db.entries[..i] + db.entries[i + 1..];
    db.entries := db.entries[..i] + db.entries[i + 1..];
    RecalculateTimesheetTotals(db, id);
    return Done;
  }
}
