/** What each operation of timesheets.service.ts does to the database. */
module Timesheets {
  import opened Common
  import opened Rows
  import opened Weeks
  import opened Schema

  predicate Owns(l: Ledger, id: int, c: Caller) {
    id in l.timesheets && l.timesheets[id].user == c.user && l.timesheets[id].org == c.org
  }

  // ---- Changes to the tables ----

  function AddSheet(l: Ledger, sheet: Timesheet): Ledger {
    l.(timesheets := l.timesheets[l.nextSheet := sheet], nextSheet := l.nextSheet + 1)
  }

  function SetSheet(l: Ledger, id: int, sheet: Timesheet): Ledger {
    l.(timesheets := l.timesheets[id := sheet])
  }

  /** Deleting a timesheet cascades to its entries. */
  function RemoveSheet(l: Ledger, id: int): Ledger {
    l.(timesheets := l.timesheets - {id}, entries := Filter(l.entries, NotInSheet(id)))
  }

  /** recalculateTimesheetTotals: both totals afresh from the stored entries. */
  function Recalculate(l: Ledger, id: int): Ledger
    requires id in l.timesheets
  {
    var rows := SheetRows(l.entries, id);
    SetSheet(l, id, l.timesheets[id].(totalHours := HoursOf(rows), billableHours := BillableHoursOf(rows)))
  }

  /** Put `rows` in place of the entry at index `i`. */
  function Splice(l: Ledger, i: nat, rows: seq<Entry>): Ledger
    requires i < |l.entries|
  {
    l.(entries := l.entries[..i] + rows + l.entries[i + 1..])
  }

  /** Index of the entry with this id in this timesheet. */
  function FindEntry(entries: seq<Entry>, id: int, sheet: int): (r: Option<nat>)
    ensures r.Some? ==> r.value < |entries| && entries[r.value].id == id && entries[r.value].sheet == sheet
    ensures r.None? ==> forall e | e in entries :: !(e.id == id && e.sheet == sheet)
  {
    if entries == [] then None
    else
      var n := |entries| - 1;
      assert entries == entries[..n] + [entries[n]];
      if entries[n].id == id && entries[n].sheet == sheet then Some(n) else FindEntry(entries[..n], id, sheet)
  }

  // ---- Timesheets ----

  function NewSheet(c: Caller, week: int): Timesheet {
    Timesheet(c.org, c.user, week, GetWeekEnd(week), DRAFT, 0.0, 0.0, None, None, None)
  }

  predicate WeekTaken(l: Ledger, c: Caller, week: int) {
    exists t | t in l.timesheets :: IsWeekOf(l.timesheets[t], c, week)
  }

  predicate IsWeekOf(sheet: Timesheet, c: Caller, week: int) {
    sheet.user == c.user && sheet.org == c.org && sheet.weekStart == week
  }

  function CreateTimesheet(s: State, c: Caller, date: int, today: int): Outcome {
    var week := GetWeekStart(date, WorkWeekStart(s, c.org));
    var settings := Setting(s, c.org);
    if !(settings.Some? && settings.value.allowBackdated) && week < today then Fails(s, BackdatingNotAllowed)
    else if WeekTaken(s.ledger, c, week) then Fails(s, Conflict)
    else Outcome(s.(ledger := AddSheet(s.ledger, NewSheet(c, week))), Created(s.ledger.nextSheet))
  }

  /** The week start is written as given: not normalised, no duplicate check, week end untouched. */
  function UpdateTimesheet(s: State, c: Caller, id: int, date: Option<int>): Outcome {
    var l := s.ledger;
    if !Owns(l, id, c) then Fails(s, NotFound)
    else if l.timesheets[id].status != DRAFT then Fails(s, ImmutableTimesheet)
    else
      var sheet := l.timesheets[id];
      Outcome(s.(ledger := SetSheet(l, id, if date.Some? then sheet.(weekStart := date.value) else sheet)), Done)
  }

  function DeleteTimesheet(s: State, c: Caller, id: int): Outcome {
    if !Owns(s.ledger, id, c) then Fails(s, NotFound)
    else if s.ledger.timesheets[id].status != DRAFT then Fails(s, ImmutableTimesheet)
    else Outcome(s.(ledger := RemoveSheet(s.ledger, id)), Done)
  }

  function SubmitTimesheet(s: State, c: Caller, id: int): Outcome {
    var l := s.ledger;
    if !Owns(l, id, c) then Fails(s, NotFound)
    else if l.timesheets[id].status !in {DRAFT, REJECTED} then Fails(s, InvalidTransition)
    else
      var sheet := l.timesheets[id];
      var reason := if sheet.status == REJECTED then None else sheet.rejectedReason;
      Outcome(s.(ledger := SetSheet(l, id, sheet.(status := SUBMITTED, rejectedReason := reason))), Done)
  }

  // ---- Copy previous week ----

  predicate IsCandidate(sheet: Timesheet, c: Caller) {
    sheet.user == c.user && sheet.org == c.org && sheet.status in {APPROVED, SUBMITTED}
  }

  /** `pick` is an answer the database may give to "the caller's latest submitted or approved timesheet". */
  predicate IsLatest(l: Ledger, c: Caller, pick: Option<int>) {
    match pick
    case None => forall t | t in l.timesheets :: !IsCandidate(l.timesheets[t], c)
    case Some(p) =>
      && p in l.timesheets && IsCandidate(l.timesheets[p], c)
      && forall t | t in l.timesheets && IsCandidate(l.timesheets[t], c) ::
           l.timesheets[t].weekStart <= l.timesheets[p].weekStart
  }

  /** `pick` is an answer the database may give to "the caller's timesheet for this week". */
  predicate IsExisting(l: Ledger, c: Caller, week: int, pick: Option<int>) {
    match pick
    case None => !WeekTaken(l, c, week)
    case Some(p) => p in l.timesheets && IsWeekOf(l.timesheets[p], c, week)
  }

  /** getAssignedProjectIds, as a test. */
  predicate IsAssigned(s: State, c: Caller, project: int) {
    (project, c.user) in s.staff.assignments && project in s.ledger.projects && s.ledger.projects[project].org == c.org
  }

  function StillAssigned(s: State, c: Caller): Entry -> bool {
    (e: Entry) => c.role == EMPLOYEE ==> IsAssigned(s, c, e.project)
  }

  /** The rows written for the target: hours and notes as in the source, time off back at its default. */
  function Copies(source: seq<Entry>, sheet: int, firstId: int): (rows: seq<Entry>)
    ensures |rows| == |source|
    ensures forall i | 0 <= i < |rows| ::
      var e := source[i];
      rows[i] == Entry(firstId + i, sheet, e.project, e.billable, e.hours, e.notes, NO_HOURS, e.totalHours)
  {
    seq(|source|, i requires 0 <= i < |source| =>
      var e := source[i];
      Entry(firstId + i, sheet, e.project, e.billable, e.hours, e.notes, NO_HOURS, e.totalHours))
  }

  /** Replace a timesheet's rows by copies and store the copies' own totals. */
  function WriteCopies(l: Ledger, id: int, source: seq<Entry>): Ledger
    requires id in l.timesheets
  {
    var rows := Copies(source, id, l.nextEntry);
    SetSheet(l, id, l.timesheets[id].(totalHours := HoursOf(rows), billableHours := BillableHoursOf(rows)))
    .(entries := Filter(l.entries, NotInSheet(id)) + rows, nextEntry := l.nextEntry + |rows|)
  }

  function CopyPreviousWeek(s: State, c: Caller, date: int, force: bool, previous: Option<int>,
      existing: Option<int>): Outcome
    requires existing.Some? ==> existing.value in s.ledger.timesheets
  {
    var l := s.ledger;
    var settings := Setting(s, c.org);
    if settings.None? || !settings.value.allowCopyWeek then Fails(s, CopyWeekDisabled)
    else if previous.None? then Fails(s, NotFound)
    else if existing.Some? && !force then Fails(s, Conflict)
    else if existing.Some? && l.timesheets[existing.value].status != DRAFT then Fails(s, ImmutableTimesheet)
    else
      var source := SheetRows(l.entries, previous.value);
      var kept := Filter(source, StillAssigned(s, c));
      var skipped := |source| - |kept|;
      if existing.Some? then
        Outcome(s.(ledger := WriteCopies(l, existing.value, kept)), Copied(existing.value, skipped))
      else
        var week := GetWeekStart(date, settings.value.workWeekStart);
        Outcome(s.(ledger := WriteCopies(AddSheet(l, NewSheet(c, week)), l.nextSheet, kept)),
            Copied(l.nextSheet, skipped))
  }

  // ---- Entries ----

  datatype EntryInput = EntryInput(
    project: Option<int>, billable: Option<bool>, hours: WeekInput, notes: Notes, timeOff: WeekInput)

  /** The request schema: hours in 0..24, time off in 0..8, and a project when the entry is new. */
  predicate SchemaAccepts(dto: EntryInput, isNew: bool) {
    && (isNew ==> dto.project.Some?)
    && (dto.project.Some? ==> dto.project.value > 0)
    && (forall i | 0 <= i < 7 :: dto.hours[i].Some? ==> 0.0 <= dto.hours[i].value <= 24.0)
    && (forall i | 0 <= i < 7 :: dto.timeOff[i].Some? ==> 0.0 <= dto.timeOff[i].value <= 8.0)
  }

  function Or<T>(o: Option<T>, otherwise: T): T {
    if o.Some? then o.value else otherwise
  }

  function MergeWeek(dto: WeekInput, stored: Week): (w: Week)
    ensures forall i | 0 <= i < 7 :: w[i] == Or(dto[i], stored[i])
  {
    seq(7, i requires 0 <= i < 7 => Or(dto[i], stored[i]))
  }

  function MergeNotes(dto: Notes, stored: Notes): (w: Notes)
    ensures forall i | 0 <= i < 7 :: w[i] == if dto[i].Some? then dto[i] else stored[i]
  {
    seq(7, i requires 0 <= i < 7 => if dto[i].Some? then dto[i] else stored[i])
  }

  /** calcEntryTotal. */
  function CalcEntryTotal(w: Week): (total: real)
    ensures total == ColumnSum(w)
  {
    SevenColumns(w);
    w[0] + w[1] + w[2] + w[3] + w[4] + w[5] + w[6]
  }

  lemma PrefixSum(w: seq<real>, k: nat)
    requires k < |w|
    ensures ColumnSum(w[..k + 1]) == ColumnSum(w[..k]) + w[k]
  {
    assert w[..k + 1][..k] == w[..k];
  }

  lemma SevenColumns(w: Week)
    ensures ColumnSum(w) == w[0] + w[1] + w[2] + w[3] + w[4] + w[5] + w[6]
  {
    assert w[..7] == w;
    PrefixSum(w, 6);
    PrefixSum(w, 5);
    PrefixSum(w, 4);
    PrefixSum(w, 3);
    PrefixSum(w, 2);
    PrefixSum(w, 1);
    PrefixSum(w, 0);
  }

  predicate IsSpace(c: char) {
    c in {'\t', '\n', '\U{B}', '\U{C}', '\r', ' ', '\U{A0}', '\U{1680}', '\U{2028}', '\U{2029}',
          '\U{202F}', '\U{205F}', '\U{3000}', '\U{FEFF}'} || '\U{2000}' <= c <= '\U{200A}'
  }

  /** No description, or one that `trim` empties. */
  predicate Blank(note: Option<string>) {
    note.None? || forall c | c in note.value :: IsSpace(c)
  }

  predicate Editable(status: Status) {
    status == DRAFT || status == REJECTED
  }

  /** The checks of createEntry in their order; None when the row may be inserted. */
  function NewEntryRefusal(s: State, c: Caller, id: int, dto: EntryInput): (e: Option<Error>)
    ensures e.None? ==> Owns(s.ledger, id, c) && Editable(s.ledger.timesheets[id].status)
    ensures e.None? ==> SchemaAccepts(dto, true) && dto.project.Some? && dto.project.value in s.ledger.projects
  {
    var l := s.ledger;
    var settings := Setting(s, c.org);
    if !SchemaAccepts(dto, true) then Some(ValidationError)
    else if !Owns(l, id, c) then Some(NotFound)
    else if !Editable(l.timesheets[id].status) then Some(ImmutableTimesheet)
    else if settings.Some? && settings.value.mandatoryDesc
            && exists i | 0 <= i < 7 :: Or(dto.hours[i], 0.0) > 0.0 && Blank(dto.notes[i])
      then Some(DescriptionRequired)
    else if !(dto.project.value in l.projects && l.projects[dto.project.value].org == c.org) then Some(NotFound)
    else if c.role == EMPLOYEE && (dto.project.value, c.user) !in s.staff.assignments then Some(EmployeeNotAssigned)
    else
      var maxPerDay := if settings.Some? then settings.value.maxHoursPerDay else 24.0;
      if exists i | 0 <= i < 7 :: dto.hours[i].Some? && dto.hours[i].value > maxPerDay then Some(MaxHoursExceeded)
      else None
  }

  function NewEntry(entryId: int, sheet: int, dto: EntryInput): Entry
    requires dto.project.Some?
  {
    var hours := MergeWeek(dto.hours, NO_HOURS);
    Entry(entryId, sheet, dto.project.value, Or(dto.billable, true), hours, dto.notes,
          MergeWeek(dto.timeOff, NO_HOURS), CalcEntryTotal(hours))
  }

  function CreateEntry(s: State, c: Caller, id: int, dto: EntryInput): Outcome {
    var l := s.ledger;
    var refusal := NewEntryRefusal(s, c, id, dto);
    if refusal.Some? then Fails(s, refusal.value)
    else
      var entries := l.entries + [NewEntry(l.nextEntry, id, dto)];
      Outcome(s.(ledger := Recalculate(l.(entries := entries, nextEntry := l.nextEntry + 1), id)), Created(l.nextEntry))
  }

  /** The stored row after an update: each column from the request where it has one. */
  function MergeEntry(e: Entry, dto: EntryInput): Entry {
    var hours := MergeWeek(dto.hours, e.hours);
    Entry(e.id, e.sheet, Or(dto.project, e.project), Or(dto.billable, e.billable), hours,
          MergeNotes(dto.notes, e.notes), MergeWeek(dto.timeOff, e.timeOff), CalcEntryTotal(hours))
  }

  function UpdateEntry(s: State, c: Caller, id: int, entryId: int, dto: EntryInput): Outcome {
    var l := s.ledger;
    if !SchemaAccepts(dto, false) then Fails(s, ValidationError)
    else if !Owns(l, id, c) then Fails(s, NotFound)
    else if !Editable(l.timesheets[id].status) then Fails(s, ImmutableTimesheet)
    else
      var at := FindEntry(l.entries, entryId, id);
      if at.None? then Fails(s, NotFound)
      else if dto.project.Some? && c.role == EMPLOYEE && (dto.project.value, c.user) !in s.staff.assignments
        then Fails(s, EmployeeNotAssigned)
      else if dto.project.Some? && dto.project.value !in l.projects then Fails(s, ConstraintViolation)
      else
        var row := MergeEntry(l.entries[at.value], dto);
        Outcome(s.(ledger := Recalculate(Splice(l, at.value, [row]), id)), Done)
  }

  function DeleteEntry(s: State, c: Caller, id: int, entryId: int): Outcome {
    var l := s.ledger;
    if !Owns(l, id, c) then Fails(s, NotFound)
    else if !Editable(l.timesheets[id].status) then Fails(s, ImmutableTimesheet)
    else
      var at := FindEntry(l.entries, entryId, id);
      if at.None? then Fails(s, NotFound)
      else Outcome(s.(ledger := Recalculate(Splice(l, at.value, []), id)), Done)
  }
}
