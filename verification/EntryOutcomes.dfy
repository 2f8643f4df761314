/**
 What every call on an entry answers, and the tables it leaves, said in terms of the rows and the
 request alone: which requests are accepted, the row they write column by column, and its totals.
 */
module EntryOutcomes {
  import opened Common
  import opened Schema
  import opened Timesheets
  import opened LedgerLaws
  import opened SheetOutcomes

  // ---- Descriptions ----

  function TrimStart(s: string): string {
    if s != "" && IsSpace(s[0]) then TrimStart(s[1..]) else s
  }

  function TrimEnd(s: string): string {
    if s != "" && IsSpace(s[|s| - 1]) then TrimEnd(s[..|s| - 1]) else s
  }

  lemma {:induction false} TrimStartEmpty(s: string)
    ensures TrimStart(s) == "" <==> forall c | c in s :: IsSpace(c)
  {
    if s != "" {
      assert s == [s[0]] + s[1..];
      assert forall c :: c in s <==> c == s[0] || c in s[1..];
      TrimStartEmpty(s[1..]);
    }
  }

  lemma {:induction false} TrimEndEmpty(s: string)
    ensures TrimEnd(s) == "" <==> forall c | c in s :: IsSpace(c)
  {
    if s != "" {
      var n := |s| - 1;
      assert s == s[..n] + [s[n]];
      assert forall c :: c in s <==> c == s[n] || c in s[..n];
      TrimEndEmpty(s[..n]);
    }
  }

  /** A suffix of the text: everything `TrimStart` drops is a space. */
  lemma {:induction false} TrimStartRest(s: string)
    ensures (forall c | c in TrimStart(s) :: IsSpace(c)) <==> forall c | c in s :: IsSpace(c)
  {
    if s != "" && IsSpace(s[0]) {
      assert s == [s[0]] + s[1..];
      assert forall c :: c in s <==> c == s[0] || c in s[1..];
      TrimStartRest(s[1..]);
    }
  }

  /** A text is a description if trimming leaves something of it. */
  predicate Describes(note: Option<string>) {
    note.Some? && TrimEnd(TrimStart(note.value)) != ""
  }

  /** The model's test is that of `trim`, with the white space and line ends of ECMA-262, sections 12.2 and 12.3. */
  lemma BlankExactly(note: Option<string>)
    ensures Blank(note) <==> !Describes(note)
    ensures forall c: char :: IsSpace(c) <==>
              var n := c as int;
              || 9 <= n <= 13 || 0x2000 <= n <= 0x200A
              || n in {0x20, 0xA0, 0x1680, 0x2028, 0x2029, 0x202F, 0x205F, 0x3000, 0xFEFF}
  {
    if note.Some? {
      TrimStartRest(note.value);
      TrimEndEmpty(TrimStart(note.value));
    }
  }

  // ---- Requests ----

  /** Hours from 0 to 24, time off from 0 to 8, a positive project id. */
  predicate Bounded(dto: EntryInput) {
    && (dto.project.Some? ==> dto.project.value >= 1)
    && (forall i | 0 <= i < 7 && dto.hours[i].Some? :: 0.0 <= dto.hours[i].value && dto.hours[i].value <= 24.0)
    && (forall i | 0 <= i < 7 && dto.timeOff[i].Some? :: 0.0 <= dto.timeOff[i].value && dto.timeOff[i].value <= 8.0)
  }

  lemma BoundedExactly(dto: EntryInput, isNew: bool)
    ensures SchemaAccepts(dto, isNew) <==> Bounded(dto) && (isNew ==> dto.project.Some?)
  {
    if Bounded(dto) && (isNew ==> dto.project.Some?) {
      assert forall i | 0 <= i < 7 && dto.hours[i].Some? :: 0.0 <= dto.hours[i].value <= 24.0;
      assert forall i | 0 <= i < 7 && dto.timeOff[i].Some? :: 0.0 <= dto.timeOff[i].value <= 8.0;
    }
  }

  /** A timesheet of the caller's that is a draft or rejected. */
  predicate Open(s: State, c: Caller, id: int) {
    && Mine(s, c, id)
    && (s.ledger.timesheets[id].status == DRAFT || s.ledger.timesheets[id].status == REJECTED)
  }

  /** The settings ask for no descriptions, or every day with hours has one. */
  predicate DescribedEnough(s: State, org: int, dto: EntryInput) {
    org in s.settings && s.settings[org].mandatoryDesc ==>
      forall i | 0 <= i < 7 && dto.hours[i].Some? && dto.hours[i].value > 0.0 :: Describes(dto.notes[i])
  }

  predicate WithinMaximum(s: State, org: int, dto: EntryInput) {
    org in s.settings ==>
      forall i | 0 <= i < 7 && dto.hours[i].Some? :: dto.hours[i].value <= s.settings[org].maxHoursPerDay
  }

  predicate ProjectOf(s: State, project: int, org: int) {
    project in s.ledger.projects && s.ledger.projects[project].org == org
  }

  predicate Assigned(s: State, c: Caller, project: int) {
    c.role == EMPLOYEE ==> (project, c.user) in s.staff.assignments
  }

  // ---- Creating ----

  /** The answer to a new entry: accepted exactly if all conditions hold, and else the first that fails. */
  lemma CreateEntryExactly(s: State, c: Caller, id: int, dto: EntryInput)
    ensures var reply := CreateEntry(s, c, id, dto).reply;
            var p := if dto.project.Some? then dto.project.value else 0;
            var sound := Bounded(dto) && dto.project.Some?;
            var open := sound && Open(s, c, id);
            var described := open && DescribedEnough(s, c.org, dto);
            var booked := described && ProjectOf(s, p, c.org);
            && (reply.Created? <==> booked && Assigned(s, c, p) && WithinMaximum(s, c.org, dto))
            && (reply == Failed(ValidationError) <==> !sound)
            && (reply == Failed(NotFound) <==> sound && (!Mine(s, c, id) || (described && !booked)))
            && (reply == Failed(ImmutableTimesheet) <==> sound && Mine(s, c, id) && !open)
            && (reply == Failed(DescriptionRequired) <==> open && !described)
            && (reply == Failed(EmployeeNotAssigned) <==> booked && !Assigned(s, c, p))
            && (reply == Failed(MaxHoursExceeded) <==> booked && Assigned(s, c, p) && !WithinMaximum(s, c.org, dto))
    ensures !CreateEntry(s, c, id, dto).reply.Created? ==> CreateEntry(s, c, id, dto).state == s
  {
    BoundedExactly(dto, true);
    forall note ensures Blank(note) <==> !Describes(note) {
      BlankExactly(note);
    }
    DescribedExactly(s, c.org, dto);
    MaximumExactly(s, c.org, dto);
    hide SchemaAccepts, Blank, Describes, DescribedEnough, WithinMaximum, Recalculate, NewEntry;
  }

  lemma DescribedExactly(s: State, org: int, dto: EntryInput)
    requires forall note :: Blank(note) <==> !Describes(note)
    ensures DescribedEnough(s, org, dto) <==>
              !(org in s.settings && s.settings[org].mandatoryDesc
                && exists i | 0 <= i < 7 :: Or(dto.hours[i], 0.0) > 0.0 && Blank(dto.notes[i]))
  {
    hide Blank, Describes;
    assert forall i | 0 <= i < 7 ::
      Or(dto.hours[i], 0.0) > 0.0 <==> dto.hours[i].Some? && dto.hours[i].value > 0.0;
  }

  /** Without settings the maximum is 24 hours, which the bounds of the request already are. */
  lemma MaximumExactly(s: State, org: int, dto: EntryInput)
    ensures var maxPerDay := if org in s.settings then s.settings[org].maxHoursPerDay else 24.0;
            Bounded(dto) ==>
              (WithinMaximum(s, org, dto) <==>
                !exists i | 0 <= i < 7 :: dto.hours[i].Some? && dto.hours[i].value > maxPerDay)
  {
  }

  /** The row of a new entry: what the request names, and else billable with no hours. */
  predicate IsNewRow(e: Entry, id: int, sheet: int, dto: EntryInput) {
    && e.id == id && e.sheet == sheet && dto.project == Some(e.project)
    && e.billable == (dto.billable != Some(false))
    && (forall i | 0 <= i < 7 ::
          && e.hours[i] == (if dto.hours[i].Some? then dto.hours[i].value else 0.0)
          && e.timeOff[i] == (if dto.timeOff[i].Some? then dto.timeOff[i].value else 0.0)
          && e.notes[i] == dto.notes[i])
    && e.totalHours == e.hours[0] + e.hours[1] + e.hours[2] + e.hours[3] + e.hours[4] + e.hours[5] + e.hours[6]
  }

  /** The database with these entries, and the totals of timesheet `id` made from them. */
  function WithEntries(s: State, id: int, entries: seq<Entry>, nextEntry: int): State
    requires id in s.ledger.timesheets
  {
    var l, rows := s.ledger, SheetRows(entries, id);
    var row := l.timesheets[id].(totalHours := HoursOf(rows), billableHours := BillableHoursOf(rows));
    s.(ledger := l.(timesheets := l.timesheets[id := row], entries := entries, nextEntry := nextEntry))
  }

  /** An accepted entry is appended under a new id, and the timesheet's totals are made afresh. */
  lemma CreateEntryLeaves(s: State, c: Caller, id: int, dto: EntryInput) returns (e: Entry)
    requires CreateEntry(s, c, id, dto).reply.Created?
    ensures id in s.ledger.timesheets && CreateEntry(s, c, id, dto).reply.id == s.ledger.nextEntry
    ensures IsNewRow(e, s.ledger.nextEntry, id, dto)
    ensures CreateEntry(s, c, id, dto).state
         == WithEntries(s, id, s.ledger.entries + [e], s.ledger.nextEntry + 1)
  {
    hide SheetRows, HoursOf, BillableHoursOf, SchemaAccepts, Blank, ColumnSum;
    e := NewEntry(s.ledger.nextEntry, id, dto);
    SevenColumns(e.hours);
  }

  // ---- Updating ----

  /** The timesheet has an entry with this id. */
  predicate HasEntry(s: State, sheet: int, entryId: int) {
    exists e | e in s.ledger.entries :: e.id == entryId && e.sheet == sheet
  }

  /** Position `i` of the table holds the entry with this id of this timesheet. */
  predicate IsEntryAt(s: State, sheet: int, entryId: int, i: nat) {
    i < |s.ledger.entries| && s.ledger.entries[i].id == entryId && s.ledger.entries[i].sheet == sheet
  }

  lemma FoundExactly(s: State, sheet: int, entryId: int)
    ensures FindEntry(s.ledger.entries, entryId, sheet).Some? <==> HasEntry(s, sheet, entryId)
  {
    var at := FindEntry(s.ledger.entries, entryId, sheet);
    if at.Some? {
      assert s.ledger.entries[at.value] in s.ledger.entries;
    }
  }

  /** Ids are unique, so the entry found is the one at that position. */
  lemma FoundAt(s: State, sheet: int, entryId: int, i: nat)
    requires AddsUp(s.ledger) && IsEntryAt(s, sheet, entryId, i)
    ensures FindEntry(s.ledger.entries, entryId, sheet) == Some(i)
  {
    var at := FindEntry(s.ledger.entries, entryId, sheet);
    assert s.ledger.entries[i] in s.ledger.entries;
    assert EntriesOk(s.ledger) && Ascending(s.ledger.entries);
  }

  /** The answer to an update of an entry; neither the maximum nor the descriptions are looked at again. */
  lemma UpdateEntryExactly(s: State, c: Caller, id: int, entryId: int, dto: EntryInput)
    ensures var reply := UpdateEntry(s, c, id, entryId, dto).reply;
            var found := Bounded(dto) && Open(s, c, id) && HasEntry(s, id, entryId);
            var handed := found && (dto.project.Some? ==> Assigned(s, c, dto.project.value));
            var present := dto.project.Some? ==> dto.project.value in s.ledger.projects;
            && (reply.Done? <==> handed && present)
            && (reply == Failed(ValidationError) <==> !Bounded(dto))
            && (reply == Failed(NotFound) <==>
                  Bounded(dto) && (!Mine(s, c, id) || (Open(s, c, id) && !HasEntry(s, id, entryId))))
            && (reply == Failed(ImmutableTimesheet) <==> Bounded(dto) && Mine(s, c, id) && !Open(s, c, id))
            && (reply == Failed(EmployeeNotAssigned) <==> found && !handed)
            && (reply == Failed(ConstraintViolation) <==> handed && !present)
    ensures !UpdateEntry(s, c, id, entryId, dto).reply.Done? ==> UpdateEntry(s, c, id, entryId, dto).state == s
  {
    BoundedExactly(dto, false);
    FoundExactly(s, id, entryId);
    hide SchemaAccepts, Bounded, FindEntry, HasEntry, Recalculate, MergeEntry;
  }

  /** The row after an update: each column from the request where it names it, and else as it was. */
  predicate IsMergedRow(e: Entry, e': Entry, dto: EntryInput) {
    && e'.id == e.id && e'.sheet == e.sheet
    && e'.project == (if dto.project.Some? then dto.project.value else e.project)
    && e'.billable == (if dto.billable.Some? then dto.billable.value else e.billable)
    && (forall i | 0 <= i < 7 ::
          && e'.hours[i] == (if dto.hours[i].Some? then dto.hours[i].value else e.hours[i])
          && e'.timeOff[i] == (if dto.timeOff[i].Some? then dto.timeOff[i].value else e.timeOff[i])
          && e'.notes[i] == (if dto.notes[i].Some? then dto.notes[i] else e.notes[i]))
    && e'.totalHours
       == e'.hours[0] + e'.hours[1] + e'.hours[2] + e'.hours[3] + e'.hours[4] + e'.hours[5] + e'.hours[6]
  }

  /** An update rewrites that one entry in place, and the timesheet's totals are made afresh. */
  lemma UpdateEntryLeaves(s: State, c: Caller, id: int, entryId: int, dto: EntryInput, i: nat) returns (e: Entry)
    requires AddsUp(s.ledger) && IsEntryAt(s, id, entryId, i) && UpdateEntry(s, c, id, entryId, dto).reply.Done?
    ensures id in s.ledger.timesheets && IsMergedRow(s.ledger.entries[i], e, dto)
    ensures UpdateEntry(s, c, id, entryId, dto).state
         == WithEntries(s, id, s.ledger.entries[i := e], s.ledger.nextEntry)
  {
    FoundAt(s, id, entryId, i);
    hide AddsUp, SheetRows, HoursOf, BillableHoursOf, SchemaAccepts, FindEntry, ColumnSum;
    e := MergeEntry(s.ledger.entries[i], dto);
    SevenColumns(e.hours);
    assert s.ledger.entries[i := e] == s.ledger.entries[..i] + [e] + s.ledger.entries[i + 1..];
  }

  // ---- Deleting ----

  /** An entry is deleted exactly if it is on an open timesheet of the caller's. */
  lemma DeleteEntryExactly(s: State, c: Caller, id: int, entryId: int)
    ensures var reply := DeleteEntry(s, c, id, entryId).reply;
            && (reply.Done? <==> Open(s, c, id) && HasEntry(s, id, entryId))
            && (reply == Failed(NotFound) <==> !Mine(s, c, id) || (Open(s, c, id) && !HasEntry(s, id, entryId)))
            && (reply == Failed(ImmutableTimesheet) <==> Mine(s, c, id) && !Open(s, c, id))
    ensures !DeleteEntry(s, c, id, entryId).reply.Done? ==> DeleteEntry(s, c, id, entryId).state == s
  {
    FoundExactly(s, id, entryId);
    hide FindEntry, HasEntry, Recalculate;
  }

  /** A deletion takes out that one entry, and the timesheet's totals are made afresh. */
  lemma DeleteEntryLeaves(s: State, c: Caller, id: int, entryId: int, i: nat)
    requires AddsUp(s.ledger) && IsEntryAt(s, id, entryId, i) && DeleteEntry(s, c, id, entryId).reply.Done?
    ensures id in s.ledger.timesheets
    ensures DeleteEntry(s, c, id, entryId).state
         == WithEntries(s, id, s.ledger.entries[..i] + s.ledger.entries[i + 1..], s.ledger.nextEntry)
  {
    FoundAt(s, id, entryId, i);
    hide AddsUp, SheetRows, HoursOf, BillableHoursOf, FindEntry;
    assert s.ledger.entries[..i] + [] + s.ledger.entries[i + 1..] == s.ledger.entries[..i] + s.ledger.entries[i + 1..];
  }
}
