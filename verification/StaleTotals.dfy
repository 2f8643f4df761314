/**
 When the stored totals of a timesheet are stale: after an entry write whose recalculation is late or
 missing, exactly if the write changed the sums, until the next repair.
 */
module StaleTotals {
  import opened Common
  import opened Rows
  import opened Weeks
  import opened Schema
  import opened Timesheets
  import opened Approvals
  import opened People
  import opened LedgerLaws
  import opened Operations
  import opened SheetLaws
  import opened StoredSums
  import opened Interleaving
  import opened TornWrites

  // ---- When stored totals are stale ----

  ghost predicate Stale(l: Ledger, t: int) {
    t in l.timesheets && !TotalsOk(l.timesheets[t], SheetRows(l.entries, t))
  }

  /** A successful entry operation on the timesheet, a copy over it, or its recalculation. */
  predicate Repairs(sys: System, ev: TornEvent, t: int)
    requires CanHappen(sys, ev)
  {
    match ev
    case Whole(e) =>
      e.Request? && (IsEntryOp(e.op) || e.op.OpCopyWeek?) && Subject(sys.db, e.op) == t
          && !Apply(sys.db, e.op).reply.Failed?
    case EntryWrite(_) => false
    case LateRecalculation(id) => id == t
  }

  predicate TornAt(ev: TornEvent, t: int) {
    ev.EntryWrite? && IsEntryOp(ev.op) && ev.op.id == t
  }

  lemma RowsOfOthers(sys: System, op: Op, t: int)
    requires TornSystemOk(sys) && Legal(sys.db, op) && (IsStaffOp(op) || t != Subject(sys.db, op))
    ensures SheetRows(Apply(sys.db, op).state.ledger.entries, t) == SheetRows(sys.db.ledger.entries, t)
    ensures t in Apply(sys.db, op).state.ledger.timesheets <==> t in sys.db.ledger.timesheets
  {
    var s' := Refreshed(sys.db);
    RefreshDiffersInSums(sys.db.ledger);
    FromTorn(sys);
    assert AddsUp(s'.ledger);
    SubjectIgnoresSums(sys.db, s', op, true);
    hide Apply, Legal, SystemOk, TornSystemOk, Refresh, AddsUp, SheetRows, Subject, IsStaffOp;
    LegalIgnoresSums(sys.db, s', op, true);
    ApplyIgnoresSums(sys.db, s', op, true);
    OthersUntouched(s', op, t);
    OthersKept(s', op, t);
  }

  /** What OthersUntouched says of rows, for timesheets that do not exist too. */
  lemma OthersKept(s: State, op: Op, t: int)
    requires Legal(s, op) && AddsUp(s.ledger) && (IsStaffOp(op) || t != Subject(s, op))
    ensures SheetRows(Apply(s, op).state.ledger.entries, t) == SheetRows(s.ledger.entries, t)
  {
    if t !in s.ledger.timesheets {
      NoRowsYet(s.ledger, t);
      OthersUntouched(s, op, t);
      StepSound(s, op);
      hide Apply, Legal;
      NoRowsYet(Apply(s, op).state.ledger, t);
    } else {
      hide Apply, Legal, AddsUp, SheetRows;
      OthersUntouched(s, op, t);
    }
  }

  // Whole operations: the stored totals and the rows of a timesheet that is not repaired stay.

  /** A whole operation that repairs timesheet `t`. */
  predicate RepairsBy(s: State, op: Op, t: int)
    requires Legal(s, op)
  {
    (IsEntryOp(op) || op.OpCopyWeek?) && Subject(s, op) == t && !Apply(s, op).reply.Failed?
  }

  lemma CopyRepairs(s: State, op: Op)
    requires Legal(s, op) && op.OpCopyWeek? && !Apply(s, op).reply.Failed?
    ensures var l', t := Apply(s, op).state.ledger, Subject(s, op);
            t in l'.timesheets && TotalsOk(l'.timesheets[t], SheetRows(l'.entries, t))
  {
    var l := s.ledger;
    var kept := Filter(SheetRows(l.entries, op.previous.value), StillAssigned(s, op.c));
    hide HoursOf, BillableHoursOf, Copies, IsLatest, IsExisting, GetWeekStart, Filter, SheetRows;
    if op.existing.Some? {
      CopiedRows(l, op.existing.value, kept);
    } else {
      CopiedRows(AddSheet(l, NewSheet(op.c, GetWeekStart(op.date, WorkWeekStart(s, op.c.org)))), l.nextSheet, kept);
    }
  }

  lemma RepairedNow(s: State, op: Op, t: int)
    requires Legal(s, op) && RepairsBy(s, op, t)
    ensures t in Apply(s, op).state.ledger.timesheets && !Stale(Apply(s, op).state.ledger, t)
  {
    hide Apply, Legal, SheetRows;
    if op.OpCopyWeek? {
      CopyRepairs(s, op);
    } else {
      EntryOpRepairsTotals(s, op);
    }
  }

  /** Stored totals of a timesheet are the same before and after. */
  predicate SameTotals(l: Ledger, l': Ledger, t: int) {
    t in l.timesheets && t in l'.timesheets ==>
      l'.timesheets[t].totalHours == l.timesheets[t].totalHours
          && l'.timesheets[t].billableHours == l.timesheets[t].billableHours
  }

  lemma EntryTotalsStay(s: State, op: Op, t: int)
    requires Legal(s, op) && IsEntryOp(op) && !RepairsBy(s, op, t)
    ensures SameTotals(s.ledger, Apply(s, op).state.ledger, t)
  {
    hide SheetRows, HoursOf, BillableHoursOf, SchemaAccepts, Blank, Or, MergeEntry, NewEntry, NewEntryRefusal, Owns;
  }

  lemma CopyTotalsStay(s: State, op: Op, t: int)
    requires Legal(s, op) && op.OpCopyWeek? && !RepairsBy(s, op, t) && t < s.ledger.nextSheet
    ensures SameTotals(s.ledger, Apply(s, op).state.ledger, t)
  {
    hide SheetRows, HoursOf, BillableHoursOf, Filter, Copies, IsLatest, IsExisting, GetWeekStart;
  }

  lemma SheetTotalsStay(s: State, op: Op, t: int)
    requires Legal(s, op) && !IsStaffOp(op) && !IsEntryOp(op) && !op.OpCopyWeek? && t < s.ledger.nextSheet
    ensures SameTotals(s.ledger, Apply(s, op).state.ledger, t)
  {
    hide SheetRows, Filter, GetWeekStart, WeekTaken, Owns, Charge, IsDirectReport;
  }

  lemma StaffTotalsStay(s: State, op: Op)
    requires Legal(s, op) && IsStaffOp(op)
    ensures Apply(s, op).state.ledger.timesheets == s.ledger.timesheets
    ensures Apply(s, op).state.ledger.entries == s.ledger.entries
  {
    if !op.OpCreateProject? && !op.OpUpdateProject? && !op.OpDeleteProject? {
      hide Apply;
      LedgerUntouched(s, op);
    } else {
      hide CodeTaken, EdgesAccepted, WithProjectManagers, WithProjectEmployees, IsDirectReport;
    }
  }

  /**
   Operations on a timesheet that are neither entry operations nor copies leave its entries alone,
   unless they delete it.
   */
  lemma RowsStay(s: State, op: Op, t: int)
    requires Legal(s, op) && !IsStaffOp(op) && !RepairsBy(s, op, t) && t == Subject(s, op)
    requires t in Apply(s, op).state.ledger.timesheets
    ensures Apply(s, op).state.ledger.entries == s.ledger.entries
  {
    hide SheetRows, HoursOf, BillableHoursOf, Filter, Copies, SchemaAccepts, Blank, Or;
    hide MergeEntry, NewEntry, NewEntryRefusal, IsLatest, IsExisting;
    hide GetWeekStart, WeekTaken, Charge, IsDirectReport;
  }

  /** A timesheet that is born otherwise than by a copy is born empty, with zero totals. */
  lemma BornEmpty(s: State, op: Op, t: int)
    requires Legal(s, op) && !IsStaffOp(op) && !RepairsBy(s, op, t)
    requires t !in s.ledger.timesheets && t in Apply(s, op).state.ledger.timesheets
    ensures var l' := Apply(s, op).state.ledger;
            l'.entries == s.ledger.entries && l'.timesheets[t].totalHours == 0.0
                && l'.timesheets[t].billableHours == 0.0
  {
    hide SheetRows, HoursOf, BillableHoursOf, Filter, Copies, SchemaAccepts, Blank, Or;
    hide MergeEntry, NewEntry, NewEntryRefusal, IsLatest, IsExisting;
    hide GetWeekStart, WeekTaken, Charge, IsDirectReport;
  }

  lemma NoRowsTorn(sys: System, t: int)
    requires TornSystemOk(sys) && t !in sys.db.ledger.timesheets
    ensures SheetRows(sys.db.ledger.entries, t) == []
  {
    hide TornSystemOk;
    TornEntries(sys);
    NoRowsYet(sys.db.ledger, t);
  }

  lemma IdsBelow(sys: System, t: int)
    requires TornSystemOk(sys) && t in sys.db.ledger.timesheets
    ensures t < sys.db.ledger.nextSheet
  {
    var fresh' := Refresh(sys.db.ledger);
    RefreshDiffersInSums(sys.db.ledger);
    assert AddsUp(fresh') && t in fresh'.timesheets;
    hide Refresh, EntriesOk, SheetRows;
  }

  /** A whole operation makes no totals stale, and none right but those it repairs or deletes. */
  lemma WholeOpStale(sys: System, op: Op, t: int)
    requires TornSystemOk(sys) && Legal(sys.db, op)
    ensures var l' := Apply(sys.db, op).state.ledger;
            Stale(l', t) <==> Stale(sys.db.ledger, t) && t in l'.timesheets && !RepairsBy(sys.db, op, t)
  {
    var s, l, l' := sys.db, sys.db.ledger, Apply(sys.db, op).state.ledger;
    hide Apply, Legal, TornSystemOk, SheetRows, HoursOf, BillableHoursOf, IsStaffOp, RepairsBy;
    if RepairsBy(s, op, t) {
      RepairedNow(s, op, t);
    } else if IsStaffOp(op) {
      StaffTotalsStay(s, op);
    } else {
      if t == Subject(s, op) {
        if t in l'.timesheets {
          RowsStay(s, op, t);
        }
      } else {
        RowsOfOthers(sys, op, t);
      }
      if t in l.timesheets {
        IdsBelow(sys, t);
        if IsEntryOp(op) {
          EntryTotalsStay(s, op, t);
        } else if op.OpCopyWeek? {
          CopyTotalsStay(s, op, t);
        } else {
          SheetTotalsStay(s, op, t);
        }
      } else if t in l'.timesheets {
        NoRowsTorn(sys, t);
        BornEmpty(s, op, t);
        NoHours();
      }
    }
  }

  lemma NoHours()
    ensures HoursOf([]) == 0.0 && BillableHoursOf([]) == 0.0
  {
  }

  lemma RowWriteTables(s: State, op: Op)
    requires Writes(s, op)
    ensures RowWrite(s, op).timesheets == s.ledger.timesheets
  {
    hide NewEntry, MergeEntry, SchemaAccepts, Blank, Or, Owns, NewEntryRefusal, Recalculate;
  }

  lemma RecalculateEntries(l: Ledger, id: int)
    requires id in l.timesheets
    ensures Recalculate(l, id).entries == l.entries
  {
  }

  lemma RowWriteLaw(s: State, op: Op)
    requires Writes(s, op)
    ensures Legal(s, op) && Subject(s, op) == op.id && !IsStaffOp(op)
    ensures RowWrite(s, op).timesheets == s.ledger.timesheets
    ensures Apply(s, op).state.ledger.entries == RowWrite(s, op).entries
  {
    hide Apply, Legal, RowWrite, Recalculate;
    RowWriteTables(s, op);
    WholeIsWriteThenRecalculate(s, op);
    RecalculateEntries(RowWrite(s, op), op.id);
  }

  lemma WriteStale(sys: System, op: Op, t: int)
    requires TornSystemOk(sys) && Writes(sys.db, op) && op.id != t
    ensures Stale(RowWrite(sys.db, op), t) == Stale(sys.db.ledger, t)
    ensures t in RowWrite(sys.db, op).timesheets <==> t in sys.db.ledger.timesheets
  {
    RowWriteLaw(sys.db, op);
    hide TornSystemOk, Apply, RowWrite, SheetRows, Subject, IsStaffOp, TotalsOk, Writes, Legal;
    RowsOfOthers(sys, op, t);
  }

  /** Recalculating one timesheet repairs it and touches no other. */
  lemma RecalculationStale(l: Ledger, id: int, t: int)
    requires id in l.timesheets
    ensures Stale(Recalculate(l, id), t) <==> Stale(l, t) && t != id
  {
    hide SheetRows, HoursOf, BillableHoursOf;
  }

  lemma OtherEventStale(sys: System, ev: Event, t: int)
    requires Enabled(sys, ev) && !ev.Request?
    ensures Stale(Step(sys, ev).db.ledger, t) == Stale(sys.db.ledger, t)
    ensures t in Step(sys, ev).db.ledger.timesheets <==> t in sys.db.ledger.timesheets
  {
    hide SheetRows, HoursOf, BillableHoursOf, AddHours, IsDirectReport;
  }

  /** Every event but a torn entry write on the timesheet. */
  lemma OtherStaleStep(sys: System, ev: TornEvent, t: int)
    requires TornSystemOk(sys) && CanHappen(sys, ev) && !TornAt(ev, t)
    ensures var l' := StepTorn(sys, ev).db.ledger;
            Stale(l', t) <==> Stale(sys.db.ledger, t) && t in l'.timesheets && !Repairs(sys, ev, t)
  {
    hide TornSystemOk, Stale, Apply, Legal, Subject, Recalculate, RowWrite;
    match ev
    case Whole(e) =>
      if e.Request? {
        WholeOpStale(sys, e.op, t);
      } else {
        StaleExists(sys.db.ledger, t);
        hide Step, Enabled;
        OtherEventStale(sys, e, t);
      }
    case EntryWrite(op) =>
      StaleExists(sys.db.ledger, t);
      WriteStale(sys, op, t);
    case LateRecalculation(id) =>
      StaleExists(sys.db.ledger, t);
      RecalculationStale(sys.db.ledger, id, t);
      assert t in Recalculate(sys.db.ledger, id).timesheets <==> t in sys.db.ledger.timesheets by {
        RecalculateDiffersInSums(sys.db.ledger, id);
      }
  }

  lemma StaleExists(l: Ledger, t: int)
    ensures Stale(l, t) ==> t in l.timesheets
  {
    hide TotalsOk, SheetRows;
  }

  /** Stale totals go back to an entry write that was torn, with no repair of the timesheet since. */
  lemma {:induction false} StaleSince(systems: seq<System>, events: seq<TornEvent>, j: nat, t: int) returns (k: nat)
    requires IsTornSchedule(systems, events) && j < |systems| && Stale(systems[j].db.ledger, t)
    ensures k < j && TornAt(events[k], t)
    ensures forall m | k < m < j :: CanHappen(systems[m], events[m]) && !Repairs(systems[m], events[m], t)
    decreases j
  {
    hide Stale, CanHappen, StepTorn, Repairs, TornAt, TornSystemOk;
    if j == 0 {
      assert Stale(EMPTY_STATE.ledger, t);
      NeverStale(t);
    } else {
      TornStepOf(systems, events, j - 1);
      TornScheduleSound(systems, events, j - 1);
      if TornAt(events[j - 1], t) {
        k := j - 1;
      } else {
        OtherStaleStep(systems[j - 1], events[j - 1], t);
        k := StaleSince(systems, events, j - 1, t);
      }
    }
  }

  lemma NeverStale(t: int)
    ensures !Stale(EMPTY_STATE.ledger, t)
  {
  }

  // ---- The torn write itself ----

  datatype Sums = Sums(total: real, billable: real)

  function SumsOf(rows: seq<Entry>): Sums {
    Sums(HoursOf(rows), BillableHoursOf(rows))
  }

  function StoredSumsOf(sheet: Timesheet): Sums {
    Sums(sheet.totalHours, sheet.billableHours)
  }

  function Plus(a: Sums, b: Sums): Sums {
    Sums(a.total + b.total, a.billable + b.billable)
  }

  function Minus(a: Sums, b: Sums): Sums {
    Sums(a.total - b.total, a.billable - b.billable)
  }

  /** What an entry adds to the sums. */
  function Worth(e: Entry): Sums {
    Sums(e.totalHours, if e.billable then e.totalHours else 0.0)
  }

  lemma OneRow(e: Entry)
    ensures SumsOf([e]) == Worth(e) && SumsOf([]) == Sums(0.0, 0.0)
  {
    assert [] + [e] == [e];
    SumSnoc([], e, Total());
    FilterConcat([], [e], IsBillable());
    if e.billable {
      FilterAll([e], IsBillable());
    } else {
      FilterNone([e], IsBillable());
    }
  }

  lemma SumsConcat(a: seq<Entry>, b: seq<Entry>)
    ensures SumsOf(a + b) == Plus(SumsOf(a), SumsOf(b))
  {
    SumConcat(a, b, Total());
    FilterConcat(a, b, IsBillable());
    SumConcat(Filter(a, IsBillable()), Filter(b, IsBillable()), Total());
  }

  /** The timesheet's rows in a table made of three parts, the middle one all its own. */
  lemma PartSums(a: seq<Entry>, mid: seq<Entry>, b: seq<Entry>, t: int)
    requires forall e | e in mid :: e.sheet == t
    ensures SumsOf(SheetRows(a + mid + b, t)) == Plus(SumsOf(SheetRows(a, t) + SheetRows(b, t)), SumsOf(mid))
  {
    FilterConcat(a + mid, b, InSheet(t));
    FilterConcat(a, mid, InSheet(t));
    FilterAll(mid, InSheet(t));
    hide SumsOf;
    SumsConcat(SheetRows(a, t) + mid, SheetRows(b, t));
    SumsConcat(SheetRows(a, t), mid);
    SumsConcat(SheetRows(a, t), SheetRows(b, t));
  }

  lemma SpliceSums(entries: seq<Entry>, i: nat, mid: seq<Entry>, t: int)
    requires i < |entries| && entries[i].sheet == t && forall e | e in mid :: e.sheet == t
    ensures SumsOf(SheetRows(entries[..i] + mid + entries[i + 1..], t))
         == Plus(Minus(SumsOf(SheetRows(entries, t)), Worth(entries[i])), SumsOf(mid))
  {
    var a, b := entries[..i], entries[i + 1..];
    assert entries == a + [entries[i]] + b;
    hide SumsOf, SheetRows, Worth;
    OneRow(entries[i]);
    PartSums(a, [entries[i]], b, t);
    PartSums(a, mid, b, t);
  }

  lemma AppendSums(entries: seq<Entry>, e: Entry, t: int)
    requires e.sheet == t
    ensures SumsOf(SheetRows(entries + [e], t)) == Plus(SumsOf(SheetRows(entries, t)), Worth(e))
  {
    assert entries + [e] == entries + [e] + [] && SheetRows(entries, t) + SheetRows([], t) == SheetRows(entries, t);
    hide SumsOf, SheetRows, Worth;
    OneRow(e);
    PartSums(entries, [e], [], t);
  }

  /** What an entry operation's write adds to the sums of its timesheet. */
  function Change(s: State, op: Op): Sums
    requires Writes(s, op)
  {
    var l := s.ledger;
    match op
    case OpCreateEntry(_, id, dto) => Worth(NewEntry(l.nextEntry, id, dto))
    case OpUpdateEntry(_, id, entryId, dto) =>
      var e := l.entries[FindEntry(l.entries, entryId, id).value];
      Minus(Worth(MergeEntry(e, dto)), Worth(e))
    case OpDeleteEntry(_, id, entryId) =>
      Minus(Sums(0.0, 0.0), Worth(l.entries[FindEntry(l.entries, entryId, id).value]))
  }

  lemma CreateChanges(s: State, op: Op)
    requires Writes(s, op) && op.OpCreateEntry?
    ensures SumsOf(SheetRows(RowWrite(s, op).entries, op.id))
            == Plus(SumsOf(SheetRows(s.ledger.entries, op.id)), Change(s, op))
  {
    var row := NewEntry(s.ledger.nextEntry, op.id, op.dto);
    assert row.sheet == op.id && RowWrite(s, op).entries == s.ledger.entries + [row] && Change(s, op) == Worth(row);
    hide Writes, RowWrite, Change, SumsOf, SheetRows, NewEntry, Worth;
    AppendSums(s.ledger.entries, row, op.id);
  }

  /** An update puts one row, a deletion none, in place of the entry it is about. */
  lemma WriteIsSplice(s: State, op: Op) returns (i: nat, mid: seq<Entry>)
    requires Writes(s, op) && !op.OpCreateEntry?
    ensures i < |s.ledger.entries| && s.ledger.entries[i].sheet == op.id && forall e | e in mid :: e.sheet == op.id
    ensures RowWrite(s, op).entries == s.ledger.entries[..i] + mid + s.ledger.entries[i + 1..]
    ensures |mid| <= 1
    ensures Change(s, op) == Minus(if mid == [] then Sums(0.0, 0.0) else Worth(mid[0]), Worth(s.ledger.entries[i]))
  {
    FoundForWrite(s, op);
    hide Writes;
    i := FindEntry(s.ledger.entries, op.entryId, op.id).value;
    mid := if op.OpUpdateEntry? then [MergeEntry(s.ledger.entries[i], op.dto)] else [];
  }

  lemma SpliceChanges(s: State, op: Op)
    requires Writes(s, op) && !op.OpCreateEntry?
    ensures SumsOf(SheetRows(RowWrite(s, op).entries, op.id))
            == Plus(SumsOf(SheetRows(s.ledger.entries, op.id)), Change(s, op))
  {
    var id := op.id;
    hide Writes, RowWrite, Change, SumsOf, SheetRows, MergeEntry, Worth;
    var i, mid := WriteIsSplice(s, op);
    UpToOneRow(mid);
    SpliceSums(s.ledger.entries, i, mid, id);
    hide Plus, Minus;
    Regroup(SumsOf(SheetRows(s.ledger.entries, id)), Worth(s.ledger.entries[i]), SumsOf(mid));
  }

  lemma UpToOneRow(rows: seq<Entry>)
    requires |rows| <= 1
    ensures SumsOf(rows) == if rows == [] then Sums(0.0, 0.0) else Worth(rows[0])
  {
    if rows != [] {
      OneRow(rows[0]);
      assert rows == [rows[0]];
    }
  }

  lemma Regroup(a: Sums, b: Sums, c: Sums)
    ensures Plus(Minus(a, b), c) == Plus(a, Minus(c, b))
  {
  }

  lemma FoundForWrite(s: State, op: Op)
    requires Writes(s, op) && !op.OpCreateEntry?
    ensures FindEntry(s.ledger.entries, op.entryId, op.id).Some?
  {
    hide SchemaAccepts, MergeEntry, Recalculate, Owns;
  }

  /** After the entry write alone, its timesheet's totals are stale. */
  ghost predicate StaleAfter(s: State, op: Op)
    requires Writes(s, op)
  {
    && op.id in s.ledger.timesheets
    && StoredSumsOf(s.ledger.timesheets[op.id]) != Plus(SumsOf(SheetRows(s.ledger.entries, op.id)), Change(s, op))
  }

  /** That is so exactly if the stored totals are not the old sums plus what the write adds. */
  lemma TornWriteExactly(s: State, op: Op)
    requires Writes(s, op)
    ensures Stale(RowWrite(s, op), op.id) <==> StaleAfter(s, op)
  {
    hide Change, SheetRows, HoursOf, BillableHoursOf, RowWrite, Writes;
    RowWriteLaw(s, op);
    if op.OpCreateEntry? {
      CreateChanges(s, op);
    } else {
      SpliceChanges(s, op);
    }
  }

  /** The write changes no sum. */
  predicate Weightless(s: State, op: Op)
    requires Writes(s, op)
  {
    var l := s.ledger;
    match op
    case OpCreateEntry(_, id, dto) => NewEntry(l.nextEntry, id, dto).totalHours == 0.0
    case OpUpdateEntry(_, id, entryId, dto) =>
      var e := l.entries[FindEntry(l.entries, entryId, id).value];
      Worth(MergeEntry(e, dto)) == Worth(e)
    case OpDeleteEntry(_, id, entryId) => l.entries[FindEntry(l.entries, entryId, id).value].totalHours == 0.0
  }

  /**
   A torn write makes right totals stale exactly if it creates or deletes an entry with hours, or
   updates an entry to other hours or other billable hours.
   */
  lemma TornWriteStale(s: State, op: Op)
    requires Writes(s, op) && !Stale(s.ledger, op.id)
    ensures Stale(RowWrite(s, op), op.id) <==> !Weightless(s, op)
  {
    TornWriteExactly(s, op);
    WeightOfChange(s, op);
    RowWriteLaw(s, op);
    WholeIsWriteThenRecalculate(s, op);
    hide Change, SheetRows, HoursOf, BillableHoursOf, RowWrite, Writes, Weightless, Apply, Legal, Recalculate;
  }

  lemma WeightOfChange(s: State, op: Op)
    requires Writes(s, op)
    ensures Weightless(s, op) <==> Change(s, op) == Sums(0.0, 0.0)
  {
    hide NewEntry, MergeEntry, SchemaAccepts, Recalculate, Owns, NewEntryRefusal;
  }

  /**
   Exactly when the totals of a timesheet are stale after an event: after a torn entry write on it, if
   the stored totals are not the old sums plus what the write adds; after any other event, if they
   were stale, the timesheet is still there, and the event is no successful entry operation or copy
   on it and not its recalculation.
   */
  lemma StaleStep(sys: System, ev: TornEvent, t: int)
    requires TornSystemOk(sys) && CanHappen(sys, ev)
    ensures var l' := StepTorn(sys, ev).db.ledger;
            Stale(l', t) <==> if TornAt(ev, t) then StaleAfter(sys.db, ev.op)
                              else Stale(sys.db.ledger, t) && t in l'.timesheets && !Repairs(sys, ev, t)
  {
    hide TornSystemOk, Stale, StaleAfter, Repairs, RowWrite, Writes, Step;
    if TornAt(ev, t) {
      TornWriteExactly(sys.db, ev.op);
    } else {
      OtherStaleStep(sys, ev, t);
    }
  }

  // ---- Between two repairs ----

  lemma TotalsStayStep(sys: System, ev: TornEvent, t: int)
    requires TornSystemOk(sys) && CanHappen(sys, ev) && !Repairs(sys, ev, t)
    ensures SameTotals(sys.db.ledger, StepTorn(sys, ev).db.ledger, t)
  {
    hide TornSystemOk, Apply, Legal, Subject, Recalculate, RowWrite, SheetRows, Writes;
    match ev
    case Whole(e) =>
      if e.Request? {
        OpTotalsStay(sys, e.op, t);
      } else {
        hide Enabled, Step;
        OtherTotalsStay(sys, e, t);
      }
    case EntryWrite(op) => RowWriteTables(sys.db, op);
    case LateRecalculation(id) => OtherSheetsStay(sys.db.ledger, id, t);
  }

  lemma OtherSheetsStay(l: Ledger, id: int, t: int)
    requires id in l.timesheets && t != id
    ensures SameTotals(l, Recalculate(l, id), t)
  {
    hide SheetRows;
  }

  lemma OtherTotalsStay(sys: System, ev: Event, t: int)
    requires Enabled(sys, ev) && !ev.Request?
    ensures SameTotals(sys.db.ledger, Step(sys, ev).db.ledger, t)
  {
    hide SheetRows, AddHours, IsDirectReport;
  }

  lemma OpTotalsStay(sys: System, op: Op, t: int)
    requires TornSystemOk(sys) && Legal(sys.db, op) && !RepairsBy(sys.db, op, t)
    ensures SameTotals(sys.db.ledger, Apply(sys.db, op).state.ledger, t)
  {
    hide Apply, Legal, TornSystemOk, RepairsBy, IsStaffOp;
    if IsStaffOp(op) {
      StaffTotalsStay(sys.db, op);
    } else if t in sys.db.ledger.timesheets {
      IdsBelow(sys, t);
      if IsEntryOp(op) {
        EntryTotalsStay(sys.db, op, t);
      } else if op.OpCopyWeek? {
        CopyTotalsStay(sys.db, op, t);
      } else {
        SheetTotalsStay(sys.db, op, t);
      }
    }
  }

  /** The timesheet is there from `k` to `j`, and no event in between repairs its totals. */
  ghost predicate Unrepaired(systems: seq<System>, events: seq<TornEvent>, k: nat, j: nat, t: int)
    requires k <= j < |systems| == |events| + 1
  {
    && (forall m | k <= m <= j :: t in systems[m].db.ledger.timesheets)
    && (forall m | k <= m < j :: CanHappen(systems[m], events[m]) && !Repairs(systems[m], events[m], t))
  }

  lemma {:induction false} StoredSince(systems: seq<System>, events: seq<TornEvent>, k: nat, j: nat, t: int)
    requires IsTornSchedule(systems, events) && k <= j < |systems| == |events| + 1
             && Unrepaired(systems, events, k, j, t)
    ensures t in systems[k].db.ledger.timesheets && t in systems[j].db.ledger.timesheets
    ensures StoredSumsOf(systems[j].db.ledger.timesheets[t]) == StoredSumsOf(systems[k].db.ledger.timesheets[t])
    decreases j
  {
    hide CanHappen, StepTorn, Repairs, TornSystemOk, IsTornSchedule;
    if k < j {
      StoredSince(systems, events, k, j - 1, t);
      TornStepOf(systems, events, j - 1);
      TornScheduleSound(systems, events, j - 1);
      TotalsStayStep(systems[j - 1], events[j - 1], t);
    }
  }

  /**
   Over any schedule, from a moment at which the totals of a timesheet are right and until its next
   repair: they are stale exactly when the sums of its entries are not those of that moment.
   */
  lemma StaleExactlySince(systems: seq<System>, events: seq<TornEvent>, k: nat, j: nat, t: int)
    requires IsTornSchedule(systems, events) && k <= j < |systems| == |events| + 1
             && Unrepaired(systems, events, k, j, t)
    requires !Stale(systems[k].db.ledger, t)
    ensures Stale(systems[j].db.ledger, t)
       <==> SumsOf(SheetRows(systems[j].db.ledger.entries, t)) != SumsOf(SheetRows(systems[k].db.ledger.entries, t))
  {
    hide IsTornSchedule, Unrepaired, SheetRows, HoursOf, BillableHoursOf;
    StoredSince(systems, events, k, j, t);
  }
}
