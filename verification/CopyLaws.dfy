/** What copying the previous week copies, from where, and what it leaves alone. */
module CopyLaws {
  import opened Common
  import opened Rows
  import opened Weeks
  import opened Schema
  import opened Timesheets
  import opened LedgerLaws
  import opened Operations
  import opened SheetLaws

  /**
   A successful copy: the source is the caller's latest submitted or approved timesheet, is not the
   target and stays as it was; the target's rows are, in order, the source's rows on projects the
   caller may still use (all rows unless the caller is an EMPLOYEE), and the rest is counted as skipped.
   */
  lemma CopyWeekLaw(s: State, op: Op)
    requires op.OpCopyWeek? && Legal(s, op) && AddsUp(s.ledger) && Apply(s, op).reply.Copied?
    ensures op.previous.Some? && op.previous.value in s.ledger.timesheets
    ensures var l, l', o := s.ledger, Apply(s, op).state.ledger, Apply(s, op).reply;
            var from := op.previous.value;
            var source := SheetRows(l.entries, from);
            && o.id == Subject(s, op) && o.id in l'.timesheets && o.id != from
            && from in l'.timesheets && l'.timesheets[from] == l.timesheets[from]
            && SheetRows(l'.entries, from) == source
            && SheetRows(l'.entries, o.id) == Copies(Filter(source, StillAssigned(s, op.c)), o.id, l.nextEntry)
            && |SheetRows(l'.entries, o.id)| + o.skipped == |source| && o.skipped >= 0
            && (op.c.role != EMPLOYEE ==> o.skipped == 0)
    ensures var l', id := Apply(s, op).state.ledger, Apply(s, op).reply.id;
            && TotalsOk(l'.timesheets[id], SheetRows(l'.entries, id))
            && l'.timesheets[id].status == DRAFT
            && l'.timesheets[id].weekStart == GetWeekStart(op.date, WorkWeekStart(s, op.c.org))
  {
    var l := s.ledger;
    var from := op.previous.value;
    var source := SheetRows(l.entries, from);
    var kept := Filter(source, StillAssigned(s, op.c));
    FilterShorter(source, StillAssigned(s, op.c));
    if op.c.role != EMPLOYEE {
      FilterAll(source, StillAssigned(s, op.c));
    }
    SourceOk(s, op.c, from);
    CopyTarget(s, op);
    OthersUntouched(s, op, from);
    CopySound(s, op);
    hide AddsUp, SheetRows, Filter, IsLatest, IsExisting, HoursOf, BillableHoursOf, EntriesOk, GetWeekStart;
    if op.existing.Some? {
      WriteCopiesSound(l, op.existing.value, kept);
    } else {
      var sheet := NewSheet(op.c, GetWeekStart(op.date, WorkWeekStart(s, op.c.org)));
      AddSheetSound(l, sheet);
      EntriesOkWithSheet(l, sheet, kept);
      WriteCopiesSound(AddSheet(l, sheet), l.nextSheet, kept);
    }
  }

  /** The target is not the source: one is a draft, or new, the other submitted or approved. */
  lemma CopyTarget(s: State, op: Op)
    requires op.OpCopyWeek? && Legal(s, op) && AddsUp(s.ledger) && Apply(s, op).reply.Copied?
    ensures op.previous.Some? && op.previous.value in s.ledger.timesheets
    ensures Apply(s, op).reply.id == Subject(s, op) != op.previous.value
    ensures var l', id := Apply(s, op).state.ledger, Subject(s, op);
            id in l'.timesheets && l'.timesheets[id].status == DRAFT
            && l'.timesheets[id].weekStart == GetWeekStart(op.date, WorkWeekStart(s, op.c.org))
  {
    hide SheetRows, Filter, HoursOf, BillableHoursOf, EntriesOk, GetWeekStart;
  }

  lemma CopySound(s: State, op: Op)
    requires op.OpCopyWeek? && Legal(s, op) && AddsUp(s.ledger)
             && Subject(s, op) in Apply(s, op).state.ledger.timesheets
    ensures var l', id := Apply(s, op).state.ledger, Subject(s, op);
            TotalsOk(l'.timesheets[id], SheetRows(l'.entries, id))
  {
    hide Apply, SheetRows, Filter, TotalsOk, EntriesOk;
    CopyWeekSound(s, op);
  }

  lemma EntriesOkWithSheet(l: Ledger, sheet: Timesheet, rows: seq<Entry>)
    requires forall e | e in rows :: EntryOk(l, e)
    ensures forall e | e in rows :: EntryOk(AddSheet(l, sheet), e)
  {
    forall e | e in rows ensures EntryOk(AddSheet(l, sheet), e) {
      assert EntryOk(l, e);
    }
  }
}
