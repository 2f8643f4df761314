/**
 The stored sums of the ledger: what "the ledger adds up" means, and how each kind of change to the
 tables keeps it. Operations on timesheets and entries touch one timesheet and no approved row.
 */
module LedgerLaws {
  import opened Common
  import opened Rows
  import opened Schema
  import opened Timesheets

  /** Foreign keys hold, and the stored total is the sum of seven columns of 0 to 24 hours. */
  ghost predicate EntryOk(l: Ledger, e: Entry) {
    && e.sheet in l.timesheets && e.project in l.projects && e.id < l.nextEntry
    && e.totalHours == ColumnSum(e.hours)
    && forall i | 0 <= i < 7 :: 0.0 <= e.hours[i] <= 24.0
  }

  /** The primary key: rows in id order, no id twice. */
  ghost predicate Ascending(entries: seq<Entry>) {
    forall i, j | 0 <= i < j < |entries| :: entries[i].id < entries[j].id
  }

  /** A timesheet's stored totals are the sums over its entries. */
  ghost predicate TotalsOk(sheet: Timesheet, rows: seq<Entry>) {
    sheet.totalHours == HoursOf(rows) && sheet.billableHours == BillableHoursOf(rows)
  }

  /** The approval and rejection columns are set exactly in the status that sets them. */
  ghost predicate StatusOk(sheet: Timesheet) {
    && (sheet.approvedBy.Some? <==> sheet.status == APPROVED)
    && (sheet.approvedAt.Some? <==> sheet.status == APPROVED)
    && (sheet.rejectedReason.Some? <==> sheet.status == REJECTED)
    && sheet.approvedBy != Some(sheet.user)
  }

  ghost predicate EntriesOk(l: Ledger) {
    Ascending(l.entries) && forall e | e in l.entries :: EntryOk(l, e)
  }

  ghost predicate SheetsOk(l: Ledger) {
    forall t | t in l.timesheets ::
      t < l.nextSheet && StatusOk(l.timesheets[t]) && TotalsOk(l.timesheets[t], SheetRows(l.entries, t))
  }

  /** Everything that holds at every moment, even between the statements of an approval. */
  ghost predicate AddsUp(l: Ledger) {
    EntriesOk(l) && SheetsOk(l) && forall p | p in l.projects :: p < l.nextProject
  }

  /** Each project's used hours are the hours of its entries in approved timesheets. */
  ghost predicate UsedExact(l: Ledger) {
    forall p | p in l.projects :: l.projects[p].usedHours == ApprovedHours(l, p)
  }

  /** Nothing but timesheet `id` and its rows differs. */
  ghost predicate TouchesOnly(l: Ledger, l': Ledger, id: int) {
    && l'.projects == l.projects && l'.nextProject == l.nextProject
    && l'.nextSheet >= l.nextSheet
    && forall u | u != id ::
         && (u in l'.timesheets <==> u in l.timesheets)
         && (u in l.timesheets ==> l'.timesheets[u] == l.timesheets[u]
                                   && SheetRows(l'.entries, u) == SheetRows(l.entries, u))
  }

  /** A sound change to one timesheet that is not approved. */
  ghost predicate SoundChange(l: Ledger, l': Ledger, id: int) {
    AddsUp(l') && TouchesOnly(l, l', id) && ApprovedRows(l') == ApprovedRows(l)
  }

  // ---- Changes to one timesheet ----

  /** The rows outside timesheet `id` are the same, in the same order. */
  ghost predicate SameElsewhere(a: seq<Entry>, b: seq<Entry>, id: int) {
    Filter(a, NotInSheet(id)) == Filter(b, NotInSheet(id))
  }

  lemma Elsewhere(a: seq<Entry>, b: seq<Entry>, id: int, keep: Entry -> bool)
    requires SameElsewhere(a, b, id)
    requires forall e | e in a || e in b :: keep(e) ==> e.sheet != id
    ensures Filter(a, keep) == Filter(b, keep)
  {
    FilterTwice(a, NotInSheet(id), keep);
    FilterTwice(b, NotInSheet(id), keep);
  }

  lemma ElsewhereRows(a: seq<Entry>, b: seq<Entry>, id: int)
    requires SameElsewhere(a, b, id)
    ensures forall u | u != id :: SheetRows(a, u) == SheetRows(b, u)
  {
    forall u | u != id ensures SheetRows(a, u) == SheetRows(b, u) {
      Elsewhere(a, b, id, InSheet(u));
    }
  }

  /** Whether a row lies in an approved timesheet only depends on that timesheet's status. */
  lemma SameApprovedRows(l: Ledger, l': Ledger, id: int)
    requires SameElsewhere(l.entries, l'.entries, id)
    requires forall e | e in l'.entries :: e.sheet == id || e.sheet in l.timesheets
    requires id in l.timesheets ==> l.timesheets[id].status != APPROVED
    requires id in l'.timesheets ==> l'.timesheets[id].status != APPROVED
    requires forall u | u != id && u in l.timesheets ::
               u in l'.timesheets && l'.timesheets[u].status == l.timesheets[u].status
    ensures ApprovedRows(l') == ApprovedRows(l)
  {
    Elsewhere(l.entries, l'.entries, id, InApproved(l.timesheets));
    FilterSame(l'.entries, InApproved(l.timesheets), InApproved(l'.timesheets));
  }

  /** The one rule behind all operations on a timesheet and its entries. */
  lemma ChangeOneSheet(l: Ledger, l': Ledger, id: int)
    requires AddsUp(l) && EntriesOk(l')
    requires SameElsewhere(l.entries, l'.entries, id)
    requires l'.projects == l.projects && l'.nextProject == l.nextProject && l'.nextSheet >= l.nextSheet
    requires l'.timesheets - {id} == l.timesheets - {id}
    requires id in l.timesheets ==> l.timesheets[id].status != APPROVED
    requires id in l'.timesheets ==>
      id < l'.nextSheet && StatusOk(l'.timesheets[id]) && l'.timesheets[id].status != APPROVED
      && TotalsOk(l'.timesheets[id], SheetRows(l'.entries, id))
    ensures SoundChange(l, l', id)
  {
    ElsewhereRows(l.entries, l'.entries, id);
    forall u | u != id ensures (u in l'.timesheets <==> u in l.timesheets)
                         && (u in l.timesheets ==> l'.timesheets[u] == l.timesheets[u]) {
      assert u in l.timesheets - {id} <==> u in l.timesheets;
      assert u in l'.timesheets - {id} <==> u in l'.timesheets;
      if u in l.timesheets {
        assert (l.timesheets - {id})[u] == (l'.timesheets - {id})[u];
      }
    }
    SameApprovedRows(l, l', id);
  }

  // ---- Entry tables ----

  lemma AppendElsewhere(a: seq<Entry>, rows: seq<Entry>, id: int)
    requires forall e | e in rows :: e.sheet == id
    ensures SameElsewhere(a, a + rows, id)
  {
    FilterConcat(a, rows, NotInSheet(id));
    FilterNone(rows, NotInSheet(id));
  }

  lemma RemoveElsewhere(a: seq<Entry>, id: int)
    ensures SameElsewhere(a, Filter(a, NotInSheet(id)), id)
  {
    FilterTwice(a, NotInSheet(id), NotInSheet(id));
  }

  lemma {:induction false} AscendingFilter(entries: seq<Entry>, keep: Entry -> bool)
    requires Ascending(entries)
    ensures Ascending(Filter(entries, keep))
  {
    if entries != [] {
      var n := |entries| - 1;
      AscendingFilter(entries[..n], keep);
      FilterMembers(entries[..n], keep);
      var before := Filter(entries[..n], keep);
      forall i | 0 <= i < |before| ensures before[i].id < entries[n].id {
        assert before[i] in entries[..n];
      }
    }
  }

  /** Rows outside a timesheet contain none of its rows. */
  lemma RowsAfterRemoval(entries: seq<Entry>, id: int)
    ensures SheetRows(Filter(entries, NotInSheet(id)), id) == []
  {
    FilterMembers(entries, NotInSheet(id));
    FilterNone(Filter(entries, NotInSheet(id)), InSheet(id));
  }

  lemma NoRowsYet(l: Ledger, id: int)
    requires EntriesOk(l) && id !in l.timesheets
    ensures SheetRows(l.entries, id) == []
  {
    FilterNone(l.entries, InSheet(id));
  }

  // ---- The operations' table changes ----

  lemma AddSheetSound(l: Ledger, sheet: Timesheet)
    requires AddsUp(l) && StatusOk(sheet) && sheet.status != APPROVED
    requires sheet.totalHours == 0.0 && sheet.billableHours == 0.0
    ensures l.nextSheet !in l.timesheets
    ensures SoundChange(l, AddSheet(l, sheet), l.nextSheet)
  {
    NoRowsYet(l, l.nextSheet);
    var l' := AddSheet(l, sheet);
    assert l'.timesheets - {l.nextSheet} == l.timesheets - {l.nextSheet};
    ChangeOneSheet(l, l', l.nextSheet);
  }

  lemma SetSheetSound(l: Ledger, id: int, sheet: Timesheet)
    requires AddsUp(l) && id in l.timesheets && l.timesheets[id].status != APPROVED
    requires StatusOk(sheet) && sheet.status != APPROVED
    requires sheet.totalHours == l.timesheets[id].totalHours && sheet.billableHours == l.timesheets[id].billableHours
    ensures SoundChange(l, SetSheet(l, id, sheet), id)
  {
    var l' := SetSheet(l, id, sheet);
    assert l'.timesheets - {id} == l.timesheets - {id};
    ChangeOneSheet(l, l', id);
  }

  lemma RemoveSheetSound(l: Ledger, id: int)
    requires AddsUp(l) && id in l.timesheets && l.timesheets[id].status != APPROVED
    ensures SoundChange(l, RemoveSheet(l, id), id)
  {
    var l' := RemoveSheet(l, id);
    AscendingFilter(l.entries, NotInSheet(id));
    FilterMembers(l.entries, NotInSheet(id));
    RemoveElsewhere(l.entries, id);
    assert EntriesOk(l');
    assert l'.timesheets - {id} == l.timesheets - {id};
    hide AddsUp, EntriesOk, SameElsewhere;
    ChangeOneSheet(l, l', id);
  }

  /** After any change to a timesheet's rows, recalculating makes the ledger add up again. */
  lemma RecalculateSound(l: Ledger, l1: Ledger, id: int)
    requires AddsUp(l) && EntriesOk(l1) && SameElsewhere(l.entries, l1.entries, id)
    requires id in l.timesheets && l.timesheets[id].status != APPROVED
    requires l1 == l.(entries := l1.entries, nextEntry := l1.nextEntry)
    ensures SoundChange(l, Recalculate(l1, id), id)
  {
    var l' := Recalculate(l1, id);
    assert l'.timesheets - {id} == l.timesheets - {id};
    ChangeOneSheet(l, l', id);
  }

  /** Whatever totals were stored before, recalculating stores the sums. */
  lemma RecalculateRepairs(l: Ledger, id: int)
    requires id in l.timesheets
    ensures var l' := Recalculate(l, id);
            TotalsOk(l'.timesheets[id], SheetRows(l'.entries, id))
  {
  }

  lemma SpliceElsewhere(entries: seq<Entry>, i: nat, rows: seq<Entry>, id: int)
    requires i < |entries| && entries[i].sheet == id && forall e | e in rows :: e.sheet == id
    ensures SameElsewhere(entries, entries[..i] + rows + entries[i + 1..], id)
  {
    FilterSplice(entries, i, rows, NotInSheet(id));
  }

  lemma SpliceOk(l: Ledger, i: nat, rows: seq<Entry>)
    requires EntriesOk(l) && i < |l.entries|
    requires rows == [] || (|rows| == 1 && rows[0].id == l.entries[i].id && EntryOk(l, rows[0]))
    ensures EntriesOk(Splice(l, i, rows))
  {
    var l' := Splice(l, i, rows);
    forall e | e in l'.entries ensures EntryOk(l', e) {
      assert e in l.entries || e in rows;
    }
    var k := |rows|;
    forall a, b | 0 <= a < b < |l'.entries| ensures l'.entries[a].id < l'.entries[b].id {
      assert a < i ==> l'.entries[a] == l.entries[a];
      assert a >= i + k ==> l'.entries[a] == l.entries[a - k + 1];
      assert b < i ==> l'.entries[b] == l.entries[b];
      assert b >= i + k ==> l'.entries[b] == l.entries[b - k + 1];
    }
  }

  /** The ledger after a copy: the target's rows are the copies, and its totals are theirs. */
  lemma WriteCopiesSound(l: Ledger, id: int, source: seq<Entry>)
    requires AddsUp(l) && id in l.timesheets && l.timesheets[id].status != APPROVED
    requires forall e | e in source :: EntryOk(l, e)
    ensures SoundChange(l, WriteCopies(l, id, source), id)
    ensures SheetRows(WriteCopies(l, id, source).entries, id) == Copies(source, id, l.nextEntry)
  {
    var l' := WriteCopies(l, id, source);
    WriteCopiesRows(l, id, source);
    CopiedRows(l, id, source);
    assert l'.timesheets - {id} == l.timesheets - {id};
    assert StatusOk(l.timesheets[id]);
    hide AddsUp, EntriesOk, SheetsOk, SameElsewhere, SoundChange, SheetRows, Copies, EntryOk, Filter;
    ChangeOneSheet(l, l', id);
  }

  /** The copies are the timesheet's rows; all other rows stay. */
  lemma CopiedRows(l: Ledger, id: int, source: seq<Entry>)
    requires id in l.timesheets
    ensures var entries := WriteCopies(l, id, source).entries;
            SheetRows(entries, id) == Copies(source, id, l.nextEntry) && SameElsewhere(l.entries, entries, id)
  {
    var kept := Filter(l.entries, NotInSheet(id));
    var rows := Copies(source, id, l.nextEntry);
    assert WriteCopies(l, id, source).entries == kept + rows;
    assert forall e | e in rows :: e.sheet == id;
    hide Copies, Filter, WriteCopies;
    RemoveElsewhere(l.entries, id);
    AppendElsewhere(kept, rows, id);
    FilterConcat(kept, rows, InSheet(id));
    RowsAfterRemoval(l.entries, id);
    FilterAll(rows, InSheet(id));
  }

  lemma WriteCopiesRows(l: Ledger, id: int, source: seq<Entry>)
    requires EntriesOk(l) && id in l.timesheets && forall e | e in source :: EntryOk(l, e)
    ensures EntriesOk(WriteCopies(l, id, source))
  {
    var l' := WriteCopies(l, id, source);
    var kept := Filter(l.entries, NotInSheet(id));
    var rows := Copies(source, id, l.nextEntry);
    FilterMembers(l.entries, NotInSheet(id));
    AscendingFilter(l.entries, NotInSheet(id));
    forall e | e in l'.entries ensures EntryOk(l', e) {
      if e in kept {
        assert EntryOk(l, e);
      } else {
        var i :| 0 <= i < |rows| && rows[i] == e;
        assert EntryOk(l, source[i]);
      }
    }
    forall a | 0 <= a < |kept| ensures kept[a].id < l.nextEntry {
      assert kept[a] in l.entries;
    }
  }

  // ---- Bounds ----

  lemma {:induction false} ColumnSumBounds(w: seq<real>)
    requires forall i | 0 <= i < |w| :: 0.0 <= w[i] <= 24.0
    ensures 0.0 <= ColumnSum(w) <= 24.0 * |w| as real
  {
    if w != [] {
      ColumnSumBounds(w[..|w| - 1]);
      assert 24.0 * |w| as real == 24.0 * (|w| - 1) as real + 24.0;
    }
  }

  /** 0 <= billable <= total <= 168 hours per entry. */
  lemma TotalsBounded(l: Ledger, id: int)
    requires AddsUp(l) && id in l.timesheets
    ensures var sheet := l.timesheets[id];
            0.0 <= sheet.billableHours <= sheet.totalHours <= 168.0 * |SheetRows(l.entries, id)| as real
  {
    var rows := SheetRows(l.entries, id);
    FilterMembers(l.entries, InSheet(id));
    forall e | e in rows ensures 0.0 <= Total()(e) <= 168.0 {
      assert EntryOk(l, e);
      ColumnSumBounds(e.hours);
    }
    SumBounds(rows, Total(), 168.0);
    SumFilterAtMost(rows, IsBillable(), Total());
  }
}
