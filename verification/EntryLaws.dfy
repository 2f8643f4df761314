/** What merging and copying entry rows means. */
module EntryLaws {
  import opened Common
  import opened Rows
  import opened Schema
  import opened Timesheets

  // ---- Merging ----

  const NO_INPUT: WeekInput := [None, None, None, None, None, None, None]
  const NO_NOTES: Notes := [None, None, None, None, None, None, None]
  const NOTHING := EntryInput(None, None, NO_INPUT, NO_NOTES, NO_INPUT)

  /** An empty update leaves an entry as it is exactly when its stored total was right. */
  lemma MergeNothing(e: Entry)
    ensures MergeEntry(e, NOTHING) == e <==> e.totalHours == ColumnSum(e.hours)
  {
    var m := MergeEntry(e, NOTHING);
    assert m.hours == e.hours && m.timeOff == e.timeOff && m.notes == e.notes;
  }

  function Later<T>(a: Option<T>, b: Option<T>): Option<T> {
    if b.Some? then b else a
  }

  function LaterWeek(a: WeekInput, b: WeekInput): WeekInput {
    seq(7, i requires 0 <= i < 7 => Later(a[i], b[i]))
  }

  /** Both requests in one, the second prevailing where both name a column. */
  function Both(a: EntryInput, b: EntryInput): EntryInput {
    EntryInput(Later(a.project, b.project), Later(a.billable, b.billable), LaterWeek(a.hours, b.hours),
               MergeNotes(b.notes, a.notes), LaterWeek(a.timeOff, b.timeOff))
  }

  lemma MergeWeekTwice(w: Week, a: WeekInput, b: WeekInput)
    ensures MergeWeek(b, MergeWeek(a, w)) == MergeWeek(LaterWeek(a, b), w)
  {
  }

  lemma MergeNotesTwice(w: Notes, a: Notes, b: Notes)
    ensures MergeNotes(b, MergeNotes(a, w)) == MergeNotes(MergeNotes(b, a), w)
  {
  }

  /** Two updates are one update with both requests; so repeating an update changes nothing. */
  lemma MergeTwice(e: Entry, a: EntryInput, b: EntryInput)
    ensures MergeEntry(MergeEntry(e, a), b) == MergeEntry(e, Both(a, b))
    ensures MergeEntry(MergeEntry(e, a), a) == MergeEntry(e, a)
  {
    MergeWeekTwice(e.hours, a.hours, b.hours);
    MergeWeekTwice(e.timeOff, a.timeOff, b.timeOff);
    MergeNotesTwice(e.notes, a.notes, b.notes);
    RepeatIsOnce(e, a);
  }

  lemma RepeatIsOnce(e: Entry, a: EntryInput)
    ensures MergeEntry(MergeEntry(e, a), a) == MergeEntry(e, a)
  {
    var m := MergeEntry(e, a);
    assert MergeWeek(a.hours, m.hours) == m.hours;
    assert MergeWeek(a.timeOff, m.timeOff) == m.timeOff;
    assert MergeNotes(a.notes, m.notes) == m.notes;
  }

  /** Creating an entry and updating it is creating it with both requests. */
  lemma CreateThenUpdate(id: int, sheet: int, a: EntryInput, b: EntryInput)
    requires a.project.Some?
    ensures MergeEntry(NewEntry(id, sheet, a), b) == NewEntry(id, sheet, Both(a, b))
  {
    MergeWeekTwice(NO_HOURS, a.hours, b.hours);
    MergeWeekTwice(NO_HOURS, a.timeOff, b.timeOff);
  }

  // ---- Copying ----

  /** The sums copied with the rows are the sums of the rows they were copied from. */
  lemma {:induction false} CopiesKeepTotals(source: seq<Entry>, sheet: int, firstId: int)
    ensures HoursOf(Copies(source, sheet, firstId)) == HoursOf(source)
    ensures BillableHoursOf(Copies(source, sheet, firstId)) == BillableHoursOf(source)
  {
    if source != [] {
      var n := |source| - 1;
      var rows := Copies(source, sheet, firstId);
      CopiesKeepTotals(source[..n], sheet, firstId);
      assert rows[..n] == Copies(source[..n], sheet, firstId);
      if source[n].billable {
        SumSnoc(Filter(rows[..n], IsBillable()), rows[n], Total());
        SumSnoc(Filter(source[..n], IsBillable()), source[n], Total());
      }
    }
  }

  /** The copied rows are the source's rows, with new ids on another timesheet. */
  predicate SameContent(a: Entry, b: Entry) {
    a.(id := b.id, sheet := b.sheet) == b
  }

  /** The copies agree with their sources in every column exactly when the sources have no time off. */
  lemma CopiesAgreeExactly(source: seq<Entry>, sheet: int, firstId: int)
    ensures (forall i | 0 <= i < |source| :: SameContent(Copies(source, sheet, firstId)[i], source[i]))
       <==> forall i | 0 <= i < |source| :: source[i].timeOff == NO_HOURS
  {
    var rows := Copies(source, sheet, firstId);
    forall i | 0 <= i < |source| ensures SameContent(rows[i], source[i]) <==> source[i].timeOff == NO_HOURS {
      assert rows[i].timeOff == NO_HOURS;
    }
  }
}
