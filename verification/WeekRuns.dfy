/**
 The weeks of timesheets over runs: their length, one per user and week, where they start, and when
 two weeks of one user come to share a day.
 */
module WeekRuns {
  import opened Common
  import opened Rows
  import opened Weeks
  import opened Schema
  import opened Timesheets
  import opened LedgerLaws
  import opened Operations
  import opened StaffLaws
  import opened SheetLaws
  import opened Runs

  // ---- Shape: seven days, and one timesheet per user and week ----

  /** Every timesheet of the organisation spans seven days from its start. */
  ghost predicate WeekEndsOk(l: Ledger, org: int) {
    forall t | t in l.timesheets && l.timesheets[t].org == org ::
      l.timesheets[t].weekEnd == GetWeekEnd(l.timesheets[t].weekStart)
  }

  /** One timesheet per user of the organisation and week. */
  ghost predicate OnePerWeek(l: Ledger, org: int) {
    forall t, u | t in l.timesheets && u in l.timesheets && t != u && l.timesheets[t].org == org ::
      !SameOwner(l.timesheets[t], l.timesheets[u]) || l.timesheets[t].weekStart != l.timesheets[u].weekStart
  }

  ghost predicate Shape(l: Ledger, org: int) {
    WeekEndsOk(l, org) && OnePerWeek(l, org)
  }

  /** An update that writes a date on a timesheet of the organisation. */
  predicate IsDatedUpdate(op: Op, org: int) {
    op.OpUpdateTimesheet? && op.newStart.Some? && op.c.org == org
  }

  lemma BirthShape(s: State, op: Op, a: Timesheet)
    requires Legal(s, op) && !IsStaffOp(op) && SheetBirth(s, op, a)
    ensures a.weekEnd == GetWeekEnd(a.weekStart) && Aligned(a.weekStart, WorkWeekStart(s, a.org))
    ensures forall u | u in s.ledger.timesheets && SameOwner(s.ledger.timesheets[u], a) ::
              s.ledger.timesheets[u].weekStart != a.weekStart
  {
    WeekStartIdempotent(op.date, WorkWeekStart(s, a.org));
    forall u | u in s.ledger.timesheets && SameOwner(s.ledger.timesheets[u], a)
      ensures s.ledger.timesheets[u].weekStart != a.weekStart
    {
      assert !IsWeekOf(s.ledger.timesheets[u], op.c, a.weekStart);
    }
  }

  /** Any operation but a dated update keeps the shape, whatever becomes of the settings. */
  lemma StepKeepsShape(s: State, op: Op, org: int)
    requires Legal(s, op) && AddsUp(s.ledger) && Shape(s.ledger, org) && !IsDatedUpdate(op, org)
    ensures Shape(Apply(s, op).state.ledger, org)
  {
    var ts := Apply(s, op).state.ledger.timesheets;
    hide Apply, AddsUp, SheetBirth, GetWeekEnd, Aligned, WorkWeekStart;
    forall t | t in ts && ts[t].org == org ensures ts[t].weekEnd == GetWeekEnd(ts[t].weekStart) {
      WeekOrigins(s, op, t);
      if t !in s.ledger.timesheets {
        BirthShape(s, op, ts[t]);
      }
    }
    forall t, u | t in ts && u in ts && t != u && ts[t].org == org
      ensures !SameOwner(ts[t], ts[u]) || ts[t].weekStart != ts[u].weekStart
    {
      WeekOrigins(s, op, t);
      WeekOrigins(s, op, u);
      if t !in s.ledger.timesheets {
        BirthShape(s, op, ts[t]);
      } else if u !in s.ledger.timesheets {
        BirthShape(s, op, ts[u]);
      }
    }
  }

  /**
   Over all runs in which nobody of the organisation dates an update: its timesheets span seven
   days, and none of its users has two for one week.
   */
  lemma {:induction false} ShapeOverRun(states: seq<State>, ops: seq<Op>, i: nat, org: int)
    requires IsRun(states, ops) && i < |states|
    requires forall k | 0 <= k < i :: !IsDatedUpdate(ops[k], org)
    ensures Shape(states[i].ledger, org)
    decreases i
  {
    RunLength(states, ops);
    hide IsRun, Shape;
    if i > 0 {
      ShapeOverRun(states, ops, i - 1, org);
      StepOf(states, ops, i - 1);
      hide Apply, Legal, AddsUp, UsedExact, EdgesOk;
      StepKeepsShape(states[i - 1], ops[i - 1], org);
    } else {
      NoWeeksYet(org);
    }
  }

  lemma NoWeeksYet(org: int)
    ensures Shape(EMPTY_STATE.ledger, org) && AllAligned(EMPTY_STATE, org)
  {
  }

  // ---- Alignment ----

  /** The organisation's weeks start on its first day of the week. */
  ghost predicate AllAligned(s: State, org: int) {
    forall t | t in s.ledger.timesheets && s.ledger.timesheets[t].org == org ::
      Aligned(s.ledger.timesheets[t].weekStart, WorkWeekStart(s, org))
  }

  /** A step that dates no timesheet of the organisation and leaves its first day of the week alone. */
  ghost predicate KeepsGrid(s: State, op: Op, org: int)
    requires Legal(s, op)
  {
    !IsDatedUpdate(op, org) && WorkWeekStart(Apply(s, op).state, org) == WorkWeekStart(s, org)
  }

  lemma StepKeepsAligned(s: State, op: Op, org: int)
    requires Legal(s, op) && AddsUp(s.ledger) && AllAligned(s, org) && KeepsGrid(s, op, org)
    ensures AllAligned(Apply(s, op).state, org)
  {
    var s' := Apply(s, op).state;
    hide Apply, AddsUp, SheetBirth, GetWeekEnd, Aligned, WorkWeekStart;
    forall t | t in s'.ledger.timesheets && s'.ledger.timesheets[t].org == org
      ensures Aligned(s'.ledger.timesheets[t].weekStart, WorkWeekStart(s', org))
    {
      WeekOrigins(s, op, t);
      if t !in s.ledger.timesheets {
        BirthShape(s, op, s'.ledger.timesheets[t]);
      }
    }
  }

  lemma {:induction false} AlignedOverRun(states: seq<State>, ops: seq<Op>, i: nat, org: int)
    requires IsRun(states, ops) && i < |states|
    requires forall k | 0 <= k < i :: Legal(states[k], ops[k]) && KeepsGrid(states[k], ops[k], org)
    ensures AllAligned(states[i], org)
    decreases i
  {
    RunLength(states, ops);
    hide IsRun, AllAligned, KeepsGrid;
    if i > 0 {
      AlignedOverRun(states, ops, i - 1, org);
      StepOf(states, ops, i - 1);
      hide Apply, Legal, AddsUp, UsedExact, EdgesOk;
      StepKeepsAligned(states[i - 1], ops[i - 1], org);
    } else {
      NoWeeksYet(org);
    }
  }

  /** Changing the first day of the week leaves the weeks aligned exactly when there are none yet. */
  lemma SettingsChangeExactly(s: State, c: Caller, row: Settings)
    requires Legal(s, OpSettings(c, row)) && c.role == ADMIN && AllAligned(s, c.org)
    requires row.workWeekStart != WorkWeekStart(s, c.org)
    ensures AllAligned(Apply(s, OpSettings(c, row)).state, c.org)
       <==> forall t | t in s.ledger.timesheets :: s.ledger.timesheets[t].org != c.org
  {
    var s' := Apply(s, OpSettings(c, row)).state;
    assert s'.ledger == s.ledger && WorkWeekStart(s', c.org) == row.workWeekStart;
    hide Apply, Legal, Aligned, WorkWeekStart;
    if AllAligned(s', c.org) {
      forall t | t in s.ledger.timesheets ensures s.ledger.timesheets[t].org != c.org {
        OneFirstDay(s.ledger.timesheets[t].weekStart);
      }
    }
  }

  lemma OneFirstDay(start: int)
    ensures !(Aligned(start, Monday) && Aligned(start, Sunday))
  {
  }

  /**
   While an organisation keeps its first day of the week and nobody in it dates an update: the weeks
   of any two timesheets of one of its users share no day, whatever other organisations do.
   */
  lemma WeeksDisjoint(states: seq<State>, ops: seq<Op>, i: nat, t: int, u: int)
    requires IsRun(states, ops) && i < |states|
    requires var ts := states[i].ledger.timesheets;
             && t in ts && u in ts && t != u && ts[t].user == ts[u].user
             && forall k | 0 <= k < i :: Legal(states[k], ops[k]) && KeepsGrid(states[k], ops[k], ts[t].org)
    ensures !Overlap(states[i].ledger.timesheets[t], states[i].ledger.timesheets[u])
  {
    var a, b := states[i].ledger.timesheets[t], states[i].ledger.timesheets[u];
    var org := a.org;
    OrgsOverRun(states, ops, i);
    assert SameOwner(a, b);
    ShapeOverRun(states, ops, i, org);
    AlignedOverRun(states, ops, i, org);
    hide IsRun, KeepsGrid, Aligned, WorkWeekStart;
    AlignedWeeksDisjoint(a.weekStart, b.weekStart, WorkWeekStart(states[i], org));
  }

  // ---- When two weeks of one user share a day ----

  /** The two spans have a day in common, or lie the wrong way round. */
  predicate Overlap(a: Timesheet, b: Timesheet) {
    !(a.weekEnd < b.weekStart || b.weekEnd < a.weekStart)
  }

  predicate OwnedBy(sheet: Timesheet, c: Caller) {
    sheet.user == c.user && sheet.org == c.org
  }

  /** No two of the caller's timesheets overlap. */
  ghost predicate OwnDisjoint(l: Ledger, c: Caller) {
    forall t, u | t in l.timesheets && u in l.timesheets && t != u
                  && OwnedBy(l.timesheets[t], c) && OwnedBy(l.timesheets[u], c) ::
      !Overlap(l.timesheets[t], l.timesheets[u])
  }

  /** Everything but timesheet `id` is as before; `id` is the caller's. */
  ghost predicate OnlyChanges(l: Ledger, l': Ledger, id: int, c: Caller) {
    && id in l'.timesheets && OwnedBy(l'.timesheets[id], c)
    && forall u | u != id :: (u in l'.timesheets <==> u in l.timesheets)
                             && (u in l.timesheets ==> l'.timesheets[u] == l.timesheets[u])
  }

  /** Then the caller's timesheets stay disjoint exactly when the changed one overlaps no other. */
  lemma DisjointAfterChange(l: Ledger, l': Ledger, id: int, c: Caller)
    requires OwnDisjoint(l, c) && OnlyChanges(l, l', id, c)
    ensures OwnDisjoint(l', c) <==>
              forall u | u in l.timesheets && u != id && OwnedBy(l.timesheets[u], c) ::
                !Overlap(l'.timesheets[id], l.timesheets[u])
  {
    if OwnDisjoint(l', c) {
      forall u | u in l.timesheets && u != id && OwnedBy(l.timesheets[u], c)
        ensures !Overlap(l'.timesheets[id], l.timesheets[u])
      {
        assert u in l'.timesheets && l'.timesheets[u] == l.timesheets[u];
      }
    }
  }

  lemma BirthTarget(s: State, op: Op)
    requires Legal(s, op) && AddsUp(s.ledger) && (op.OpCreateTimesheet? || op.OpCopyWeek?)
             && !Apply(s, op).reply.Failed?
    ensures var l', id := Apply(s, op).state.ledger, Subject(s, op);
            && OnlyChanges(s.ledger, l', id, op.c)
            && l'.timesheets[id].weekStart == GetWeekStart(op.date, WorkWeekStart(s, op.c.org))
            && (id in s.ledger.timesheets ==> l'.timesheets[id].weekEnd == s.ledger.timesheets[id].weekEnd
                                              && s.ledger.timesheets[id].org == op.c.org
                                              && l'.timesheets[id].weekStart == s.ledger.timesheets[id].weekStart)
            && (id !in s.ledger.timesheets ==> l'.timesheets[id].weekEnd == GetWeekEnd(l'.timesheets[id].weekStart))
  {
    TargetRow(s, op);
    hide Apply, AddsUp, SheetRows, GetWeekStart, GetWeekEnd, Legal;
    forall u | u != Subject(s, op)
      ensures var ts, ts' := s.ledger.timesheets, Apply(s, op).state.ledger.timesheets;
              (u in ts' <==> u in ts) && (u in ts ==> ts'[u] == ts[u])
    {
      OthersUntouched(s, op, u);
    }
  }

  lemma TargetRow(s: State, op: Op)
    requires Legal(s, op) && (op.OpCreateTimesheet? || op.OpCopyWeek?) && !Apply(s, op).reply.Failed?
    ensures var ts, ts', id := s.ledger.timesheets, Apply(s, op).state.ledger.timesheets, Subject(s, op);
            && id in ts' && OwnedBy(ts'[id], op.c)
            && ts'[id].weekStart == GetWeekStart(op.date, WorkWeekStart(s, op.c.org))
            && (id in ts && op.OpCopyWeek? && op.existing.Some? ==>
                  ts'[id].weekEnd == ts[id].weekEnd && ts[id].org == op.c.org && ts'[id].weekStart == ts[id].weekStart)
            && (!(op.OpCopyWeek? && op.existing.Some?) ==>
                  id == s.ledger.nextSheet && ts'[id].weekEnd == GetWeekEnd(ts'[id].weekStart))
            && (op.OpCopyWeek? && op.existing.Some? ==> id in ts)
  {
    hide Filter, IsLatest, GetWeekStart, GetWeekEnd, HoursOf, BillableHoursOf, Copies, SheetRows, WeekTaken;
  }

  /**
   createTimesheet and copyPreviousWeek look for a timesheet with the same start only. A successful
   call keeps the caller's weeks apart exactly when no other timesheet of the caller starts less
   than seven days from the target week's start.
   */
  lemma BirthOverlapExactly(s: State, op: Op)
    requires Legal(s, op) && AddsUp(s.ledger) && (op.OpCreateTimesheet? || op.OpCopyWeek?)
             && !Apply(s, op).reply.Failed?
    requires WeekEndsOk(s.ledger, op.c.org) && OwnDisjoint(s.ledger, op.c)
    ensures var week := GetWeekStart(op.date, WorkWeekStart(s, op.c.org));
            OwnDisjoint(Apply(s, op).state.ledger, op.c) <==>
              forall u | u in s.ledger.timesheets && u != Subject(s, op) && OwnedBy(s.ledger.timesheets[u], op.c) ::
                s.ledger.timesheets[u].weekStart <= week - 7 || week + 7 <= s.ledger.timesheets[u].weekStart
  {
    BirthTarget(s, op);
    hide Apply, AddsUp, Legal, GetWeekStart;
    DisjointAfterChange(s.ledger, Apply(s, op).state.ledger, Subject(s, op), op.c);
    hide OwnDisjoint;
  }

  /**
   updateTimesheet writes a date as it is given. It keeps every week seven days long exactly when it
   writes the date already there, one timesheet per week exactly when no other one of the owner has
   that date, alignment exactly when the date is a start of a week, and the owner's weeks apart
   exactly when the span from the date to the old week end overlaps none of the others.
   */
  lemma DatedUpdateExactly(s: State, c: Caller, id: int, date: int)
    requires Authentic(s, c) && UpdateTimesheet(s, c, id, Some(date)).reply.Done?
    ensures var l, s' := s.ledger, UpdateTimesheet(s, c, id, Some(date)).state;
            && (WeekEndsOk(l, c.org) ==> (WeekEndsOk(s'.ledger, c.org) <==> date == l.timesheets[id].weekStart))
            && (OnePerWeek(l, c.org) ==>
                  (OnePerWeek(s'.ledger, c.org) <==>
                     forall u | u in l.timesheets && u != id :: !IsWeekOf(l.timesheets[u], c, date)))
            && (AllAligned(s, c.org) ==> (AllAligned(s', c.org) <==> Aligned(date, WorkWeekStart(s, c.org))))
            && (OwnDisjoint(l, c) ==>
                  (OwnDisjoint(s'.ledger, c) <==>
                     forall u | u in l.timesheets && u != id && OwnedBy(l.timesheets[u], c) ::
                       !Overlap(l.timesheets[id].(weekStart := date), l.timesheets[u])))
  {
    var l := s.ledger;
    var s' := UpdateTimesheet(s, c, id, Some(date)).state;
    assert s'.ledger.timesheets == l.timesheets[id := l.timesheets[id].(weekStart := date)];
    assert s'.settings == s.settings;
    hide UpdateTimesheet, GetWeekEnd, Aligned;
    DatedEnds(l, s'.ledger, c, id, date);
    DatedOnePerWeek(l, s'.ledger, c, id, date);
    hide WeekEndsOk, OnePerWeek;
    if AllAligned(s', c.org) {
      assert Aligned(s'.ledger.timesheets[id].weekStart, WorkWeekStart(s', c.org));
    }
    if OwnDisjoint(l, c) {
      DisjointAfterChange(l, s'.ledger, id, c);
    }
  }

  lemma DatedEnds(l: Ledger, l': Ledger, c: Caller, id: int, date: int)
    requires Owns(l, id, c) && l'.timesheets == l.timesheets[id := l.timesheets[id].(weekStart := date)]
    ensures WeekEndsOk(l, c.org) ==> (WeekEndsOk(l', c.org) <==> date == l.timesheets[id].weekStart)
  {
    if WeekEndsOk(l', c.org) {
      assert l'.timesheets[id].weekEnd == GetWeekEnd(l'.timesheets[id].weekStart);
    }
  }

  lemma DatedOnePerWeek(l: Ledger, l': Ledger, c: Caller, id: int, date: int)
    requires Owns(l, id, c) && l'.timesheets == l.timesheets[id := l.timesheets[id].(weekStart := date)]
    ensures OnePerWeek(l, c.org) ==>
              (OnePerWeek(l', c.org)
               <==> forall u | u in l.timesheets && u != id :: !IsWeekOf(l.timesheets[u], c, date))
  {
    if u :| u in l.timesheets && u != id && IsWeekOf(l.timesheets[u], c, date) {
      assert SameOwner(l'.timesheets[id], l'.timesheets[u]);
    }
  }
}
