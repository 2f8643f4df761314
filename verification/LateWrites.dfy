/**
 Writes whose checks are out of date. An approval, a rejection or an entry operation reads and checks
 its timesheet before it writes; if another caller's approval falls in between, the write comes late.
 Each law says exactly when the account of hours survives.
 */
module LateWrites {
  import opened Common
  import opened Rows
  import opened Schema
  import opened Timesheets
  import opened Approvals
  import opened LedgerLaws
  import opened Operations
  import opened Interleaving

  /** The status write of an approval whose checks were made in an earlier state. */
  function LateCommit(sys: System, id: int, approver: int, now: int): System
    requires id in sys.db.ledger.timesheets
  {
    System(sys.db.(ledger := MarkApproved(sys.db.ledger, id, approver, now)), sys.procs + [Loading(id)])
  }

  /**
   A late status write keeps the account exactly when the timesheet is not approved already, or
   has no hours to count twice.
   */
  lemma RepeatedApprovalExactly(sys: System, id: int, approver: int, now: int)
    requires SystemOk(sys) && id in sys.db.ledger.timesheets
    ensures Accounted(LateCommit(sys, id, approver, now))
       <==> sys.db.ledger.timesheets[id].status != APPROVED
            || forall p | p in sys.db.ledger.projects :: Sum(SheetRows(sys.db.ledger.entries, id), OnProject(p)) == 0.0
  {
    var l := sys.db.ledger;
    var sys' := LateCommit(sys, id, approver, now);
    var l' := sys'.db.ledger;
    forall p | p in l.projects
      ensures Owed(sys', p) == Owed(sys, p) + Sum(SheetRows(l.entries, id), OnProject(p))
      ensures ApprovedHours(l', p) == ApprovedHours(l, p)
                + (if l.timesheets[id].status != APPROVED then Sum(SheetRows(l.entries, id), OnProject(p)) else 0.0)
    {
      SumSnoc(sys.procs, Loading(id), Owes(l.entries, p));
      if l.timesheets[id].status != APPROVED {
        MarkApprovedMoves(l, id, approver, now, p);
      } else {
        FilterSame(l.entries, InApproved(l.timesheets), InApproved(l'.timesheets));
      }
    }
    hide AddsUp, SheetRows, ApprovedHours, Owed;
  }

  /** The status write of a rejection whose checks were made in an earlier state. */
  function LateReject(sys: System, id: int, reason: string): System
    requires id in sys.db.ledger.timesheets
  {
    var sheet := sys.db.ledger.timesheets[id].(status := REJECTED, rejectedReason := Some(reason));
    sys.(db := sys.db.(ledger := SetSheet(sys.db.ledger, id, sheet)))
  }

  /** A write that is not late is that of the approval or rejection itself. */
  lemma OnTimeWrites(sys: System, c: Caller, id: int, now: int, reason: string)
    ensures Enabled(sys, Commit(c, id, now)) ==>
              id in sys.db.ledger.timesheets && LateCommit(sys, id, c.user, now) == Step(sys, Commit(c, id, now))
    ensures RejectTimesheet(sys.db, c, id, reason).reply.Done? ==>
              && id in sys.db.ledger.timesheets
              && LateReject(sys, id, reason) == sys.(db := RejectTimesheet(sys.db, c, id, reason).state)
  {
  }

  lemma RejectionMoves(l: Ledger, l': Ledger, id: int, p: int)
    requires id in l.timesheets && id in l'.timesheets && l'.timesheets[id].status == REJECTED
    requires l'.timesheets == l.timesheets[id := l'.timesheets[id]] && l'.entries == l.entries
    ensures ApprovedHours(l', p)
         == ApprovedHours(l, p) - (if l.timesheets[id].status == APPROVED
             then Sum(SheetRows(l.entries, id), OnProject(p)) else 0.0)
  {
    if l.timesheets[id].status == APPROVED {
      SumSplit(l.entries, InApproved(l.timesheets), InApproved(l'.timesheets), InSheet(id), OnProject(p));
    } else {
      FilterSame(l.entries, InApproved(l.timesheets), InApproved(l'.timesheets));
    }
  }

  /**
   A late rejection leaves hours charged that are no longer approved, unless the timesheet is not
   approved or has no hours.
   */
  lemma LateRejectionExactly(sys: System, id: int, reason: string)
    requires Accounted(sys) && id in sys.db.ledger.timesheets
    ensures Accounted(LateReject(sys, id, reason))
       <==> sys.db.ledger.timesheets[id].status != APPROVED
            || forall p | p in sys.db.ledger.projects :: Sum(SheetRows(sys.db.ledger.entries, id), OnProject(p)) == 0.0
  {
    var l, l' := sys.db.ledger, LateReject(sys, id, reason).db.ledger;
    forall p | p in l.projects
      ensures ApprovedHours(l', p)
           == ApprovedHours(l, p) - (if l.timesheets[id].status == APPROVED
               then Sum(SheetRows(l.entries, id), OnProject(p)) else 0.0)
    {
      RejectionMoves(l, l', id, p);
    }
    hide SheetRows, ApprovedHours;
  }

  /** An entry write whose checks were made in an earlier state: the timesheet's rows become others. */
  function LateEntries(sys: System, entries: seq<Entry>): System {
    sys.(db := sys.db.(ledger := sys.db.ledger.(entries := entries)))
  }

  function ProjectHours(entries: seq<Entry>, id: int, p: int): real {
    Sum(SheetRows(entries, id), OnProject(p))
  }

  function ApprovedBut(timesheets: map<int, Timesheet>, id: int): Entry -> bool {
    (e: Entry) => e.sheet != id && InApproved(timesheets)(e)
  }

  /** One if the timesheet is approved. */
  function Charged(l: Ledger, id: int): real
    requires id in l.timesheets
  {
    if l.timesheets[id].status == APPROVED then 1.0 else 0.0
  }

  /** The approved hours of a project: those of other timesheets, and those of this one if it is approved. */
  lemma ApprovedApart(l: Ledger, id: int, p: int)
    requires id in l.timesheets
    ensures ApprovedHours(l, p) == Sum(Filter(l.entries, ApprovedBut(l.timesheets, id)), OnProject(p))
                                   + Times(ProjectHours(l.entries, id, p), Charged(l, id))
  {
    if l.timesheets[id].status == APPROVED {
      SumSplit(l.entries, InApproved(l.timesheets), ApprovedBut(l.timesheets, id), InSheet(id), OnProject(p));
    } else {
      FilterSame(l.entries, InApproved(l.timesheets), ApprovedBut(l.timesheets, id));
    }
  }

  /** One for each approval of the timesheet that has not read its entries. */
  function StillToRead(id: int): Process -> real {
    (proc: Process) => if proc == Loading(id) then 1.0 else 0.0
  }

  /** A product kept closed where only its name is needed. */
  function Times(x: real, y: real): real {
    x * y
  }

  lemma Distribute(d: real, a: real, b: real)
    ensures d * (a + b) == d * a + d * b
  {
  }

  lemma OwesAfterEntries(entries: seq<Entry>, entries': seq<Entry>, proc: Process, id: int, p: int)
    requires SameElsewhere(entries, entries', id)
    ensures Owes(entries', p)(proc)
         == Owes(entries, p)(proc)
            + (ProjectHours(entries', id, p) - ProjectHours(entries, id, p)) * StillToRead(id)(proc)
  {
    ElsewhereRows(entries, entries', id);
    hide SheetRows, SameElsewhere;
  }

  lemma {:induction false} SumScaled<T>(rows: seq<T>, after: T -> real, before: T -> real, share: T -> real, d: real)
    requires forall x | x in rows :: after(x) == before(x) + d * share(x)
    ensures Sum(rows, after) == Sum(rows, before) + d * Sum(rows, share)
  {
    if rows != [] {
      var n := |rows| - 1;
      SumScaled(rows[..n], after, before, share, d);
      Distribute(d, Sum(rows[..n], share), share(rows[n]));
    }
  }

  lemma OwedAfterEntries(entries: seq<Entry>, entries': seq<Entry>, procs: seq<Process>, id: int, p: int)
    requires SameElsewhere(entries, entries', id)
    ensures Sum(procs, Owes(entries', p))
         == Sum(procs, Owes(entries, p))
            + Times(ProjectHours(entries', id, p) - ProjectHours(entries, id, p), Sum(procs, StillToRead(id)))
  {
    hide SameElsewhere, ProjectHours, Owes, StillToRead, Sum;
    var d := ProjectHours(entries', id, p) - ProjectHours(entries, id, p);
    forall proc ensures Owes(entries', p)(proc) == Owes(entries, p)(proc) + d * StillToRead(id)(proc) {
      OwesAfterEntries(entries, entries', proc, id, p);
    }
    SumScaled(procs, Owes(entries', p), Owes(entries, p), StillToRead(id), d);
  }

  /**
   Late entry writes keep the account exactly when they change no project's hours, or every approval of
   the timesheet is still to read its entries: none if it is not approved, one if it is.
   */
  lemma LateEntriesExactly(sys: System, id: int, entries: seq<Entry>)
    requires Accounted(sys) && id in sys.db.ledger.timesheets && SameElsewhere(sys.db.ledger.entries, entries, id)
    ensures var l := sys.db.ledger;
            Accounted(LateEntries(sys, entries))
            <==> Sum(sys.procs, StillToRead(id)) == Charged(l, id)
                 || forall p | p in l.projects :: ProjectHours(entries, id, p) == ProjectHours(l.entries, id, p)
  {
    var l, sys' := sys.db.ledger, LateEntries(sys, entries);
    var l', count := sys'.db.ledger, Sum(sys.procs, StillToRead(id));
    forall p | p in l.projects
      ensures l'.projects[p].usedHours + Owed(sys', p) == ApprovedHours(l', p)
         <==> count == Charged(l, id) || ProjectHours(entries, id, p) == ProjectHours(l.entries, id, p)
    {
      LateEntriesOn(sys, id, entries, p);
    }
    hide ProjectHours, ApprovedHours, Owed, SameElsewhere, Charged;
  }

  lemma SameCharge(l: Ledger, entries: seq<Entry>, id: int)
    requires id in l.timesheets
    ensures Charged(l.(entries := entries), id) == Charged(l, id)
  {
  }

  lemma LateEntriesOn(sys: System, id: int, entries: seq<Entry>, p: int)
    requires Accounted(sys) && id in sys.db.ledger.timesheets && SameElsewhere(sys.db.ledger.entries, entries, id)
    requires p in sys.db.ledger.projects
    ensures var l, sys' := sys.db.ledger, LateEntries(sys, entries);
            l.projects[p].usedHours + Owed(sys', p) == ApprovedHours(sys'.db.ledger, p)
            <==> (|| Sum(sys.procs, StillToRead(id)) == Charged(l, id)
                  || ProjectHours(entries, id, p) == ProjectHours(l.entries, id, p))
  {
    hide ProjectHours, SameElsewhere, ApprovedHours, Owes, StillToRead, Charged, Times, Sum, Filter;
    var l, l' := sys.db.ledger, LateEntries(sys, entries).db.ledger;
    var count := Sum(sys.procs, StillToRead(id));
    ApprovedApart(l, id, p);
    ApprovedApart(l', id, p);
    Elsewhere(l.entries, entries, id, ApprovedBut(l.timesheets, id));
    hide ApprovedBut;
    OwedAfterEntries(l.entries, entries, sys.procs, id, p);
    assert l.projects[p].usedHours + Owed(sys, p) == ApprovedHours(l, p);
    SameCharge(l, entries, id);
    Balance(l.projects[p].usedHours, Owed(sys, p), Sum(Filter(l.entries, ApprovedBut(l.timesheets, id)), OnProject(p)),
            ProjectHours(l.entries, id, p), ProjectHours(entries, id, p), Charged(l, id), count);
  }

  /** The account of one project when the hours of one timesheet change: `k` times on one side, `c` on the other. */
  lemma Balance(used: real, owed: real, others: real, before: real, after: real, c: real, k: real)
    requires used + owed == others + Times(before, c)
    ensures used + (owed + Times(after - before, k)) == others + Times(after, c) <==> k == c || after == before
  {
    Distribute(c, before, after - before);
    SameProduct(after - before, k, c);
  }

  lemma SameProduct(d: real, x: real, y: real)
    ensures d * x == d * y <==> d == 0.0 || x == y
  {
    assert d * x - d * y == d * (x - y);
  }
}
