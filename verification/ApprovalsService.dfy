/** approvals.service.ts as the statements it runs against the store. */
module ApprovalsService {
  import opened Common
  import opened Rows
  import opened Schema
  import opened Database
  import Spec = Approvals

  /** The project update of one entry, `usedHours: { increment: entry.totalHours }`. */
  method UpdateProject(db: Store, e: Entry)
    requires e.project in db.projects
    modifies db
    ensures db.Snapshot()
            == old(db.Snapshot()).(ledger := old(db.LedgerNow()).(projects := Spec.AddHours(old(db.projects), e)))
  {
    var project := db.projects[e.project];
    db.projects := db.projects[e.project := project.(usedHours := project.usedHours + e.totalHours)];
  }

  /** The loop of approveTimesheet: one increment per entry, on the entry's project. */
  method IncrementUsedHours(db: Store, entries: seq<Entry>)
    requires forall e | e in entries :: e.project in db.projects
    modifies db
    ensures db.Snapshot() == old(db.Snapshot()).(ledger :=
              old(db.LedgerNow()).(projects := Spec.Charge(old(db.projects), entries)))
  {
    hide Spec.Charge, Spec.AddHours;
    Spec.ChargeNothing(db.projects);
    assert entries[..0] == [];
    for i := 0 to |entries|
      invariant db.projects == Spec.Charge(old(db.projects), entries[..i])
      invariant db.Snapshot() == old(db.Snapshot()).(ledger := old(db.LedgerNow()).(projects := db.projects))
    {
      var e := entries[i];
      Spec.ChargeNext(old(db.projects), entries[..i], e);
      assert entries[..i + 1] == entries[..i] + [e];
      UpdateProject(db, e);
    }
    assert entries[..|entries|] == entries;
  }

  /** The status write, then one increment per entry in a loop. */
  method ApproveTimesheet(db: Store, c: Caller, id: int, now: int) returns (reply: Reply)
    requires db.ProjectsPresent()
    modifies db
    ensures Outcome(db.Snapshot(), reply) == Spec.ApproveTimesheet(old(db.Snapshot()), c, id, now)
  {
    var refusal := Spec.Refusal(db.Snapshot(), c, id);
    if refusal.Some? {
      return Failed(refusal.value);
    }
    db.timesheets := db.timesheets[id :=
      db.timesheets[id].(status := APPROVED, approvedBy := Some(c.user), approvedAt := Some(now))];
    var entries := SheetRows(db.entries, id);
    FilterMembers(db.entries, InSheet(id));
    hide Spec.Charge;
    IncrementUsedHours(db, entries);
    return Done;
  }

  method RejectTimesheet(db: Store, c: Caller, id: int, reason: string) returns (reply: Reply)
    modifies db
    ensures Outcome(db.Snapshot(), reply) == Spec.RejectTimesheet(old(db.Snapshot()), c, id, reason)
  {
    if reason == "" {
      return Failed(if c.role == EMPLOYEE then Forbidden else ValidationError);
    }
    var refusal := Spec.Refusal(db.Snapshot(), c, id);
    if refusal.Some? {
      return Failed(refusal.value);
    }
    db.timesheets := db.timesheets[id := db.timesheets[id].(status := REJECTED, rejectedReason := Some(reason))];
    return Done;
  }
}
