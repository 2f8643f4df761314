/** What each operation of approvals.service.ts does, behind the route's role check. */
module Approvals {
  import opened Common
  import opened Rows
  import opened Schema
  import opened Timesheets

  /** assertIsDirectReport, as a test. */
  predicate IsDirectReport(staff: Staff, manager: int, employee: int, org: int) {
    (manager, employee) in staff.manages && manager in staff.users && staff.users[manager].org == org
  }

  /** The checks approveTimesheet and rejectTimesheet share; None when the call may proceed. */
  function Refusal(s: State, c: Caller, id: int): Option<Error> {
    var l := s.ledger;
    if c.role == EMPLOYEE then Some(Forbidden)
    else if !(id in l.timesheets && l.timesheets[id].org == c.org) then Some(NotFound)
    else if l.timesheets[id].user == c.user then Some(SelfApproval)
    else if c.role == MANAGER && !IsDirectReport(s.staff, c.user, l.timesheets[id].user, c.org)
        then Some(NotDirectReport)
    else if l.timesheets[id].status != SUBMITTED then Some(InvalidTransition)
    else None
  }

  /** The status write of approveTimesheet. */
  function MarkApproved(l: Ledger, id: int, approver: int, now: int): Ledger
    requires id in l.timesheets
  {
    SetSheet(l, id, l.timesheets[id].(status := APPROVED, approvedBy := Some(approver), approvedAt := Some(now)))
  }

  /** Every project charged with its share of the rows. */
  function Charge(projects: map<int, Project>, rows: seq<Entry>): (r: map<int, Project>)
    ensures r.Keys == projects.Keys
  {
    map p | p in projects :: projects[p].(usedHours := projects[p].usedHours + Sum(rows, OnProject(p)))
  }

  /** `usedHours: { increment: ... }`, one project update, which the database does atomically. */
  function AddHours(projects: map<int, Project>, e: Entry): map<int, Project>
    requires e.project in projects
  {
    projects[e.project := projects[e.project].(usedHours := projects[e.project].usedHours + e.totalHours)]
  }

  lemma ChargeNothing(projects: map<int, Project>)
    ensures Charge(projects, []) == projects
  {
  }

  /** One increment more charges one row more. */
  lemma ChargeNext(projects: map<int, Project>, rows: seq<Entry>, e: Entry)
    requires e.project in projects
    ensures AddHours(Charge(projects, rows), e) == Charge(projects, rows + [e])
  {
    forall p | p in projects ensures AddHours(Charge(projects, rows), e)[p] == Charge(projects, rows + [e])[p] {
      SumSnoc(rows, e, OnProject(p));
    }
  }

  function ApproveTimesheet(s: State, c: Caller, id: int, now: int): Outcome {
    var l := s.ledger;
    var refusal := Refusal(s, c, id);
    if refusal.Some? then Fails(s, refusal.value)
    else
      Outcome(s.(ledger := MarkApproved(l, id, c.user, now)
                           .(projects := Charge(l.projects, SheetRows(l.entries, id)))), Done)
  }

  function RejectTimesheet(s: State, c: Caller, id: int, reason: string): Outcome {
    var l := s.ledger;
    var refusal := Refusal(s, c, id);
    if reason == "" then Fails(s, if c.role == EMPLOYEE then Forbidden else ValidationError)
    else if refusal.Some? then Fails(s, refusal.value)
    else
      Outcome(s.(ledger := SetSheet(l, id, l.timesheets[id].(status := REJECTED, rejectedReason := Some(reason)))),
          Done)
  }
}
