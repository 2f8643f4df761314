/** The service over one store: any request, and any sequence of requests, with the laws of runs on the store itself. */
module Backend {
  import opened Schema
  import opened Timesheets
  import opened LedgerLaws
  import opened Operations
  import opened Runs
  import opened Database
  import People
  import TimesheetsService
  import ApprovalsService
  import PeopleService

  /** The operation carried out for a request: the request, with the answers of copyPreviousWeek's two queries. */
  predicate CarriesOut(request: Op, op: Op) {
    if request.OpCopyWeek?
    then op.OpCopyWeek? && op == request.(previous := op.previous, existing := op.existing)
    else op == request
  }

  /** A request that authentication lets through. */
  predicate Admitted(s: State, request: Op) {
    !request.OpRegister? ==> Authentic(s, request.c)
  }

  lemma SoundPresent(db: Store)
    requires Sound(db.Snapshot())
    ensures db.ProjectsPresent()
  {
    forall e | e in db.entries ensures e.project in db.projects {
      assert EntryOk(db.LedgerNow(), e);
    }
  }

  method PerformOnTimesheet(db: Store, op: Op) returns (reply: Reply)
    requires !IsStaffOp(op) && !op.OpCopyWeek? && Legal(db.Snapshot(), op) && Sound(db.Snapshot())
    modifies db
    ensures Outcome(db.Snapshot(), reply) == Apply(old(db.Snapshot()), op)
  {
    SoundPresent(db);
    hide CreateTimesheet, UpdateTimesheet, DeleteTimesheet, SubmitTimesheet, CreateEntry, UpdateEntry, DeleteEntry;
    hide Sound;
    match op
    case OpCreateTimesheet(c, date, today) => reply := TimesheetsService.CreateTimesheet(db, c, date, today);
    case OpUpdateTimesheet(c, id, newStart) => reply := TimesheetsService.UpdateTimesheet(db, c, id, newStart);
    case OpDeleteTimesheet(c, id) => reply := TimesheetsService.DeleteTimesheet(db, c, id);
    case OpSubmit(c, id) => reply := TimesheetsService.SubmitTimesheet(db, c, id);
    case OpCreateEntry(c, id, dto) => reply := TimesheetsService.CreateEntry(db, c, id, dto);
    case OpUpdateEntry(c, id, entryId, dto) => reply := TimesheetsService.UpdateEntry(db, c, id, entryId, dto);
    case OpDeleteEntry(c, id, entryId) => reply := TimesheetsService.DeleteEntry(db, c, id, entryId);
    case OpApprove(c, id, now) => reply := ApprovalsService.ApproveTimesheet(db, c, id, now);
    case OpReject(c, id, reason) => reply := ApprovalsService.RejectTimesheet(db, c, id, reason);
  }

  predicate IsProjectOp(op: Op) {
    op.OpCreateProject? || op.OpUpdateProject? || op.OpDeleteProject?
  }

  method PerformOnProject(db: Store, op: Op) returns (reply: Reply)
    requires IsProjectOp(op) && Legal(db.Snapshot(), op)
    modifies db
    ensures Outcome(db.Snapshot(), reply) == Apply(old(db.Snapshot()), op)
  {
    hide People.CreateProject, People.UpdateProject, People.DeleteProject, IsLatest, IsExisting;
    match op
    case OpCreateProject(c, project) => reply := PeopleService.CreateProject(db, c, project);
    case OpUpdateProject(c, id, change) => reply := PeopleService.UpdateProject(db, c, id, change);
    case OpDeleteProject(c, id) => reply := PeopleService.DeleteProject(db, c, id);
  }

  method PerformOnStaff(db: Store, op: Op) returns (reply: Reply)
    requires IsStaffOp(op) && !IsProjectOp(op) && Legal(db.Snapshot(), op)
    modifies db
    ensures Outcome(db.Snapshot(), reply) == Apply(old(db.Snapshot()), op)
  {
    hide People.CreateUser, People.UpdateUser, People.DeactivateUser, People.SetUserManagers, People.Register;
    hide People.UpdateSettings, IsLatest, IsExisting;
    match op
    case OpRegister(email) => reply := PeopleService.RegisterUser(db, email);
    case OpSettings(c, row) => reply := PeopleService.UpdateSettings(db, c, row);
    case OpSetManagers(c, id, ids) => reply := PeopleService.SetUserManagers(db, c, id, ids);
    case OpCreateUser(c, email, role, managerIds, projectIds) =>
      reply := PeopleService.CreateUser(db, c, email, role, managerIds, projectIds);
    case OpUpdateUser(c, id, user) => reply := PeopleService.UpdateUser(db, c, id, user);
    case OpDeactivateUser(c, id) => reply := PeopleService.DeactivateUser(db, c, id);
  }

  method PerformCopy(db: Store, request: Op) returns (reply: Reply, ghost op: Op)
    requires request.OpCopyWeek? && Admitted(db.Snapshot(), request)
    modifies db
    ensures CarriesOut(request, op) && Legal(old(db.Snapshot()), op)
    ensures Outcome(db.Snapshot(), reply) == Apply(old(db.Snapshot()), op)
  {
    hide IsLatest, IsExisting, CopyPreviousWeek;
    ghost var previous, existing;
    reply, previous, existing := TimesheetsService.CopyPreviousWeek(db, request.c, request.date, request.force);
    op := request.(previous := previous, existing := existing);
  }

  lemma AdmittedIsLegal(s: State, request: Op)
    requires Admitted(s, request) && !request.OpCopyWeek?
    ensures Legal(s, request)
  {
  }

  /** Any admitted request does to the store what the operation says, and leaves it sound. */
  method Perform(db: Store, request: Op) returns (reply: Reply, ghost op: Op)
    requires Admitted(db.Snapshot(), request) && Sound(db.Snapshot())
    modifies db
    ensures CarriesOut(request, op) && Legal(old(db.Snapshot()), op)
    ensures Outcome(db.Snapshot(), reply) == Apply(old(db.Snapshot()), op)
    ensures Sound(db.Snapshot())
  {
    hide Sound, Apply, Legal, Admitted, IsStaffOp;
    op := request;
    if request.OpCopyWeek? {
      reply, op := PerformCopy(db, request);
    } else {
      AdmittedIsLegal(db.Snapshot(), request);
      if IsProjectOp(request) {
        reply := PerformOnProject(db, request);
      } else if IsStaffOp(request) {
        reply := PerformOnStaff(db, request);
      } else {
        reply := PerformOnTimesheet(db, request);
      }
    }
    StepKeepsSound(old(db.Snapshot()), op);
  }

  /** The run performs, in order, exactly the requests that are admitted when their turn comes. */
  ghost predicate Performs(requests: seq<Op>, states: seq<State>, ops: seq<Op>)
    requires |states| == |ops| + 1
  {
    if requests == [] then ops == []
    else
      var n, k := |requests| - 1, |ops| - 1;
      || (!Admitted(states[|ops|], requests[n]) && Performs(requests[..n], states, ops))
      || (k >= 0 && Admitted(states[k], requests[n]) && CarriesOut(requests[n], ops[k])
          && Performs(requests[..n], states[..k + 1], ops[..k]))
  }

  lemma PerformsNext(requests: seq<Op>, i: nat, states: seq<State>, ops: seq<Op>, op: Op, s: State)
    requires i < |requests| && |states| == |ops| + 1 && Performs(requests[..i], states, ops)
    requires Admitted(states[|ops|], requests[i]) && CarriesOut(requests[i], op)
    ensures Performs(requests[..i + 1], states + [s], ops + [op])
  {
    hide Admitted, CarriesOut;
    assert requests[..i + 1][..i] == requests[..i];
    assert (states + [s])[..|ops| + 1] == states && (ops + [op])[..|ops|] == ops;
  }

  lemma PerformsSkip(requests: seq<Op>, i: nat, states: seq<State>, ops: seq<Op>)
    requires i < |requests| && |states| == |ops| + 1 && Performs(requests[..i], states, ops)
    requires !Admitted(states[|ops|], requests[i])
    ensures Performs(requests[..i + 1], states, ops)
  {
    hide Admitted, CarriesOut;
    assert requests[..i + 1][..i] == requests[..i];
  }

  /**
   The server from an empty database: the requests that authentication admits are performed in
   order, the others turned away. The store goes through the states of a run, so every law of runs
   is a law of the store.
   */
  method Serve(requests: seq<Op>) returns (db: Store, ghost states: seq<State>, ghost ops: seq<Op>)
    ensures fresh(db) && |states| == |ops| + 1 && IsRun(states, ops) && db.Snapshot() == states[|ops|]
    ensures Sound(db.Snapshot()) && Performs(requests, states, ops)
  {
    db := new Store();
    states, ops := [EMPTY_STATE], [];
    EmptyRun();
    assert requests[..0] == [];
    assert Performs(requests[..0], states, ops);
    hide Sound, IsRun, Admitted, Legal, Apply, Performs, CarriesOut;
    for i := 0 to |requests|
      invariant fresh(db) && |states| == |ops| + 1 && IsRun(states, ops)
      invariant db.Snapshot() == states[|ops|] && Sound(db.Snapshot())
      invariant Performs(requests[..i], states, ops)
    {
      if Admitted(db.Snapshot(), requests[i]) {
        ghost var op;
        var reply;
        reply, op := Perform(db, requests[i]);
        ExtendRun(states, ops, op);
        PerformsNext(requests, i, states, ops, op, db.Snapshot());
        states, ops := states + [db.Snapshot()], ops + [op];
      } else {
        PerformsSkip(requests, i, states, ops);
      }
    }
    assert requests[..|requests|] == requests;
  }
}
