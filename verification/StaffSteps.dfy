/**
 updateUser statement by statement. It writes the role, then removes a demoted user's manager edges,
 then assigns managers and projects, with no transaction around the parts: any operation, and the
 parts of other updates, may run in between, and the server may stop at any point.
 */
module StaffSteps {
  import opened Common
  import opened Schema
  import opened People
  import opened Operations
  import opened StaffLaws

  /** `away` are the users whose demotion is written and whose edges are not (or never) removed. */
  datatype StaffSystem = StaffSystem(db: State, away: set<int>)

  datatype StaffEvent =
    | WholeOp(op: Op)
    | RoleWrite(c: Caller, id: int, dto: UserUpdate)      // the checks of an updateUser and its role write
    | Removal(id: int)                                    // the removal of edges that the demotion of `id` owes
    | ManagerPart(employee: int, ids: seq<int>, org: int) // an assignManagers, check and transaction
    | ProjectPart(c: Caller, employee: int, ids: seq<int>)

  /** The checks of updateUser, before it writes anything. */
  predicate MayUpdate(s: State, c: Caller, id: int, dto: UserUpdate) {
    && c.role != EMPLOYEE
    && id in s.staff.users && s.staff.users[id].org == c.org
    && CanManageUser(s.staff, c, id)
    && !(c.role == MANAGER && dto.role.Some? && dto.role.value != EMPLOYEE)
  }

  predicate Demotes(s: State, id: int, dto: UserUpdate)
    requires id in s.staff.users
  {
    dto.role == Some(EMPLOYEE) && s.staff.users[id].role != EMPLOYEE
  }

  predicate Possible(sys: StaffSystem, ev: StaffEvent) {
    match ev
    case WholeOp(op) => Legal(sys.db, op)
    case RoleWrite(c, id, dto) => MayUpdate(sys.db, c, id, dto)
    case Removal(id) => id in sys.away
    case ManagerPart(_, _, _) => true
    case ProjectPart(_, _, _) => true
  }

  function StaffStep(sys: StaffSystem, ev: StaffEvent): StaffSystem
    requires Possible(sys, ev)
  {
    var StaffSystem(db, away) := sys;
    match ev
    case WholeOp(op) => StaffSystem(Apply(db, op).state, away)
    case RoleWrite(_, id, dto) =>
      StaffSystem(db.(staff := WriteUser(db.staff, id, dto)), if Demotes(db, id, dto) then away + {id} else away)
    case Removal(id) => StaffSystem(db.(staff := WithoutReports(db.staff, id)), away - {id})
    case ManagerPart(employee, ids, org) => StaffSystem(AssignManagers(db, employee, ids, org).state, away)
    case ProjectPart(c, employee, ids) => StaffSystem(HandOutProjects(db, c, employee, ids).state, away)
  }

  lemma RoleWriteKeeps(s: State, id: int, dto: UserUpdate, away: set<int>)
    requires EdgesBut(s.staff, away) && id in s.staff.users
    ensures EdgesBut(WriteUser(s.staff, id, dto), if Demotes(s, id, dto) then away + {id} else away)
  {
  }

  lemma RemovalKeeps(staff: Staff, id: int, away: set<int>)
    requires EdgesBut(staff, away)
    ensures EdgesBut(WithoutReports(staff, id), away - {id})
  {
  }

  lemma StaffStepKeeps(sys: StaffSystem, ev: StaffEvent)
    requires EdgesBut(sys.db.staff, sys.away) && Possible(sys, ev)
    ensures EdgesBut(StaffStep(sys, ev).db.staff, StaffStep(sys, ev).away)
  {
    hide EdgesBut, Apply, Legal, AssignManagers, HandOutProjects, CanManageUser;
    match ev
    case WholeOp(op) => StepKeepsEdgesBut(sys.db, op, sys.away);
    case RoleWrite(c, id, dto) => RoleWriteKeeps(sys.db, id, dto, sys.away);
    case Removal(id) => RemovalKeeps(sys.db.staff, id, sys.away);
    case ManagerPart(employee, ids, org) => AssignManagersKeeps(sys.db, employee, ids, org, sys.away);
    case ProjectPart(c, employee, ids) => HandOutKeeps(sys.db, c, employee, ids, sys.away);
  }

  ghost predicate IsStaffSchedule(systems: seq<StaffSystem>, events: seq<StaffEvent>) {
    && |systems| == |events| + 1 && systems[0] == StaffSystem(EMPTY_STATE, {})
    && forall i | 0 <= i < |events| :: Possible(systems[i], events[i])
        && systems[i + 1] == StaffStep(systems[i], events[i])
  }

  lemma StaffStepOf(systems: seq<StaffSystem>, events: seq<StaffEvent>, k: nat)
    requires IsStaffSchedule(systems, events) && k < |events|
    ensures |systems| == |events| + 1
    ensures Possible(systems[k], events[k]) && systems[k + 1] == StaffStep(systems[k], events[k])
  {
    hide Possible, StaffStep;
  }

  /**
   Under any interleaving of the parts of updates with each other and with all operations, stops
   included: nobody manages themselves, and whoever manages someone is a MANAGER or an ADMIN, but for
   users whose demotion is still to remove their edges.
   */
  lemma {:induction false} StaffScheduleEdges(systems: seq<StaffSystem>, events: seq<StaffEvent>, i: nat)
    requires IsStaffSchedule(systems, events) && i < |systems|
    ensures EdgesBut(systems[i].db.staff, systems[i].away)
    decreases i
  {
    if i > 0 {
      StaffStepOf(systems, events, i - 1);
      hide *;
      StaffScheduleEdges(systems, events, i - 1);
      StaffStepKeeps(systems[i - 1], events[i - 1]);
    }
  }

  /** So the edges are right exactly when no EMPLOYEE whose removal is open still manages someone. */
  lemma EdgesRightExactly(systems: seq<StaffSystem>, events: seq<StaffEvent>, i: nat)
    requires IsStaffSchedule(systems, events) && i < |systems|
    ensures var staff, away := systems[i].db.staff, systems[i].away;
            EdgesOk(staff) <==> forall e | e in staff.manages && e.0 in away && e.0 in staff.users ::
                                  staff.users[e.0].role != EMPLOYEE
  {
    StaffScheduleEdges(systems, events, i);
    hide IsStaffSchedule;
  }

  /** An update whose parts run one after the other does what the one-step model says. */
  lemma UndisturbedUpdate(s: State, c: Caller, id: int, dto: UserUpdate)
    requires MayUpdate(s, c, id, dto)
    ensures var written := StaffStep(StaffSystem(s, {}), RoleWrite(c, id, dto));
            var removed := if id in written.away then StaffStep(written, Removal(id)) else written;
            && removed == StaffSystem(s.(staff := RewriteUser(s.staff, id, dto)), {})
            && var managed := if dto.managerIds.Some?
                then StaffStep(removed, ManagerPart(id, dto.managerIds.value, c.org)) else removed;
               var refused := dto.managerIds.Some?
                   && ManagersRefused(removed.db.staff, id, dto.managerIds.value, c.org).Some?;
               var after := if dto.projectIds.Some? && !refused
                            then StaffStep(managed, ProjectPart(c, id, dto.projectIds.value)) else managed;
               after.db == UpdateUser(s, c, id, dto).state && after.away == {}
  {
    assert {id} - {id} == {} && {} + {id} == {id};
    hide ManagersRefused, WithManagers, CanManageUser, HandOutProjects;
  }

  /**
   assignManagers checks and writes in two statements as well. A write whose check is out of date
   leaves the edges right exactly when none of the managers has become an EMPLOYEE since.
   */
  lemma LateManagersExactly(staff: Staff, employee: int, ids: seq<int>)
    requires EdgesOk(staff) && employee in staff.users && employee !in ids && forall id | id in ids :: id in staff.users
    ensures EdgesOk(WithManagers(staff, employee, ids)) <==> forall id | id in ids :: staff.users[id].role != EMPLOYEE
  {
    var staff' := WithManagers(staff, employee, ids);
    if EdgesOk(staff') {
      forall id | id in ids ensures staff.users[id].role != EMPLOYEE {
        assert (id, employee) in staff'.manages;
      }
    }
  }
}
