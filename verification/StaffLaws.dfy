/** The manager edges: who may stand at their manager end, through every change of users and edges. */
module StaffLaws {
  import opened Common
  import opened Schema
  import opened Timesheets
  import opened Approvals
  import opened People
  import opened Operations

  /** No user manages themselves, and whoever manages someone is a MANAGER or an ADMIN, or one of these users. */
  ghost predicate EdgesBut(staff: Staff, away: set<int>) {
    && (forall u | u in staff.users :: u < staff.nextUser)
    && (forall e | e in staff.manages ::
          && e.0 != e.1 && e.0 in staff.users && e.1 in staff.users
          && (staff.users[e.0].role != EMPLOYEE || e.0 in away))
  }

  /** No user manages themselves, and whoever manages someone is a MANAGER or an ADMIN. */
  ghost predicate EdgesOk(staff: Staff) {
    EdgesBut(staff, {})
  }

  lemma WithManagersKeeps(staff: Staff, employee: int, ids: seq<int>, org: int, away: set<int>)
    requires EdgesBut(staff, away) && ManagersRefused(staff, employee, ids, org).None?
    ensures EdgesBut(WithManagers(staff, employee, ids), away)
  {
    forall e | e in WithManagers(staff, employee, ids).manages
      ensures e.0 != e.1 && e.0 in staff.users && e.1 in staff.users
           && (staff.users[e.0].role != EMPLOYEE || e.0 in away)
    {
      if e !in staff.manages {
        assert e.0 in ids && ValidManager(staff, e.0, org);
      }
    }
  }

  lemma AssignManagersKeeps(s: State, employee: int, ids: seq<int>, org: int, away: set<int>)
    requires EdgesBut(s.staff, away)
    ensures EdgesBut(AssignManagers(s, employee, ids, org).state.staff, away)
    ensures AssignManagers(s, employee, ids, org).reply.Failed? ==> AssignManagers(s, employee, ids, org).state == s
  {
    if ManagersRefused(s.staff, employee, ids, org).None? {
      WithManagersKeeps(s.staff, employee, ids, org, away);
    }
  }

  /** A demotion to EMPLOYEE removes the user's manager edges along with the role. */
  lemma RewriteUserKeeps(staff: Staff, id: int, dto: UserUpdate, away: set<int>)
    requires EdgesBut(staff, away) && id in staff.users
    ensures EdgesBut(RewriteUser(staff, id, dto), away)
  {
  }

  /**
   The role write and the removal are two statements. A stop between them leaves the edges right
   exactly when the write did not make an EMPLOYEE of somebody who manages someone.
   */
  lemma RoleWriteExactly(staff: Staff, id: int, dto: UserUpdate)
    requires EdgesOk(staff) && id in staff.users
    ensures EdgesOk(WriteUser(staff, id, dto)) <==>
              dto.role != Some(EMPLOYEE) || forall e | e in staff.manages :: e.0 != id
  {
    var staff' := WriteUser(staff, id, dto);
    assert staff'.users.Keys == staff.users.Keys && staff'.manages == staff.manages;
    if dto.role == Some(EMPLOYEE) && EdgesOk(staff') {
      forall e | e in staff.manages ensures e.0 != id {
        assert staff'.users[e.0].role != EMPLOYEE;
      }
    }
  }

  lemma AddUserKeeps(staff: Staff, user: User, away: set<int>)
    requires EdgesBut(staff, away)
    ensures EdgesBut(AddUser(staff, user), away)
  {
  }

  /** Handing out projects leaves users and manager edges alone. */
  lemma HandOutKeeps(s: State, c: Caller, employee: int, ids: seq<int>, away: set<int>)
    requires EdgesBut(s.staff, away)
    ensures EdgesBut(HandOutProjects(s, c, employee, ids).state.staff, away)
  {
  }

  lemma CreateUserKeeps(s: State, c: Caller, email: string, role: Option<Role>, managerIds: seq<int>,
      projectIds: seq<int>, away: set<int>)
    requires EdgesBut(s.staff, away)
    ensures EdgesBut(CreateUser(s, c, email, role, managerIds, projectIds).state.staff, away)
  {
    hide EdgesBut, AssignManagers, HandOutProjects, AddUser, EmailTaken;
    var id := s.staff.nextUser;
    var user := User(c.org, email, if role.Some? then role.value else EMPLOYEE, true);
    AddUserKeeps(s.staff, user, away);
    var created := s.(staff := AddUser(s.staff, user));
    var managers := if c.role == MANAGER && managerIds == [] then [c.user] else managerIds;
    AssignManagersKeeps(created, id, managers, c.org, away);
    var o := if managers == [] then Outcome(created, Done) else AssignManagers(created, id, managers, c.org);
    HandOutKeeps(o.state, c, id, projectIds, away);
  }

  /** Even an update that fails after its role write leaves the edges right. */
  lemma UpdateUserKeeps(s: State, c: Caller, id: int, dto: UserUpdate, away: set<int>)
    requires EdgesBut(s.staff, away)
    ensures EdgesBut(UpdateUser(s, c, id, dto).state.staff, away)
  {
    hide EdgesBut, AssignManagers, HandOutProjects, RewriteUser, CanManageUser;
    if id in s.staff.users {
      RewriteUserKeeps(s.staff, id, dto, away);
      var written := s.(staff := RewriteUser(s.staff, id, dto));
      var o := Outcome(written, Done);
      if dto.managerIds.Some? {
        AssignManagersKeeps(written, id, dto.managerIds.value, c.org, away);
        o := AssignManagers(written, id, dto.managerIds.value, c.org);
      }
      if dto.projectIds.Some? {
        HandOutKeeps(o.state, c, id, dto.projectIds.value, away);
      }
    }
  }

  lemma OtherOpsKeepEdges(s: State, op: Op, away: set<int>)
    requires Legal(s, op) && EdgesBut(s.staff, away)
    requires !op.OpSetManagers? && !op.OpCreateUser? && !op.OpUpdateUser?
    ensures EdgesBut(Apply(s, op).state.staff, away)
  {
    if !IsStaffOp(op) {
      SheetOpsLeaveStaff(s, op);
    }
  }

  lemma SheetOpsLeaveStaff(s: State, op: Op)
    requires Legal(s, op) && !IsStaffOp(op)
    ensures Apply(s, op).state.staff == s.staff && Apply(s, op).state.settings == s.settings
  {
    hide SchemaAccepts, IsLatest, IsExisting, Owns, Blank;
  }

  lemma StepKeepsEdgesBut(s: State, op: Op, away: set<int>)
    requires Legal(s, op) && EdgesBut(s.staff, away)
    ensures EdgesBut(Apply(s, op).state.staff, away)
  {
    hide EdgesBut;
    match op
    case OpSetManagers(c, id, ids) => AssignManagersKeeps(s, id, ids, c.org, away);
    case OpCreateUser(c, email, role, managerIds, projectIds) =>
        CreateUserKeeps(s, c, email, role, managerIds, projectIds, away);
    case OpUpdateUser(c, id, user) => UpdateUserKeeps(s, c, id, user, away);
    case _ => hide Apply; OtherOpsKeepEdges(s, op, away);
  }

  /** Every operation keeps the manager edges right. */
  lemma StepKeepsEdges(s: State, op: Op)
    requires Legal(s, op) && EdgesOk(s.staff)
    ensures EdgesOk(Apply(s, op).state.staff)
  {
    hide Apply, EdgesBut;
    StepKeepsEdgesBut(s, op, {});
  }

  // ---- Failures ----

  /** An operation that answers with an error has changed nothing, but for the two that write in several parts. */
  lemma FailureKeepsState(s: State, op: Op)
    requires Legal(s, op) && Apply(s, op).reply.Failed? && !op.OpCreateUser? && !op.OpUpdateUser?
    ensures Apply(s, op).state == s
  {
    if IsStaffOp(op) {
      hide ValidManager, CodeTaken, EdgesAccepted, EmailTaken, WithManagers, WithProjectManagers, WithProjectEmployees;
    } else {
      hide SchemaAccepts, IsLatest, IsExisting, Owns, Blank, SheetRows, WeekTaken, Copies;
    }
  }

  /** updateUser fails with everything, or with just the role write and the manager edges, already written. */
  lemma FailedUpdateLeaves(s: State, c: Caller, id: int, dto: UserUpdate)
    requires UpdateUser(s, c, id, dto).reply.Failed?
    ensures var after := UpdateUser(s, c, id, dto).state;
            || after == s
            || (id in s.staff.users
                && var written := s.(staff := RewriteUser(s.staff, id, dto));
                   || after == written
                   || (dto.managerIds.Some? && after == AssignManagers(written, id, dto.managerIds.value, c.org).state))
  {
    hide RewriteUser, ManagersRefused, WithManagers, CanManageUser;
  }

  // ---- Users ----

  /** Nobody leaves and nobody changes organisation. */
  ghost predicate UsersKept(staff: Staff, staff': Staff) {
    forall u | u in staff.users :: u in staff'.users && staff'.users[u].org == staff.users[u].org
  }

  lemma EdgeWritesKeepUsers(s: State, c: Caller, id: int, ids: seq<int>)
    ensures AssignManagers(s, id, ids, c.org).state.staff.users == s.staff.users
    ensures HandOutProjects(s, c, id, ids).state.staff.users == s.staff.users
  {
  }

  lemma CreateUserKeepsUsers(s: State, op: Op)
    requires op.OpCreateUser? && EdgesOk(s.staff)
    ensures UsersKept(s.staff, CreateUser(s, op.c, op.email, op.role, op.managerIds, op.projectIds).state.staff)
  {
    var id := s.staff.nextUser;
    var user := User(op.c.org, op.email, if op.role.Some? then op.role.value else EMPLOYEE, true);
    var created := s.(staff := AddUser(s.staff, user));
    assert UsersKept(s.staff, created.staff);
    hide AssignManagers, HandOutProjects, AddUser, EmailTaken, EdgesOk;
    var managers := if op.c.role == MANAGER && op.managerIds == [] then [op.c.user] else op.managerIds;
    EdgeWritesKeepUsers(created, op.c, id, managers);
    var o := if managers == [] then Outcome(created, Done) else AssignManagers(created, id, managers, op.c.org);
    EdgeWritesKeepUsers(o.state, op.c, id, op.projectIds);
  }

  lemma UpdateUserKeepsUsers(s: State, c: Caller, id: int, dto: UserUpdate)
    ensures UsersKept(s.staff, UpdateUser(s, c, id, dto).state.staff)
  {
    if id in s.staff.users {
      var written := s.(staff := RewriteUser(s.staff, id, dto));
      assert UsersKept(s.staff, written.staff);
      hide AssignManagers, HandOutProjects, RewriteUser, CanManageUser;
      var o := Outcome(written, Done);
      if dto.managerIds.Some? {
        EdgeWritesKeepUsers(written, c, id, dto.managerIds.value);
        o := AssignManagers(written, id, dto.managerIds.value, c.org);
      }
      if dto.projectIds.Some? {
        EdgeWritesKeepUsers(o.state, c, id, dto.projectIds.value);
      }
    }
  }

  lemma StaffOpsKeepUsers(s: State, op: Op)
    requires Legal(s, op) && EdgesOk(s.staff) && IsStaffOp(op)
    ensures UsersKept(s.staff, Apply(s, op).state.staff)
  {
    hide EdgesOk, CreateUser, UpdateUser, CreateProject, UpdateProject, DeleteProject, IsLatest, IsExisting;
    hide Register, SetUserManagers, DeactivateUser, UsersKept;
    match op
    case OpCreateUser(_, _, _, _, _) => CreateUserKeepsUsers(s, op);
    case OpUpdateUser(c, id, user) => UpdateUserKeepsUsers(s, c, id, user);
    case OpCreateProject(c, project) => ProjectOpsKeepUsers(s, c, project, 0, NO_CHANGE);
    case OpUpdateProject(c, id, change) =>
        ProjectOpsKeepUsers(s, c, ProjectInput("", "", None, None, [], []), id, change);
    case OpDeleteProject(c, id) => ProjectOpsKeepUsers(s, c, ProjectInput("", "", None, None, [], []), id, NO_CHANGE);
    case OpRegister(email) => RegisterKeepsUsers(s, email);
    case OpSettings(_, _) => SameUsersKept(s.staff, s.staff);
    case OpSetManagers(c, id, ids) => AccountOpsKeepUsers(s, c, id, ids);
    case OpDeactivateUser(c, id) => AccountOpsKeepUsers(s, c, id, []);
  }

  const NO_CHANGE := ProjectUpdate(None, None, None, None, None, None)

  lemma SameUsersKept(staff: Staff, staff': Staff)
    requires staff'.users == staff.users
    ensures UsersKept(staff, staff')
  {
  }

  lemma RegisterKeepsUsers(s: State, email: string)
    requires EdgesOk(s.staff)
    ensures UsersKept(s.staff, Register(s, email).state.staff)
  {
    hide EmailTaken;
  }

  lemma AccountOpsKeepUsers(s: State, c: Caller, id: int, ids: seq<int>)
    ensures UsersKept(s.staff, SetUserManagers(s, c, id, ids).state.staff)
    ensures UsersKept(s.staff, DeactivateUser(s, c, id).state.staff)
  {
    hide ManagersRefused, CanManageUser;
  }

  lemma ProjectOpsKeepUsers(s: State, c: Caller, dto: ProjectInput, id: int, change: ProjectUpdate)
    ensures UsersKept(s.staff, CreateProject(s, c, dto).state.staff)
    ensures UsersKept(s.staff, UpdateProject(s, c, id, change).state.staff)
    ensures UsersKept(s.staff, DeleteProject(s, c, id).state.staff)
  {
    hide CodeTaken, EdgesAccepted, IsDirectReport, MergeProject;
  }
}
