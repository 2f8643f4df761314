/** Which roles may change users, projects and settings, and how far a MANAGER's calls go. */
module RoleLaws {
  import opened Common
  import opened Schema
  import opened Approvals
  import opened People
  import opened Operations
  import opened StaffSteps
  import opened StaffOutcomes

  datatype StaffKind =
    | SettingsKind | ManagersKind | CreateUserKind | UpdateUserKind | DeactivateKind
    | CreateProjectKind | UpdateProjectKind | DeleteProjectKind

  function KindOf(op: Op): Option<StaffKind> {
    match op
    case OpSettings(_, _) => Some(SettingsKind)
    case OpSetManagers(_, _, _) => Some(ManagersKind)
    case OpCreateUser(_, _, _, _, _) => Some(CreateUserKind)
    case OpUpdateUser(_, _, _) => Some(UpdateUserKind)
    case OpDeactivateUser(_, _) => Some(DeactivateKind)
    case OpCreateProject(_, _) => Some(CreateProjectKind)
    case OpUpdateProject(_, _, _) => Some(UpdateProjectKind)
    case OpDeleteProject(_, _) => Some(DeleteProjectKind)
    case _ => None
  }

  /** The routes' role checks. */
  predicate RoleMay(kind: StaffKind, role: Role) {
    role == ADMIN || (role == MANAGER && kind != SettingsKind && kind != ManagersKind)
  }

  /** Any other role is refused, in any state, and changes nothing. */
  lemma RoleNeeded(s: State, op: Op)
    requires Legal(s, op) && KindOf(op).Some? && !RoleMay(KindOf(op).value, op.c.role)
    ensures Apply(s, op) == Fails(s, Forbidden)
  {
    hide EmailTaken, CodeTaken, CanManageUser, ManagersRefused, EdgesAccepted;
  }

  /** A MANAGER deactivates a user exactly if the user is of the organisation and the caller's direct report. */
  lemma ManagerDeactivates(s: State, c: Caller, id: int)
    requires c.role == MANAGER
    ensures DeactivateUser(s, c, id).reply.Done? <==>
              id in s.staff.users && s.staff.users[id].org == c.org && InCharge(s.staff, c, id)
  {
  }

  /** A MANAGER's update changes anything only for a direct report, and gives no role but EMPLOYEE. */
  lemma ManagerUpdates(s: State, c: Caller, id: int, dto: UserUpdate)
    requires c.role == MANAGER
    ensures MayUpdate(s, c, id, dto) <==>
              && id in s.staff.users && s.staff.users[id].org == c.org && InCharge(s.staff, c, id)
              && dto.role in {None, Some(EMPLOYEE)}
    ensures !MayUpdate(s, c, id, dto) ==>
              UpdateUser(s, c, id, dto).reply.Failed? && UpdateUser(s, c, id, dto).state == s
  {
    hide AssignManagers, HandOutProjects, RewriteUser;
  }

  /** A user that a MANAGER creates is an EMPLOYEE, and the caller's report if no managers are named. */
  lemma ManagerCreates(s: State, c: Caller, email: string, role: Option<Role>, managerIds: seq<int>,
      projectIds: seq<int>)
    requires c.role == MANAGER && CreateUser(s, c, email, role, managerIds, projectIds).reply.Created?
    ensures var id, staff := s.staff.nextUser, CreateUser(s, c, email, role, managerIds, projectIds).state.staff;
            && id in staff.users && staff.users[id] == User(c.org, email, EMPLOYEE, true)
            && forall m :: (m, id) in staff.manages <==> m in if managerIds == [] then [c.user] else managerIds
  {
    hide ManagersRefused, EmailTaken;
    var id := s.staff.nextUser;
    var created := s.(staff := AddUser(s.staff, User(c.org, email, EMPLOYEE, true)));
    var managers := if managerIds == [] then [c.user] else managerIds;
    var o := AssignManagers(created, id, managers, c.org);
    assert o.reply.Done? && o.state.staff == WithManagers(created.staff, id, managers);
    HandOutLeavesUsers(o.state, c, id, projectIds);
    hide AssignManagers, HandOutProjects, AddUser;
  }

  lemma HandOutLeavesUsers(s: State, c: Caller, employee: int, ids: seq<int>)
    ensures HandOutProjects(s, c, employee, ids).state.staff.users == s.staff.users
    ensures HandOutProjects(s, c, employee, ids).state.staff.manages == s.staff.manages
  {
  }

  /**
   On projects a MANAGER's call does what an ADMIN's does, whoever manages the project, but that
   employees outside the caller's reports are refused.
   */
  lemma ManagerProjects(s: State, c: Caller, id: int, dto: ProjectUpdate)
    requires c.role == MANAGER
    ensures DeleteProject(s, c, id) == DeleteProject(s, c.(role := ADMIN), id)
    ensures var asAdmin := UpdateProject(s, c.(role := ADMIN), id, dto);
            if dto.employeeIds.Some?
                && exists e | e in dto.employeeIds.value :: !InCharge(s.staff, c, e)
            then UpdateProject(s, c, id, dto).reply.Failed? && UpdateProject(s, c, id, dto).state == s
            else UpdateProject(s, c, id, dto) == asAdmin
  {
    assert forall e :: IsDirectReport(s.staff, c.user, e, c.org) <==> InCharge(s.staff, c, e);
    hide CodeTaken, EdgesAccepted, IsDirectReport, InCharge, WithProjectManagers, WithProjectEmployees, MergeProject;
  }
}
