/** What the operations of team, users, projects and settings services do to the database. */
module People {
  import opened Common
  import opened Rows
  import opened Schema
  import opened Approvals

  predicate NoDuplicates(ids: seq<int>) {
    forall i, j | 0 <= i < j < |ids| :: ids[i] != ids[j]
  }

  /** The pairs a `createMany` inserts for one fixed end, and the ids at the other end. */
  function EdgesTo(ids: seq<int>, end: int): set<(int, int)> {
    set id | id in ids :: (id, end)
  }

  function EdgesFrom(start: int, ids: seq<int>): set<(int, int)> {
    set id | id in ids :: (start, id)
  }

  // ---- Manager edges ----

  predicate ValidManager(staff: Staff, id: int, org: int) {
    && id in staff.users && staff.users[id].org == org
    && staff.users[id].role in {MANAGER, ADMIN} && staff.users[id].active
  }

  /** assignManagers: the error, or None when the edges may be written. */
  function ManagersRefused(staff: Staff, employee: int, ids: seq<int>, org: int): Option<Error> {
    if employee in ids then Some(ValidationError)
    else if exists id | id in ids :: !ValidManager(staff, id, org) then Some(ValidationError)
    else if ids != [] && !(NoDuplicates(ids) && employee in staff.users) then Some(ConstraintViolation)
    else None
  }

  function WithManagers(staff: Staff, employee: int, ids: seq<int>): Staff {
    staff.(manages := (set e | e in staff.manages && e.1 != employee) + EdgesTo(ids, employee))
  }

  /** The service function, with no route in front: other operations call it too. */
  function AssignManagers(s: State, employee: int, ids: seq<int>, org: int): Outcome {
    var refused := ManagersRefused(s.staff, employee, ids, org);
    if refused.Some? then Fails(s, refused.value)
    else Outcome(s.(staff := WithManagers(s.staff, employee, ids)), Done)
  }

  /** removeAllManagedEmployees. */
  function WithoutReports(staff: Staff, manager: int): Staff {
    staff.(manages := set e | e in staff.manages && e.0 != manager)
  }

  /** The route `PUT /team/users/:id/managers` is open to administrators only. */
  function SetUserManagers(s: State, c: Caller, employee: int, ids: seq<int>): Outcome {
    if c.role != ADMIN then Fails(s, Forbidden) else AssignManagers(s, employee, ids, c.org)
  }

  // ---- Project assignments ----

  predicate ValidProject(l: Ledger, id: int, org: int) {
    id in l.projects && l.projects[id].org == org && l.projects[id].active
  }

  function AssignProjects(s: State, employee: int, ids: seq<int>, org: int): Outcome {
    if exists id | id in ids :: !ValidProject(s.ledger, id, org) then Fails(s, ValidationError)
    else if ids != [] && !(NoDuplicates(ids) && employee in s.staff.users) then Fails(s, ConstraintViolation)
    else
      var kept := set e | e in s.staff.assignments && e.1 != employee;
      Outcome(s.(staff := s.staff.(assignments := kept + EdgesTo(ids, employee))), Done)
  }

  predicate Manages(s: State, c: Caller, project: int) {
    (project, c.user) in s.staff.projectManagers && project in s.ledger.projects
        && s.ledger.projects[project].org == c.org
  }

  /** Managers may only hand out projects they manage; then the assignment itself. */
  function HandOutProjects(s: State, c: Caller, employee: int, ids: seq<int>): Outcome {
    if c.role == MANAGER && exists id | id in ids :: !Manages(s, c, id) then Fails(s, Forbidden)
    else AssignProjects(s, employee, ids, c.org)
  }

  /** Run the next part of an operation unless an earlier part failed: what was written stays. */
  function Then(o: Outcome, next: State -> Outcome): Outcome {
    if o.reply.Failed? then o else next(o.state)
  }

  // ---- Users ----

  predicate EmailTaken(staff: Staff, email: string) {
    exists u | u in staff.users :: staff.users[u].email == email
  }

  function AddUser(staff: Staff, user: User): Staff {
    staff.(users := staff.users[staff.nextUser := user], nextUser := staff.nextUser + 1)
  }

  /** registerUser: a new organisation with default settings and its first administrator. */
  function Register(s: State, email: string): Outcome {
    if EmailTaken(s.staff, email) then Fails(s, Conflict)
    else
      var org := s.staff.nextOrg;
      var staff := AddUser(s.staff, User(org, email, ADMIN, true)).(nextOrg := org + 1);
      var defaults := Settings(Weeks.Monday, true, true, false, 24.0);
      Outcome(s.(staff := staff, settings := s.settings[org := defaults]), Created(s.staff.nextUser))
  }

  function Quiet(o: Outcome, reply: Reply): Outcome {
    if o.reply.Failed? then o else o.(reply := reply)
  }

  function CreateUser(
    s: State, c: Caller, email: string, role: Option<Role>, managerIds: seq<int>, projectIds: seq<int>): Outcome
  {
    if c.role == EMPLOYEE then Fails(s, Forbidden)
    else if c.role == MANAGER && role.Some? && role.value != EMPLOYEE then Fails(s, Forbidden)
    else if EmailTaken(s.staff, email) then Fails(s, Conflict)
    else
      var id := s.staff.nextUser;
      var created := s.(staff :=
          AddUser(s.staff, User(c.org, email, if role.Some? then role.value else EMPLOYEE, true)));
      var managers := if c.role == MANAGER && managerIds == [] then [c.user] else managerIds;
      var o := if managers == [] then Outcome(created, Done) else AssignManagers(created, id, managers, c.org);
      Quiet(Then(o, t => if projectIds == [] then Outcome(t, Done) else HandOutProjects(t, c, id, projectIds)),
          Created(id))
  }

  datatype UserUpdate = UserUpdate(
    role: Option<Role>, active: Option<bool>, managerIds: Option<seq<int>>, projectIds: Option<seq<int>>)

  /** assertCanManageUser, as a test. */
  predicate CanManageUser(staff: Staff, c: Caller, id: int) {
    c.role == ADMIN || IsDirectReport(staff, c.user, id, c.org)
  }

  function WriteUser(staff: Staff, id: int, dto: UserUpdate): Staff
    requires id in staff.users
  {
    var u := staff.users[id];
    staff.(users := staff.users[id := u.(role := if dto.role.Some? then dto.role.value else u.role,
                                         active := if dto.active.Some? then dto.active.value else u.active)])
  }

  /** The role write, and the removal of the user's reports when the role fell to EMPLOYEE. */
  function RewriteUser(staff: Staff, id: int, dto: UserUpdate): Staff
    requires id in staff.users
  {
    var written := WriteUser(staff, id, dto);
    if written.users[id].role == EMPLOYEE && staff.users[id].role != EMPLOYEE then WithoutReports(written, id)
        else written
  }

  function UpdateUser(s: State, c: Caller, id: int, dto: UserUpdate): Outcome {
    if c.role == EMPLOYEE then Fails(s, Forbidden)
    else if !(id in s.staff.users && s.staff.users[id].org == c.org) then Fails(s, NotFound)
    else if !CanManageUser(s.staff, c, id) then Fails(s, NotDirectReport)
    else if c.role == MANAGER && dto.role.Some? && dto.role.value != EMPLOYEE then Fails(s, Forbidden)
    else
      var written := s.(staff := RewriteUser(s.staff, id, dto));
      var o := if dto.managerIds.Some? then AssignManagers(written, id, dto.managerIds.value, c.org)
          else Outcome(written, Done);
      Then(o, t => if dto.projectIds.Some? then HandOutProjects(t, c, id, dto.projectIds.value) else Outcome(t, Done))
  }

  function DeactivateUser(s: State, c: Caller, id: int): Outcome {
    if c.role == EMPLOYEE then Fails(s, Forbidden)
    else if !(id in s.staff.users && s.staff.users[id].org == c.org) then Fails(s, NotFound)
    else if !CanManageUser(s.staff, c, id) then Fails(s, NotDirectReport)
    else Outcome(s.(staff := WriteUser(s.staff, id, UserUpdate(None, Some(false), None, None))), Done)
  }

  // ---- Projects ----

  predicate CodeTaken(l: Ledger, org: int, code: string, except: Option<int>) {
    exists p | p in l.projects :: (except.Some? ==> p != except.value) && l.projects[p].org == org
        && l.projects[p].code == code
  }

  /** Foreign keys and the unique index of an edge table that refers to users. */
  predicate EdgesAccepted(staff: Staff, ids: seq<int>) {
    NoDuplicates(ids) && forall id | id in ids :: id in staff.users
  }

  function WithProjectManagers(staff: Staff, project: int, ids: seq<int>): Staff {
    staff.(projectManagers := (set e | e in staff.projectManagers && e.0 != project) + EdgesFrom(project, ids))
  }

  function WithProjectEmployees(staff: Staff, project: int, ids: seq<int>): Staff {
    staff.(assignments := (set e | e in staff.assignments && e.0 != project) + EdgesFrom(project, ids))
  }

  datatype ProjectInput = ProjectInput(
    code: string, name: string, budgetHours: Option<real>, active: Option<bool>, managerIds: seq<int>,
    employeeIds: seq<int>)

  /** The ids without those equal to `id`, in order. */
  function Without(ids: seq<int>, id: int): seq<int> {
    Filter(ids, (x: int) => x != id)
  }

  function CreateProject(s: State, c: Caller, dto: ProjectInput): Outcome {
    var l := s.ledger;
    var managers := if c.role == MANAGER then [c.user] + Without(dto.managerIds, c.user) else dto.managerIds;
    if c.role == EMPLOYEE then Fails(s, Forbidden)
    else if CodeTaken(l, c.org, dto.code, None) then Fails(s, Conflict)
    else if c.role == MANAGER && exists e | e in dto.employeeIds :: !IsDirectReport(s.staff, c.user, e, c.org)
      then Fails(s, Forbidden)
    else if !EdgesAccepted(s.staff, managers) || !EdgesAccepted(s.staff, dto.employeeIds)
        then Fails(s, ConstraintViolation)
    else
      var p := l.nextProject;
      var budget := if dto.budgetHours.Some? then dto.budgetHours.value else 0.0;
      var project := Project(c.org, dto.code, dto.name, dto.active != Some(false), budget, 0.0);
      var staff := WithProjectEmployees(WithProjectManagers(s.staff, p, managers), p, dto.employeeIds);
      Outcome(s.(ledger := l.(projects := l.projects[p := project], nextProject := p + 1), staff := staff), Created(p))
  }

  datatype ProjectUpdate = ProjectUpdate(
    code: Option<string>, name: Option<string>, budgetHours: Option<real>, active: Option<bool>,
    managerIds: Option<seq<int>>, employeeIds: Option<seq<int>>)

  function MergeProject(p: Project, dto: ProjectUpdate): Project {
    p.(code := if dto.code.Some? then dto.code.value else p.code,
       name := if dto.name.Some? then dto.name.value else p.name,
       budgetHours := if dto.budgetHours.Some? then dto.budgetHours.value else p.budgetHours,
       active := if dto.active.Some? then dto.active.value else p.active)
  }

  function UpdateProject(s: State, c: Caller, id: int, dto: ProjectUpdate): Outcome {
    var l := s.ledger;
    if c.role == EMPLOYEE then Fails(s, Forbidden)
    else if !(id in l.projects && l.projects[id].org == c.org) then Fails(s, NotFound)
    else if dto.code.Some? && dto.code.value != l.projects[id].code && CodeTaken(l, c.org, dto.code.value, Some(id))
      then Fails(s, Conflict)
    else if dto.employeeIds.Some? && c.role == MANAGER
            && exists e | e in dto.employeeIds.value :: !IsDirectReport(s.staff, c.user, e, c.org)
      then Fails(s, Forbidden)
    else if (dto.managerIds.Some? && !EdgesAccepted(s.staff, dto.managerIds.value))
         || (dto.employeeIds.Some? && !EdgesAccepted(s.staff, dto.employeeIds.value))
      then Fails(s, ConstraintViolation)
    else
      var staff := if dto.managerIds.Some? then WithProjectManagers(s.staff, id, dto.managerIds.value) else s.staff;
      var staff' := if dto.employeeIds.Some? then WithProjectEmployees(staff, id, dto.employeeIds.value) else staff;
      Outcome(s.(ledger := l.(projects := l.projects[id := MergeProject(l.projects[id], dto)]), staff := staff'), Done)
  }

  /** A project that any entry refers to cannot be deleted; its assignment edges go with it. */
  function DeleteProject(s: State, c: Caller, id: int): Outcome {
    var l := s.ledger;
    if c.role == EMPLOYEE then Fails(s, Forbidden)
    else if !(id in l.projects && l.projects[id].org == c.org) then Fails(s, NotFound)
    else if exists e | e in l.entries :: e.project == id then Fails(s, ConstraintViolation)
    else
      Outcome(s.(ledger := l.(projects := l.projects - {id}),
                 staff := WithProjectEmployees(WithProjectManagers(s.staff, id, []), id, [])), Done)
  }

  /** updateSettings is an upsert of the organisation's row. */
  function UpdateSettings(s: State, c: Caller, row: Settings): Outcome {
    if c.role != ADMIN then Fails(s, Forbidden) else Outcome(s.(settings := s.settings[c.org := row]), Done)
  }
}
