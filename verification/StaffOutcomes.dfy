/**
 What every call on users, manager edges, projects and settings answers, and the tables it leaves,
 pair by pair, said in terms of the rows and the request alone.
 */
module StaffOutcomes {
  import opened Common
  import opened Rows
  import opened Weeks
  import opened Schema
  import opened Approvals
  import opened People
  import opened Operations
  import opened StaffLaws
  import opened StaffSteps

  /** No id stands in the list twice. */
  predicate Once(ids: seq<int>) {
    forall i, j | 0 <= i < |ids| && 0 <= j < |ids| && i != j :: ids[i] != ids[j]
  }

  lemma EdgesToPairs(ids: seq<int>, end: int)
    ensures forall e: (int, int) :: e in EdgesTo(ids, end) <==> e.1 == end && e.0 in ids
  {
    forall x, y ensures (x, y) in EdgesTo(ids, end) <==> y == end && x in ids {
    }
    forall e: (int, int) ensures e in EdgesTo(ids, end) <==> e.1 == end && e.0 in ids {
      assert e == (e.0, e.1);
    }
  }

  lemma EdgesFromPairs(start: int, ids: seq<int>)
    ensures forall e: (int, int) :: e in EdgesFrom(start, ids) <==> e.0 == start && e.1 in ids
  {
    forall x, y ensures (x, y) in EdgesFrom(start, ids) <==> x == start && y in ids {
    }
    forall e: (int, int) ensures e in EdgesFrom(start, ids) <==> e.0 == start && e.1 in ids {
      assert e == (e.0, e.1);
    }
  }

  // ---- Manager edges ----

  /** An active user of the organisation whose role is MANAGER or ADMIN. */
  predicate CanLead(staff: Staff, id: int, org: int) {
    && id in staff.users && staff.users[id].org == org && staff.users[id].active
    && (staff.users[id].role == MANAGER || staff.users[id].role == ADMIN)
  }

  /** The employee's managers are exactly these, everybody else's are as before, and no other column differs. */
  ghost predicate ManagersReplaced(b: Staff, a: Staff, employee: int, ids: seq<int>) {
    && a == b.(manages := a.manages)
    && forall e: (int, int) :: e in a.manages <==> if e.1 == employee then e.0 in ids else e in b.manages
  }

  /**
   An employee's managers can be replaced exactly by distinct active managers or administrators of the
   organisation other than the employee; otherwise nothing changes.
   */
  lemma AssignManagersExactly(s: State, employee: int, ids: seq<int>, org: int)
    ensures var o := AssignManagers(s, employee, ids, org);
            var leaders := employee !in ids && forall id | id in ids :: CanLead(s.staff, id, org);
            && (o.reply.Done? <==> leaders && Once(ids) && (ids == [] || employee in s.staff.users))
            && (o.reply == Failed(ValidationError) <==> !leaders)
            && (o.reply == Failed(ConstraintViolation) <==>
                  leaders && ids != [] && !(Once(ids) && employee in s.staff.users))
            && (if o.reply.Done? then
                  o.state == s.(staff := o.state.staff) && ManagersReplaced(s.staff, o.state.staff, employee, ids)
                else o.state == s)
  {
    assert NoDuplicates(ids) <==> Once(ids);
    assert forall id | id in ids :: ValidManager(s.staff, id, org) <==> CanLead(s.staff, id, org);
    var a := WithManagers(s.staff, employee, ids).manages;
    EdgesToPairs(ids, employee);
    assert forall e: (int, int) :: e in a <==> if e.1 == employee then e.0 in ids else e in s.staff.manages;
    hide EdgesTo, NoDuplicates, Once, ValidManager, CanLead;
  }

  /** Removing a user's reports removes exactly the pairs in which the user is the manager. */
  lemma WithoutReportsExactly(staff: Staff, id: int)
    ensures WithoutReports(staff, id) == staff.(manages := WithoutReports(staff, id).manages)
    ensures forall e: (int, int) :: e in WithoutReports(staff, id).manages <==> e in staff.manages && e.0 != id
  {
  }

  /** The route in front of it lets administrators through, for their own organisation. */
  lemma SetUserManagersExactly(s: State, c: Caller, employee: int, ids: seq<int>)
    ensures var o := SetUserManagers(s, c, employee, ids);
            && (o.reply.Done? <==>
                  && c.role == ADMIN && employee !in ids && (forall id | id in ids :: CanLead(s.staff, id, c.org))
                  && Once(ids) && (ids == [] || employee in s.staff.users))
            && (o.reply == Failed(Forbidden) <==> c.role != ADMIN)
            && (if o.reply.Done? then
                  o.state == s.(staff := o.state.staff) && ManagersReplaced(s.staff, o.state.staff, employee, ids)
                else o.state == s)
  {
    AssignManagersExactly(s, employee, ids, c.org);
    hide AssignManagers, ManagersReplaced, CanLead;
  }

  // ---- Project assignments ----

  predicate ActiveProject(s: State, id: int, org: int) {
    id in s.ledger.projects && s.ledger.projects[id].org == org && s.ledger.projects[id].active
  }

  /** A MANAGER may hand out only projects of the organisation they manage. */
  predicate MayHandOut(s: State, c: Caller, project: int) {
    c.role == MANAGER ==>
      && (project, c.user) in s.staff.projectManagers
      && project in s.ledger.projects && s.ledger.projects[project].org == c.org
  }

  /** The employee's projects are exactly these, everybody else's are as before, and no other column differs. */
  ghost predicate ProjectsReplaced(b: Staff, a: Staff, employee: int, ids: seq<int>) {
    && a == b.(assignments := a.assignments)
    && forall e: (int, int) :: e in a.assignments <==> if e.1 == employee then e.0 in ids else e in b.assignments
  }

  /**
   An employee's projects can be replaced exactly by distinct active projects of the organisation,
   which a MANAGER must manage; otherwise nothing changes.
   */
  lemma HandOutExactly(s: State, c: Caller, employee: int, ids: seq<int>)
    ensures var o := HandOutProjects(s, c, employee, ids);
            var allowed := forall id | id in ids :: MayHandOut(s, c, id);
            var active := forall id | id in ids :: ActiveProject(s, id, c.org);
            && (o.reply.Done? <==> allowed && active && Once(ids) && (ids == [] || employee in s.staff.users))
            && (o.reply == Failed(Forbidden) <==> !allowed)
            && (o.reply == Failed(ValidationError) <==> allowed && !active)
            && (o.reply == Failed(ConstraintViolation) <==>
                  allowed && active && ids != [] && !(Once(ids) && employee in s.staff.users))
            && (if o.reply.Done? then
                  o.state == s.(staff := o.state.staff) && ProjectsReplaced(s.staff, o.state.staff, employee, ids)
                else o.state == s)
  {
    assert NoDuplicates(ids) <==> Once(ids);
    assert forall id | id in ids :: ValidProject(s.ledger, id, c.org) <==> ActiveProject(s, id, c.org);
    assert forall id | id in ids :: (c.role == MANAGER ==> Manages(s, c, id)) <==> MayHandOut(s, c, id);
    var kept := set e | e in s.staff.assignments && e.1 != employee;
    EdgesToPairs(ids, employee);
    var a := kept + EdgesTo(ids, employee);
    assert forall e: (int, int) :: e in a <==> if e.1 == employee then e.0 in ids else e in s.staff.assignments;
    hide EdgesTo, NoDuplicates, Once, ValidProject, ActiveProject, Manages, MayHandOut;
  }

  // ---- Users ----

  predicate EmailFree(staff: Staff, email: string) {
    forall u | u in staff.users :: staff.users[u].email != email
  }

  /** Registering opens a new organisation with default settings and its first administrator. */
  lemma RegisterExactly(s: State, email: string)
    ensures var o := Register(s, email);
            var free := EmailFree(s.staff, email);
            && (o.reply.Created? <==> free) && (o.reply == Failed(Conflict) <==> !free)
            && (if o.reply.Created? then
                  var org := s.staff.nextOrg;
                  && o.reply.id == s.staff.nextUser
                  && o.state.ledger == s.ledger
                  && o.state.settings == s.settings[org := Settings(Monday, true, true, false, 24.0)]
                  && o.state.staff == s.staff.(
                       users := s.staff.users[s.staff.nextUser := User(org, email, ADMIN, true)],
                       nextUser := s.staff.nextUser + 1, nextOrg := org + 1)
                else o.state == s)
  {
    assert EmailTaken(s.staff, email) <==> !EmailFree(s.staff, email);
    hide EmailTaken, EmailFree;
  }

  /** An administrator, or a user of the organisation with a manager edge to the user. */
  predicate InCharge(staff: Staff, c: Caller, id: int) {
    || c.role == ADMIN
    || ((c.user, id) in staff.manages && c.user in staff.users && staff.users[c.user].org == c.org)
  }

  predicate UserOf(staff: Staff, id: int, org: int) {
    id in staff.users && staff.users[id].org == org
  }

  /** A user is deactivated exactly by those in charge, and loses nothing but the active flag. */
  lemma DeactivateUserExactly(s: State, c: Caller, id: int)
    ensures var o := DeactivateUser(s, c, id);
            && (o.reply.Done? <==> c.role != EMPLOYEE && UserOf(s.staff, id, c.org) && InCharge(s.staff, c, id))
            && (o.reply == Failed(Forbidden) <==> c.role == EMPLOYEE)
            && (o.reply == Failed(NotFound) <==> c.role != EMPLOYEE && !UserOf(s.staff, id, c.org))
            && (o.reply == Failed(NotDirectReport) <==>
                  c.role != EMPLOYEE && UserOf(s.staff, id, c.org) && !InCharge(s.staff, c, id))
            && (if o.reply.Done? then
                  o.state == s.(staff := s.staff.(
                    users := s.staff.users[id := s.staff.users[id].(active := false)]))
                else o.state == s)
  {
  }

  /** The managers a new user gets: those named, and without any a MANAGER who creates the user. */
  function FirstManagers(c: Caller, managerIds: seq<int>): seq<int> {
    if managerIds == [] && c.role == MANAGER then [c.user] else managerIds
  }

  predicate RoleAllowed(c: Caller, role: Option<Role>) {
    c.role == ADMIN || (c.role == MANAGER && (role == None || role == Some(EMPLOYEE)))
  }

  predicate GoodManagers(staff: Staff, ids: seq<int>, org: int) {
    Once(ids) && forall id | id in ids :: CanLead(staff, id, org)
  }

  predicate AllHandedOut(s: State, c: Caller, ids: seq<int>) {
    forall id | id in ids :: MayHandOut(s, c, id)
  }

  predicate GoodProjects(s: State, c: Caller, ids: seq<int>) {
    AllHandedOut(s, c, ids) && Once(ids) && forall id | id in ids :: ActiveProject(s, id, c.org)
  }

  /** The manager part of a call that has written its user, who leads nobody named and exists. */
  lemma ManagerPartExactly(s: State, employee: int, ids: seq<int>, org: int)
    requires employee in s.staff.users
    ensures var o := AssignManagers(s, employee, ids, org);
            && (o.reply.Done? <==> employee !in ids && GoodManagers(s.staff, ids, org))
            && (!o.reply.Done? ==> o.reply.Failed? && o.reply != Failed(Forbidden) && o.reply != Failed(Conflict))
            && (if o.reply.Done? then
                  o.state == s.(staff := o.state.staff) && ManagersReplaced(s.staff, o.state.staff, employee, ids)
                else o.state == s)
  {
    AssignManagersExactly(s, employee, ids, org);
    hide AssignManagers, ManagersReplaced, CanLead;
  }

  lemma ProjectPartExactly(s: State, c: Caller, employee: int, ids: seq<int>)
    requires employee in s.staff.users
    ensures var o := HandOutProjects(s, c, employee, ids);
            && (o.reply.Done? <==> GoodProjects(s, c, ids))
            && (o.reply == Failed(Forbidden) <==> !AllHandedOut(s, c, ids))
            && (!o.reply.Done? ==> o.reply.Failed? && o.reply != Failed(Conflict))
            && (if o.reply.Done? then
                  o.state == s.(staff := o.state.staff) && ProjectsReplaced(s.staff, o.state.staff, employee, ids)
                else o.state == s)
  {
    HandOutExactly(s, c, employee, ids);
    hide HandOutProjects, ProjectsReplaced, ActiveProject, MayHandOut;
  }

  /** Only users and manager edges differ: the project part of a call comes to the same. */
  lemma SameProjects(s: State, s': State, c: Caller, ids: seq<int>)
    requires s'.ledger == s.ledger && s'.staff.projectManagers == s.staff.projectManagers
    ensures GoodProjects(s', c, ids) == GoodProjects(s, c, ids) && AllHandedOut(s', c, ids) == AllHandedOut(s, c, ids)
  {
    hide Once;
    assert forall p :: ActiveProject(s', p, c.org) <==> ActiveProject(s, p, c.org);
    assert forall p :: MayHandOut(s', c, p) <==> MayHandOut(s, c, p);
  }

  /** A user just added, or rewritten, manages nobody named: the others' standing is what it was. */
  lemma SameManagers(b: Staff, a: Staff, employee: int, ids: seq<int>, org: int)
    requires a.users - {employee} == b.users - {employee} && employee !in ids
    ensures GoodManagers(a, ids, org) == GoodManagers(b, ids, org)
  {
    hide Once;
    forall m | m in ids ensures CanLead(a, m, org) <==> CanLead(b, m, org) {
      assert m in a.users - {employee} <==> m in a.users;
      assert m in b.users - {employee} <==> m in b.users;
      assert m in a.users ==> a.users[m] == (a.users - {employee})[m] == b.users[m];
    }
  }

  /** The database with the new user in it. */
  function WithUser(s: State, c: Caller, email: string, role: Option<Role>): State {
    s.(staff := s.staff.(
         users := s.staff.users[s.staff.nextUser :=
           User(c.org, email, if role.Some? then role.value else EMPLOYEE, true)],
         nextUser := s.staff.nextUser + 1))
  }

  /** The manager part after the new user's row is written. */
  function ManagerStage(s: State, employee: int, ids: seq<int>, org: int): Outcome {
    if ids == [] then Outcome(s, Done) else AssignManagers(s, employee, ids, org)
  }

  function ProjectStage(s: State, c: Caller, employee: int, ids: seq<int>): Outcome {
    if ids == [] then Outcome(s, Done) else HandOutProjects(s, c, employee, ids)
  }

  lemma CreateInStages(s: State, c: Caller, email: string, role: Option<Role>, managerIds: seq<int>,
      projectIds: seq<int>)
    ensures var id, ids := s.staff.nextUser, FirstManagers(c, managerIds);
            var first := ManagerStage(WithUser(s, c, email, role), id, ids, c.org);
            var second := ProjectStage(first.state, c, id, projectIds);
            CreateUser(s, c, email, role, managerIds, projectIds)
            == if !RoleAllowed(c, role) then Fails(s, Forbidden)
               else if !EmailFree(s.staff, email) then Fails(s, Conflict)
               else if first.reply.Failed? then first
               else if second.reply.Failed? then second
               else Outcome(second.state, Created(id))
  {
    assert EmailTaken(s.staff, email) <==> !EmailFree(s.staff, email);
    hide AssignManagers, HandOutProjects, EmailTaken, EmailFree;
  }

  lemma ManagersOfNew(s: State, c: Caller, email: string, role: Option<Role>, ids: seq<int>)
    requires EdgesOk(s.staff)
    ensures var id, t := s.staff.nextUser, WithUser(s, c, email, role);
            var o := ManagerStage(t, id, ids, c.org);
            && (o.reply.Done? <==> GoodManagers(s.staff, ids, c.org))
            && (!o.reply.Done? ==> o.reply.Failed? && o.reply != Failed(Forbidden) && o.reply != Failed(Conflict))
            && o.state == t.(staff := t.staff.(manages := o.state.staff.manages))
            && forall e: (int, int) :: e in o.state.staff.manages <==>
                 if o.reply.Done? && e.1 == id then e.0 in ids else e in s.staff.manages
  {
    var id, t := s.staff.nextUser, WithUser(s, c, email, role);
    assert forall e | e in s.staff.manages :: e.1 != id;
    NewIsNoManager(s.staff, ids, c.org);
    ManagerPartExactly(t, id, ids, c.org);
    if id !in ids {
      SameManagers(s.staff, t.staff, id, ids, c.org);
    }
    hide EdgesOk, AssignManagers, GoodManagers;
    if ids == [] {
      NobodyNamed(s, c);
    }
  }

  lemma ProjectsOfNew(s: State, t: State, c: Caller, id: int, ids: seq<int>)
    requires t.ledger == s.ledger && t.staff.projectManagers == s.staff.projectManagers && id in t.staff.users
    ensures var o := ProjectStage(t, c, id, ids);
            && (o.reply.Done? <==> GoodProjects(s, c, ids))
            && (o.reply == Failed(Forbidden) <==> !AllHandedOut(s, c, ids))
            && (!o.reply.Done? ==> o.reply.Failed? && o.reply != Failed(Conflict))
            && o.state == t.(staff := t.staff.(assignments := o.state.staff.assignments))
            && forall e: (int, int) :: e in o.state.staff.assignments <==>
                 if o.reply.Done? && ids != [] && e.1 == id then e.0 in ids else e in t.staff.assignments
  {
    ProjectPartExactly(t, c, id, ids);
    SameProjects(s, t, c, ids);
    hide HandOutProjects, GoodProjects, AllHandedOut;
    if ids == [] {
      NobodyNamed(s, c);
    }
  }

  /**
   A user is created with managers and projects exactly if all three parts are in order. What the parts
   before the first bad one wrote stays: the user alone, or the user with the managers.
   */
  lemma CreateUserExactly(s: State, c: Caller, email: string, role: Option<Role>, managerIds: seq<int>,
      projectIds: seq<int>)
    requires EdgesOk(s.staff)
    ensures var o := CreateUser(s, c, email, role, managerIds, projectIds);
            var id, ids, a := s.staff.nextUser, FirstManagers(c, managerIds), o.state.staff;
            var created := RoleAllowed(c, role) && EmailFree(s.staff, email);
            var managed := created && GoodManagers(s.staff, ids, c.org);
            var handed := managed && GoodProjects(s, c, projectIds);
            && (o.reply.Created? <==> handed) && (o.reply.Created? || o.reply.Failed?)
            && (handed ==> o.reply.id == id)
            && (o.reply == Failed(Forbidden) <==>
                  !RoleAllowed(c, role) || (managed && !AllHandedOut(s, c, projectIds)))
            && (o.reply == Failed(Conflict) <==> RoleAllowed(c, role) && !EmailFree(s.staff, email))
            && (if created then
                  && a.users == s.staff.users[id := User(c.org, email, if role.Some? then role.value else EMPLOYEE,
                                                         true)]
                  && a.nextUser == id + 1
                else a.users == s.staff.users && a.nextUser == id)
            && (forall e: (int, int) :: e in a.manages <==>
                  if managed && e.1 == id then e.0 in ids else e in s.staff.manages)
            && (forall e: (int, int) :: e in a.assignments <==>
                  if handed && projectIds != [] && e.1 == id then e.0 in projectIds else e in s.staff.assignments)
            && o.state == s.(staff := s.staff.(users := a.users, nextUser := a.nextUser, manages := a.manages,
                                               assignments := a.assignments))
  {
    var id, ids, t := s.staff.nextUser, FirstManagers(c, managerIds), WithUser(s, c, email, role);
    CreateInStages(s, c, email, role, managerIds, projectIds);
    ManagersOfNew(s, c, email, role, ids);
    ProjectsOfNew(s, ManagerStage(t, id, ids, c.org).state, c, id, projectIds);
    hide EdgesOk, CreateUser, ManagerStage, ProjectStage, EmailFree, GoodManagers, GoodProjects, AllHandedOut;
  }

  lemma NewIsNoManager(staff: Staff, ids: seq<int>, org: int)
    requires EdgesOk(staff)
    ensures GoodManagers(staff, ids, org) ==> staff.nextUser !in ids
  {
    hide Once;
  }

  /** Whether the update takes the role of a manager away. */
  predicate TakesRole(staff: Staff, id: int, dto: UserUpdate) {
    id in staff.users && dto.role == Some(EMPLOYEE) && staff.users[id].role != EMPLOYEE
  }

  /** The user's row with the named columns written. */
  function Rewritten(u: User, dto: UserUpdate): User {
    User(u.org, u.email, if dto.role.Some? then dto.role.value else u.role,
         if dto.active.Some? then dto.active.value else u.active)
  }

  /** The user part writes the named columns, and takes a demoted user's reports away. */
  lemma RewriteUserExactly(staff: Staff, id: int, dto: UserUpdate)
    requires id in staff.users
    ensures var a := RewriteUser(staff, id, dto);
            && a == staff.(users := staff.users[id := Rewritten(staff.users[id], dto)], manages := a.manages)
            && forall e: (int, int) :: e in a.manages <==>
                 e in staff.manages && !(TakesRole(staff, id, dto) && e.0 == id)
  {
  }

  predicate MayRewrite(s: State, c: Caller, id: int, dto: UserUpdate) {
    RoleAllowed(c, dto.role) && UserOf(s.staff, id, c.org) && InCharge(s.staff, c, id)
  }

  /**
   An update goes through exactly if the caller is in charge of the user and may give the role, and the
   named managers and projects are in order. What the parts before the first bad one wrote stays.
   */
  lemma UpdateUserExactly(s: State, c: Caller, id: int, dto: UserUpdate)
    ensures MayUpdate(s, c, id, dto) <==> MayRewrite(s, c, id, dto)
    ensures var o := UpdateUser(s, c, id, dto);
            var a := o.state.staff;
            var managerIds := if dto.managerIds.Some? then dto.managerIds.value else [];
            var projectIds := if dto.projectIds.Some? then dto.projectIds.value else [];
            var written := MayRewrite(s, c, id, dto);
            var managed := written && id !in managerIds && GoodManagers(s.staff, managerIds, c.org);
            var handed := managed && GoodProjects(s, c, projectIds);
            && (o.reply.Done? <==> handed) && (o.reply.Done? || o.reply.Failed?)
            && (o.reply == Failed(NotFound) <==> c.role != EMPLOYEE && !UserOf(s.staff, id, c.org))
            && (o.reply == Failed(NotDirectReport) <==>
                  c.role != EMPLOYEE && UserOf(s.staff, id, c.org) && !InCharge(s.staff, c, id))
            && (o.reply == Failed(Forbidden) <==>
                  || c.role == EMPLOYEE
                  || (UserOf(s.staff, id, c.org) && InCharge(s.staff, c, id) && !written)
                  || (managed && !AllHandedOut(s, c, projectIds)))
            && (a.users == if written then s.staff.users[id := Rewritten(s.staff.users[id], dto)] else s.staff.users)
            && (forall e: (int, int) :: e in a.manages <==>
                  if managed && dto.managerIds.Some? && e.1 == id then e.0 in managerIds
                  else e in s.staff.manages && !(written && TakesRole(s.staff, id, dto) && e.0 == id))
            && (forall e: (int, int) :: e in a.assignments <==>
                  if handed && dto.projectIds.Some? && e.1 == id then e.0 in projectIds else e in s.staff.assignments)
            && o.state == s.(staff := s.staff.(users := a.users, manages := a.manages, assignments := a.assignments))
  {
    if MayRewrite(s, c, id, dto) {
      RewriteUserExactly(s.staff, id, dto);
      var written := s.(staff := RewriteUser(s.staff, id, dto));
      var o := Outcome(written, Done);
      if dto.managerIds.Some? {
        var ids := dto.managerIds.value;
        ManagerPartExactly(written, id, ids, c.org);
        if id !in ids {
          SameManagers(s.staff, written.staff, id, ids, c.org);
        }
        o := AssignManagers(written, id, ids, c.org);
      }
      if dto.projectIds.Some? {
        ProjectPartExactly(o.state, c, id, dto.projectIds.value);
        SameProjects(s, o.state, c, dto.projectIds.value);
      }
      hide AssignManagers, HandOutProjects, RewriteUser, GoodManagers, GoodProjects, AllHandedOut, TakesRole;
      NobodyNamed(s, c);
    }
  }

  lemma NobodyNamed(s: State, c: Caller)
    ensures GoodManagers(s.staff, [], c.org) && GoodProjects(s, c, []) && AllHandedOut(s, c, [])
  {
  }

  // ---- Settings ----

  /** Only administrators write settings, and only their organisation's row. */
  lemma UpdateSettingsExactly(s: State, c: Caller, row: Settings)
    ensures var o := UpdateSettings(s, c, row);
            && (o.reply == Done <==> c.role == ADMIN) && (o.reply == Failed(Forbidden) <==> c.role != ADMIN)
            && (if o.reply.Done? then
                  && o.state == s.(settings := o.state.settings)
                  && c.org in o.state.settings && o.state.settings[c.org] == row
                  && forall org | org != c.org :: Setting(o.state, org) == Setting(s, org)
                else o.state == s)
  {
  }

  // ---- Projects ----

  /** The pairs with this first end are exactly these; all others are as before. */
  ghost predicate FromReplaced(b: set<(int, int)>, a: set<(int, int)>, start: int, ids: seq<int>) {
    forall e: (int, int) :: e in a <==> if e.0 == start then e.1 in ids else e in b
  }

  lemma ProjectEdgesExactly(staff: Staff, project: int, ids: seq<int>)
    ensures var a := WithProjectManagers(staff, project, ids);
            a == staff.(projectManagers := a.projectManagers)
            && FromReplaced(staff.projectManagers, a.projectManagers, project, ids)
    ensures var a := WithProjectEmployees(staff, project, ids);
            a == staff.(assignments := a.assignments)
            && FromReplaced(staff.assignments, a.assignments, project, ids)
  {
    EdgesFromPairs(project, ids);
    hide EdgesFrom;
  }

  /** The list names distinct users. */
  predicate DistinctUsers(staff: Staff, ids: seq<int>) {
    Once(ids) && forall id | id in ids :: id in staff.users
  }

  lemma AcceptedExactly(staff: Staff, ids: seq<int>)
    ensures EdgesAccepted(staff, ids) <==> DistinctUsers(staff, ids)
  {
    assert NoDuplicates(ids) <==> Once(ids);
  }

  /** Another project of the organisation has this code. */
  predicate CodeElsewhere(l: Ledger, org: int, code: string, id: int) {
    exists p | p in l.projects :: p != id && l.projects[p].org == org && l.projects[p].code == code
  }

  /** A MANAGER may put only reports of theirs on a project. */
  predicate ReportsOnly(staff: Staff, c: Caller, ids: seq<int>) {
    c.role == MANAGER ==> forall id | id in ids :: InCharge(staff, c, id)
  }

  lemma ReportsExactly(staff: Staff, c: Caller, ids: seq<int>)
    ensures ReportsOnly(staff, c, ids) <==>
              !(c.role == MANAGER && exists e | e in ids :: !IsDirectReport(staff, c.user, e, c.org))
  {
  }

  /** A new project has as managers those named and a MANAGER who creates it; only the others must be distinct. */
  lemma ProjectManagersExactly(staff: Staff, c: Caller, ids: seq<int>)
    ensures var all := if c.role == MANAGER then [c.user] + Without(ids, c.user) else ids;
            && (forall m :: m in all <==> m in ids || (c.role == MANAGER && m == c.user))
            && (EdgesAccepted(staff, all) <==> ManagersFit(staff, c, ids))
  {
    if c.role == MANAGER {
      var keep := (x: int) => x != c.user;
      FilterMembers(ids, keep);
      FilterOnce(ids, keep);
      var rest := Without(ids, c.user);
      assert rest == Filter(ids, keep);
      assert NoDuplicates([c.user] + rest) <==> NoDuplicates(rest) && c.user !in rest by {
        NoDuplicatesCons(c.user, rest);
      }
    }
  }

  lemma NoDuplicatesCons(x: int, rest: seq<int>)
    ensures NoDuplicates([x] + rest) <==> NoDuplicates(rest) && x !in rest
  {
    var all := [x] + rest;
    if NoDuplicates(all) {
      forall i, j | 0 <= i < j < |rest| ensures rest[i] != rest[j] {
        assert rest[i] == all[i + 1] && rest[j] == all[j + 1];
      }
      forall i | 0 <= i < |rest| ensures rest[i] != x {
        assert rest[i] == all[i + 1] && all[0] == x;
      }
    }
  }

  lemma NoDuplicatesSnoc(front: seq<int>, x: int)
    ensures NoDuplicates(front + [x]) <==> NoDuplicates(front) && x !in front
  {
    var all := front + [x];
    if NoDuplicates(all) {
      forall i, j | 0 <= i < j < |front| ensures front[i] != front[j] {
        assert front[i] == all[i] && front[j] == all[j];
      }
      forall i | 0 <= i < |front| ensures front[i] != x {
        assert front[i] == all[i] && all[|front|] == x;
      }
    }
  }

  lemma {:induction false} FilterOnce(ids: seq<int>, keep: int -> bool)
    ensures NoDuplicates(Filter(ids, keep)) <==>
              forall i, j | 0 <= i < |ids| && 0 <= j < |ids| && i != j && ids[i] == ids[j] :: !keep(ids[i])
  {
    if ids != [] {
      var n := |ids| - 1;
      FilterOnce(ids[..n], keep);
      FilterMembers(ids[..n], keep);
      var before := Filter(ids[..n], keep);
      if keep(ids[n]) {
        NoDuplicatesSnoc(before, ids[n]);
      }
      assert forall i | 0 <= i < n :: ids[..n][i] == ids[i];
    }
  }

  predicate CodeFree(l: Ledger, org: int, code: string) {
    forall p | p in l.projects && l.projects[p].org == org :: l.projects[p].code != code
  }

  /**
   A project is created exactly if its code is free in the organisation, a MANAGER names only reports
   as employees, and managers and employees are distinct users (naming the creating MANAGER again is
   no repetition). It starts with no used hours and with exactly the named people.
   */
  lemma CreateProjectExactly(s: State, c: Caller, dto: ProjectInput)
    ensures var l, o := s.ledger, CreateProject(s, c, dto);
            var p, a := l.nextProject, o.state.staff;
            var free := c.role != EMPLOYEE && CodeFree(l, c.org, dto.code);
            var led := free && ReportsOnly(s.staff, c, dto.employeeIds);
            && (o.reply.Created? <==> led && ManagersFit(s.staff, c, dto.managerIds)
                                      && DistinctUsers(s.staff, dto.employeeIds))
            && (o.reply == Failed(Forbidden) <==> c.role == EMPLOYEE || (free && !led))
            && (o.reply == Failed(Conflict) <==> c.role != EMPLOYEE && !free)
            && (o.reply == Failed(ConstraintViolation) <==> led && !o.reply.Created?)
            && (if !o.reply.Created? then o.state == s
                else
                  && o.reply.id == p
                  && o.state.settings == s.settings
                  && o.state.ledger == l.(nextProject := p + 1, projects := l.projects[p :=
                       Project(c.org, dto.code, dto.name, dto.active != Some(false),
                               if dto.budgetHours.Some? then dto.budgetHours.value else 0.0, 0.0)])
                  && a == s.staff.(projectManagers := a.projectManagers, assignments := a.assignments)
                  && FromReplaced(s.staff.assignments, a.assignments, p, dto.employeeIds)
                  && forall e: (int, int) :: e in a.projectManagers <==>
                       if e.0 == p then e.1 in dto.managerIds || (c.role == MANAGER && e.1 == c.user)
                       else e in s.staff.projectManagers)
  {
    var managers := if c.role == MANAGER then [c.user] + Without(dto.managerIds, c.user) else dto.managerIds;
    ProjectManagersExactly(s.staff, c, dto.managerIds);
    ProjectEdgesExactly(s.staff, s.ledger.nextProject, managers);
    ProjectEdgesExactly(WithProjectManagers(s.staff, s.ledger.nextProject, managers), s.ledger.nextProject,
                        dto.employeeIds);
    AcceptedExactly(s.staff, dto.employeeIds);
    ReportsExactly(s.staff, c, dto.employeeIds);
    assert CodeTaken(s.ledger, c.org, dto.code, None) <==> !CodeFree(s.ledger, c.org, dto.code);
    hide CodeTaken, CodeFree, IsDirectReport, EdgesAccepted, DistinctUsers, ReportsOnly, Without, WithProjectManagers,
      WithProjectEmployees;
  }

  /** The managers named for a new project are users, named once but for the creating MANAGER, who is one too. */
  predicate ManagersFit(staff: Staff, c: Caller, ids: seq<int>) {
    && (forall m | m in ids :: m in staff.users) && (c.role == MANAGER ==> c.user in staff.users)
    && forall i, j | 0 <= i < |ids| && 0 <= j < |ids| && i != j && ids[i] == ids[j] ::
         c.role == MANAGER && ids[i] == c.user
  }

  predicate ProjectHere(l: Ledger, id: int, org: int) {
    id in l.projects && l.projects[id].org == org
  }

  /** An update of a project changes the named columns and lists, all of them or none, and never the used hours. */
  lemma UpdateProjectExactly(s: State, c: Caller, id: int, dto: ProjectUpdate)
    ensures var l, o := s.ledger, UpdateProject(s, c, id, dto);
            var a := o.state.staff;
            var managerIds := if dto.managerIds.Some? then dto.managerIds.value else [];
            var employeeIds := if dto.employeeIds.Some? then dto.employeeIds.value else [];
            var here := c.role != EMPLOYEE && ProjectHere(l, id, c.org);
            var free := here && (dto.code.None? || dto.code.value == l.projects[id].code
                                 || !CodeElsewhere(l, c.org, dto.code.value, id));
            var led := free && ReportsOnly(s.staff, c, employeeIds);
            && (o.reply.Done? <==> led && DistinctUsers(s.staff, managerIds) && DistinctUsers(s.staff, employeeIds))
            && (o.reply == Failed(NotFound) <==> c.role != EMPLOYEE && !here)
            && (o.reply == Failed(Conflict) <==> here && !free)
            && (o.reply == Failed(Forbidden) <==> c.role == EMPLOYEE || (free && !led))
            && (o.reply == Failed(ConstraintViolation) <==> led && !o.reply.Done?)
            && (if !o.reply.Done? then o.state == s
                else
                  var p := l.projects[id];
                  && o.state.settings == s.settings
                  && o.state.ledger == l.(projects := l.projects[id := Project(
                       p.org, if dto.code.Some? then dto.code.value else p.code,
                       if dto.name.Some? then dto.name.value else p.name,
                       if dto.active.Some? then dto.active.value else p.active,
                       if dto.budgetHours.Some? then dto.budgetHours.value else p.budgetHours, p.usedHours)])
                  && a == s.staff.(projectManagers := a.projectManagers, assignments := a.assignments)
                  && (if dto.managerIds.Some?
                      then FromReplaced(s.staff.projectManagers, a.projectManagers, id, managerIds)
                      else a.projectManagers == s.staff.projectManagers)
                  && (if dto.employeeIds.Some?
                      then FromReplaced(s.staff.assignments, a.assignments, id, employeeIds)
                      else a.assignments == s.staff.assignments))
  {
    var managerIds := if dto.managerIds.Some? then dto.managerIds.value else [];
    var employeeIds := if dto.employeeIds.Some? then dto.employeeIds.value else [];
    ProjectEdgesExactly(s.staff, id, managerIds);
    ProjectEdgesExactly(s.staff, id, employeeIds);
    ProjectEdgesExactly(WithProjectManagers(s.staff, id, managerIds), id, employeeIds);
    AcceptedExactly(s.staff, managerIds);
    AcceptedExactly(s.staff, employeeIds);
    ReportsExactly(s.staff, c, employeeIds);
    if dto.code.Some? {
      assert CodeTaken(s.ledger, c.org, dto.code.value, Some(id))
        <==> CodeElsewhere(s.ledger, c.org, dto.code.value, id);
    }
    NobodyAtAll(s.staff, c);
    hide CodeTaken, CodeElsewhere, IsDirectReport, EdgesAccepted, DistinctUsers, ReportsOnly, WithProjectManagers,
      WithProjectEmployees, FromReplaced;
  }

  lemma NobodyAtAll(staff: Staff, c: Caller)
    ensures DistinctUsers(staff, []) && ReportsOnly(staff, c, [])
  {
  }

  /** A project is deleted exactly if no entry of anybody refers to it; its people's pairs go with it. */
  lemma DeleteProjectExactly(s: State, c: Caller, id: int)
    ensures var l, o := s.ledger, DeleteProject(s, c, id);
            var a := o.state.staff;
            var here := c.role != EMPLOYEE && ProjectHere(l, id, c.org);
            var used := exists e | e in l.entries :: e.project == id;
            && (o.reply.Done? <==> here && !used)
            && (o.reply == Failed(Forbidden) <==> c.role == EMPLOYEE)
            && (o.reply == Failed(NotFound) <==> c.role != EMPLOYEE && !here)
            && (o.reply == Failed(ConstraintViolation) <==> here && used)
            && (if !o.reply.Done? then o.state == s
                else
                  && o.state.settings == s.settings
                  && o.state.ledger == l.(projects := map p | p in l.projects && p != id :: l.projects[p])
                  && a == s.staff.(projectManagers := a.projectManagers, assignments := a.assignments)
                  && (forall e: (int, int) :: e in a.projectManagers <==> e in s.staff.projectManagers && e.0 != id)
                  && (forall e: (int, int) :: e in a.assignments <==> e in s.staff.assignments && e.0 != id))
  {
    ProjectEdgesExactly(s.staff, id, []);
    ProjectEdgesExactly(WithProjectManagers(s.staff, id, []), id, []);
    assert s.ledger.projects - {id} == map p | p in s.ledger.projects && p != id :: s.ledger.projects[p];
    hide WithProjectManagers, WithProjectEmployees;
  }
}
