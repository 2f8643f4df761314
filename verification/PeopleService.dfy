/** team.service.ts, users.service.ts and projects.service.ts as the statements they run against the store. */
module PeopleService {
  import opened Common
  import opened Schema
  import opened Database
  import Weeks
  import Guards = Approvals
  import Spec = People

  method AssignManagers(db: Store, employee: int, ids: seq<int>, org: int) returns (reply: Reply)
    modifies db
    ensures Outcome(db.Snapshot(), reply) == Spec.AssignManagers(old(db.Snapshot()), employee, ids, org)
  {
    if employee in ids {
      return Failed(ValidationError);
    }
    if exists id | id in ids :: !Spec.ValidManager(db.StaffNow(), id, org) {
      return Failed(ValidationError);
    }
    if ids != [] && !(Spec.NoDuplicates(ids) && employee in db.users) {
      return Failed(ConstraintViolation);
    }
    db.manages := set e | e in db.manages && e.1 != employee;
    db.manages := db.manages + Spec.EdgesTo(ids, employee);
    return Done;
  }

  /** The route that replaces a user's managers. */
  method SetUserManagers(db: Store, c: Caller, employee: int, ids: seq<int>) returns (reply: Reply)
    modifies db
    ensures Outcome(db.Snapshot(), reply) == Spec.SetUserManagers(old(db.Snapshot()), c, employee, ids)
  {
    if c.role != ADMIN {
      return Failed(Forbidden);
    }
    reply := AssignManagers(db, employee, ids, c.org);
  }

  /** One transaction: the organisation, its default settings and its first administrator. */
  method RegisterUser(db: Store, email: string) returns (reply: Reply)
    modifies db
    ensures Outcome(db.Snapshot(), reply) == Spec.Register(old(db.Snapshot()), email)
  {
    if Spec.EmailTaken(db.StaffNow(), email) {
      return Failed(Conflict);
    }
    var org, id := db.nextOrg, db.nextUser;
    db.nextOrg := org + 1;
    db.settings := db.settings[org := Settings(Weeks.Monday, true, true, false, 24.0)];
    db.users := db.users[id := User(org, email, ADMIN, true)];
    db.nextUser := id + 1;
    return Created(id);
  }

  /** An upsert: the row is written whether or not there was one. */
  method UpdateSettings(db: Store, c: Caller, row: Settings) returns (reply: Reply)
    modifies db
    ensures Outcome(db.Snapshot(), reply) == Spec.UpdateSettings(old(db.Snapshot()), c, row)
  {
    if c.role != ADMIN {
      return Failed(Forbidden);
    }
    db.settings := db.settings[c.org := row];
    return Done;
  }

  method AssignProjectsToEmployee(db: Store, employee: int, ids: seq<int>, org: int) returns (reply: Reply)
    modifies db
    ensures Outcome(db.Snapshot(), reply) == Spec.AssignProjects(old(db.Snapshot()), employee, ids, org)
  {
    if exists id | id in ids :: !Spec.ValidProject(db.LedgerNow(), id, org) {
      return Failed(ValidationError);
    }
    if ids != [] && !(Spec.NoDuplicates(ids) && employee in db.users) {
      return Failed(ConstraintViolation);
    }
    db.assignments := set e | e in db.assignments && e.1 != employee;
    db.assignments := db.assignments + Spec.EdgesTo(ids, employee);
    return Done;
  }

  method HandOutProjects(db: Store, c: Caller, employee: int, ids: seq<int>) returns (reply: Reply)
    modifies db
    ensures Outcome(db.Snapshot(), reply) == Spec.HandOutProjects(old(db.Snapshot()), c, employee, ids)
  {
    if c.role == MANAGER && exists id | id in ids :: !Spec.Manages(db.Snapshot(), c, id) {
      return Failed(Forbidden);
    }
    reply := AssignProjectsToEmployee(db, employee, ids, c.org);
  }

  method CreateUser(db: Store, c: Caller, email: string, role: Option<Role>, managerIds: seq<int>, projectIds: seq<int>)
    returns (reply: Reply)
    modifies db
    ensures Outcome(db.Snapshot(), reply) == Spec.CreateUser(old(db.Snapshot()), c, email, role, managerIds, projectIds)
  {
    hide Spec.AssignManagers, Spec.HandOutProjects;
    if c.role == EMPLOYEE || (c.role == MANAGER && role.Some? && role.value != EMPLOYEE) {
      return Failed(Forbidden);
    }
    if Spec.EmailTaken(db.StaffNow(), email) {
      return Failed(Conflict);
    }
    var id := db.nextUser;
    db.users := db.users[id := User(c.org, email, if role.Some? then role.value else EMPLOYEE, true)];
    db.nextUser := id + 1;
    var managers := managerIds;
    if c.role == MANAGER && managerIds == [] {
      managers := [c.user];
    }
    if managers != [] {
      reply := AssignManagers(db, id, managers, c.org);
      if reply.Failed? {
        return;
      }
    }
    if projectIds != [] {
      reply := HandOutProjects(db, c, id, projectIds);
      if reply.Failed? {
        return;
      }
    }
    return Created(id);
  }

  /** The role write, and the removal of the user's manager edges when the role fell to EMPLOYEE. */
  method RewriteUser(db: Store, id: int, dto: Spec.UserUpdate)
    requires id in db.users
    modifies db
    ensures db.Snapshot() == old(db.Snapshot()).(staff := Spec.RewriteUser(old(db.StaffNow()), id, dto))
  {
    var user := db.users[id];
    var newRole := if dto.role.Some? then dto.role.value else user.role;
    db.users := db.users[id :=
        user.(role := newRole, active := if dto.active.Some? then dto.active.value else user.active)];
    if newRole == EMPLOYEE && user.role != EMPLOYEE {
      db.manages := set e | e in db.manages && e.0 != id;
    }
  }

  method UpdateUser(db: Store, c: Caller, id: int, dto: Spec.UserUpdate) returns (reply: Reply)
    modifies db
    ensures Outcome(db.Snapshot(), reply) == Spec.UpdateUser(old(db.Snapshot()), c, id, dto)
  {
    hide Spec.AssignManagers, Spec.HandOutProjects, Spec.CanManageUser, Spec.RewriteUser;
    if c.role == EMPLOYEE {
      return Failed(Forbidden);
    }
    if !(id in db.users && db.users[id].org == c.org) {
      return Failed(NotFound);
    }
    if !Spec.CanManageUser(db.StaffNow(), c, id) {
      return Failed(NotDirectReport);
    }
    if c.role == MANAGER && dto.role.Some? && dto.role.value != EMPLOYEE {
      return Failed(Forbidden);
    }
    RewriteUser(db, id, dto);
    if dto.managerIds.Some? {
      reply := AssignManagers(db, id, dto.managerIds.value, c.org);
      if reply.Failed? {
        return;
      }
    }
    if dto.projectIds.Some? {
      reply := HandOutProjects(db, c, id, dto.projectIds.value);
      return;
    }
    return Done;
  }

  method DeactivateUser(db: Store, c: Caller, id: int) returns (reply: Reply)
    modifies db
    ensures Outcome(db.Snapshot(), reply) == Spec.DeactivateUser(old(db.Snapshot()), c, id)
  {
    if c.role == EMPLOYEE {
      return Failed(Forbidden);
    }
    if !(id in db.users && db.users[id].org == c.org) {
      return Failed(NotFound);
    }
    if !Spec.CanManageUser(db.StaffNow(), c, id) {
      return Failed(NotDirectReport);
    }
    db.users := db.users[id := db.users[id].(active := false)];
    return Done;
  }

  method CreateProject(db: Store, c: Caller, dto: Spec.ProjectInput) returns (reply: Reply)
    modifies db
    ensures Outcome(db.Snapshot(), reply) == Spec.CreateProject(old(db.Snapshot()), c, dto)
  {
    if c.role == EMPLOYEE {
      return Failed(Forbidden);
    }
    if Spec.CodeTaken(db.LedgerNow(), c.org, dto.code, None) {
      return Failed(Conflict);
    }
    var managerCreateList: seq<int> := [];
    if c.role == MANAGER {
      managerCreateList := [c.user];
      for i := 0 to |dto.managerIds|
        invariant managerCreateList == [c.user] + Spec.Without(dto.managerIds[..i], c.user)
        invariant db.Snapshot() == old(db.Snapshot())
      {
        assert dto.managerIds[..i + 1][..i] == dto.managerIds[..i];
        if dto.managerIds[i] != c.user {
          managerCreateList := managerCreateList + [dto.managerIds[i]];
        }
      }
    } else {
      for i := 0 to |dto.managerIds|
        invariant managerCreateList == dto.managerIds[..i]
        invariant db.Snapshot() == old(db.Snapshot())
      {
        managerCreateList := managerCreateList + [dto.managerIds[i]];
      }
    }
    assert dto.managerIds[..|dto.managerIds|] == dto.managerIds;
    if c.role == MANAGER && exists e | e in dto.employeeIds :: !Guards.IsDirectReport(db.StaffNow(), c.user, e, c.org) {
      return Failed(Forbidden);
    }
    if !Spec.EdgesAccepted(db.StaffNow(), managerCreateList) || !Spec.EdgesAccepted(db.StaffNow(), dto.employeeIds) {
      return Failed(ConstraintViolation);
    }
    var p := db.nextProject;
    db.projects := db.projects[p := Project(c.org, dto.code, dto.name, dto.active != Some(false),
                                            if dto.budgetHours.Some? then dto.budgetHours.value else 0.0, 0.0)];
    db.nextProject := p + 1;
    ReplaceProjectManagers(db, p, managerCreateList);
    ReplaceProjectEmployees(db, p, dto.employeeIds);
    return Created(p);
  }

  method ReplaceProjectManagers(db: Store, project: int, ids: seq<int>)
    modifies db
    ensures db.Snapshot() == old(db.Snapshot()).(staff := Spec.WithProjectManagers(old(db.StaffNow()), project, ids))
  {
    db.projectManagers := set e | e in db.projectManagers && e.0 != project;
    db.projectManagers := db.projectManagers + Spec.EdgesFrom(project, ids);
  }

  method ReplaceProjectEmployees(db: Store, project: int, ids: seq<int>)
    modifies db
    ensures db.Snapshot() == old(db.Snapshot()).(staff := Spec.WithProjectEmployees(old(db.StaffNow()), project, ids))
  {
    db.assignments := set e | e in db.assignments && e.0 != project;
    db.assignments := db.assignments + Spec.EdgesFrom(project, ids);
  }

  method UpdateProject(db: Store, c: Caller, id: int, dto: Spec.ProjectUpdate) returns (reply: Reply)
    modifies db
    ensures Outcome(db.Snapshot(), reply) == Spec.UpdateProject(old(db.Snapshot()), c, id, dto)
  {
    if c.role == EMPLOYEE {
      return Failed(Forbidden);
    }
    if !(id in db.projects && db.projects[id].org == c.org) {
      return Failed(NotFound);
    }
    if dto.code.Some? && dto.code.value != db.projects[id].code
       && Spec.CodeTaken(db.LedgerNow(), c.org, dto.code.value, Some(id))
    {
      return Failed(Conflict);
    }
    if dto.employeeIds.Some? && c.role == MANAGER
       && exists e | e in dto.employeeIds.value :: !Guards.IsDirectReport(db.StaffNow(), c.user, e, c.org)
    {
      return Failed(Forbidden);
    }
    if (dto.managerIds.Some? && !Spec.EdgesAccepted(db.StaffNow(), dto.managerIds.value))
       || (dto.employeeIds.Some? && !Spec.EdgesAccepted(db.StaffNow(), dto.employeeIds.value))
    {
      return Failed(ConstraintViolation);
    }
    db.projects := db.projects[id := Spec.MergeProject(db.projects[id], dto)];
    if dto.managerIds.Some? {
      ReplaceProjectManagers(db, id, dto.managerIds.value);
    }
    if dto.employeeIds.Some? {
      ReplaceProjectEmployees(db, id, dto.employeeIds.value);
    }
    return Done;
  }

  method DeleteProject(db: Store, c: Caller, id: int) returns (reply: Reply)
    modifies db
    ensures Outcome(db.Snapshot(), reply) == Spec.DeleteProject(old(db.Snapshot()), c, id)
  {
    if c.role == EMPLOYEE {
      return Failed(Forbidden);
    }
    if !(id in db.projects && db.projects[id].org == c.org) {
      return Failed(NotFound);
    }
    if exists e | e in db.entries :: e.project == id {
      return Failed(ConstraintViolation);
    }
    db.projects := db.projects - {id};
    ReplaceProjectManagers(db, id, []);
    ReplaceProjectEmployees(db, id, []);
    return Done;
  }
}
