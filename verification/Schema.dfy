/**
 The database: one value per table, and the rows the services read and write. Hours are exact
 reals, dates are day numbers (see Calendar), ids come from counters that never run backwards.
 */
module Schema {
  import opened Common
  import opened Rows
  import opened Weeks

  datatype Role = EMPLOYEE | MANAGER | ADMIN

  datatype Status = DRAFT | SUBMITTED | APPROVED | REJECTED

  /** Seven columns, Monday first. */
  type Week = s: seq<real> | |s| == 7 witness [0.0, 0.0, 0.0, 0.0, 0.0, 0.0, 0.0]
  type Notes = s: seq<Option<string>> | |s| == 7 witness [None, None, None, None, None, None, None]
  type WeekInput = s: seq<Option<real>> | |s| == 7 witness [None, None, None, None, None, None, None]

  const NO_HOURS: Week := [0.0, 0.0, 0.0, 0.0, 0.0, 0.0, 0.0]

  datatype Timesheet = Timesheet(
    org: int, user: int, weekStart: int, weekEnd: int, status: Status,
    totalHours: real, billableHours: real,
    approvedBy: Option<int>, approvedAt: Option<int>, rejectedReason: Option<string>)

  datatype Entry = Entry(
    id: int, sheet: int, project: int, billable: bool,
    hours: Week, notes: Notes, timeOff: Week, totalHours: real)

  datatype Project = Project(
    org: int, code: string, name: string, active: bool, budgetHours: real, usedHours: real)

  datatype User = User(org: int, email: string, role: Role, active: bool)

  datatype Settings = Settings(
    workWeekStart: FirstDay, allowBackdated: bool, allowCopyWeek: bool, mandatoryDesc: bool, maxHoursPerDay: real)

  /** The tables the hour totals live in; entries are kept in id order. */
  datatype Ledger = Ledger(
    timesheets: map<int, Timesheet>, entries: seq<Entry>, projects: map<int, Project>,
    nextSheet: int, nextEntry: int, nextProject: int)

  /** Users and the edges between users and users or projects. */
  datatype Staff = Staff(
    users: map<int, User>,
    manages: set<(int, int)>,          // (manager, employee)
    assignments: set<(int, int)>,         // (project, employee)
    projectManagers: set<(int, int)>,  // (project, manager)
    nextUser: int, nextOrg: int)

  datatype State = State(ledger: Ledger, staff: Staff, settings: map<int, Settings>)

  const EMPTY_STATE := State(
    Ledger(map[], [], map[], 1, 1, 1), Staff(map[], {}, {}, {}, 1, 1), map[])

  /** Who calls, as the access token says. */
  datatype Caller = Caller(user: int, org: int, role: Role)

  datatype Error =
    | ValidationError | NotFound | Conflict | ImmutableTimesheet | InvalidTransition | Forbidden
    | SelfApproval | NotDirectReport | EmployeeNotAssigned | BackdatingNotAllowed | CopyWeekDisabled
    | DescriptionRequired | MaxHoursExceeded | ConstraintViolation

  datatype Reply = Done | Created(id: int) | Copied(id: int, skipped: int) | Failed(error: Error)

  /** What a service call leaves behind and answers. */
  datatype Outcome = Outcome(state: State, reply: Reply)

  function Fails(s: State, e: Error): Outcome {
    Outcome(s, Failed(e))
  }

  // ---- Columns and selections ----

  function Total(): Entry -> real {
    (e: Entry) => e.totalHours
  }

  function IsBillable(): Entry -> bool {
    (e: Entry) => e.billable
  }

  function InSheet(id: int): Entry -> bool {
    (e: Entry) => e.sheet == id
  }

  function NotInSheet(id: int): Entry -> bool {
    (e: Entry) => e.sheet != id
  }

  function OnProject(p: int): Entry -> real {
    (e: Entry) => if e.project == p then e.totalHours else 0.0
  }

  /** The entry rows of one timesheet. */
  function SheetRows(entries: seq<Entry>, id: int): seq<Entry> {
    Filter(entries, InSheet(id))
  }

  function HoursOf(rows: seq<Entry>): real {
    Sum(rows, Total())
  }

  function BillableHoursOf(rows: seq<Entry>): real {
    Sum(Filter(rows, IsBillable()), Total())
  }

  function InApproved(timesheets: map<int, Timesheet>): Entry -> bool {
    (e: Entry) => e.sheet in timesheets && timesheets[e.sheet].status == APPROVED
  }

  /** All entry rows that lie in approved timesheets. */
  function ApprovedRows(l: Ledger): seq<Entry> {
    Filter(l.entries, InApproved(l.timesheets))
  }

  /** The hours of a project's entries that lie in approved timesheets. */
  function ApprovedHours(l: Ledger, p: int): real {
    Sum(ApprovedRows(l), OnProject(p))
  }

  /** The sum of the seven columns. */
  function ColumnSum(w: seq<real>): real {
    if w == [] then 0.0 else ColumnSum(w[..|w| - 1]) + w[|w| - 1]
  }

  function Setting(s: State, org: int): Option<Settings> {
    if org in s.settings then Some(s.settings[org]) else None
  }

  function WorkWeekStart(s: State, org: int): FirstDay {
    if org in s.settings then s.settings[org].workWeekStart else Monday
  }
}
