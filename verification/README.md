# ChronoTrack: a verified model of the timesheet backend

ChronoTrack is a timesheet service. Employees record hours per day and project on weekly timesheets;
they submit them; a manager or an administrator approves or rejects them; approval charges the hours to
the projects; reports add hours up over date ranges and months. The service stores sums that could be
computed (the total of an entry, the totals of a timesheet, the used hours of a project), and keeps
each of them by a different strategy. This project models the service and proves that the stored sums,
the status machine, the manager edges, the calendar arithmetic, the reports and the CSV export are right,
and says exactly when they are not.

## Layout

| files | contents |
|---|---|
| `Common`, `Rows` | decimal text as JavaScript prints it; selecting table rows and summing a column |
| `Calendar`, `Weeks`, `WeekLabel` | day numbers and civil dates (ECMA-262, sections 21.4.1.2 to 21.4.1.13), week boundaries, ISO week labels |
| `Schema` | the tables as values; the columns and selections the laws are about |
| `Timesheets`, `Approvals`, `People` | what each service operation does to the database: state in, state and reply out |
| `Database`, `TimesheetsService`, `ApprovalsService`, `PeopleService` | the database as an object with one field per table, and the service functions as methods that read and write it, each proved equal to its specification function |
| `Backend` | the service over one such object: any request, and any sequence of requests, with the laws of runs on the object |
| `LedgerLaws`, `Operations`, `SheetLaws`, `StaffLaws`, `CopyLaws`, `EntryLaws` | what every operation keeps, and what accepting, merging and copying entries means |
| `SheetOutcomes`, `EntryOutcomes`, `StaffOutcomes` | for each operation, exactly when it is accepted, why not, and the whole state it leaves, on the tables alone |
| `Runs`, `WeekRuns` | laws over all runs from the empty database; the weeks of timesheets over runs |
| `Interleaving` | approvals statement by statement, interleaved with everything else, with crashes |
| `StoredSums`, `TornWrites`, `StaleTotals` | no operation looks at stored sums; entry writes whose recalculation comes late or never, and when stored totals are stale |
| `Refinement` | every such schedule refines a run, so the laws of runs are laws of schedules |
| `StaffSteps` | updateUser statement by statement |
| `LateWrites` | approvals, rejections and entry writes whose checks are out of date |
| `RoleLaws` | which roles may change users, projects and settings |
| `Witnesses` | concrete runs from the empty database to the failures named below |
| `MonthKeys`, `Monthly`, `MonthSplit`, `MonthRows` | the monthly timesheet: columns, window, loops, conservation of hours over months, and each row in terms of entries and holidays |
| `Report` | the date-range report: scope, totals, utilization |
| `Csv`, `CsvReport` | the CSV printer and a reader for section 2 of RFC 4180; the texts of dates, counts and statuses in the report |

`dafny verify dfyconfig.toml` checks everything.

## How the service is modelled

* One state holds all tables (`Schema.State`). Entries are a sequence in id order, the other tables are
  maps, edge tables are sets of pairs. Foreign keys and unique indexes are guards that make a write fail
  (`ConstraintViolation`).
* An operation is a function from the state, the caller `(user, org, role)` and its arguments to a new
  state and a reply. It includes the role check of its route and the bounds of its request schema. The
  role in a token may be out of date; `Operations.Legal` only asks that the token names a user and that
  user's organisation. Where a query may return any of several rows, the answer is an argument, and
  `Legal` says which answers are possible.
* An operation that is not one transaction keeps what it wrote before it failed: `UpdateUser` and
  `CreateUser` answer with an error and a changed state.
* Hours are exact real numbers. Dates are day numbers with UTC as the server's zone; the monthly report
  works on milliseconds, where the rounding is the point. The current day and time are arguments.
* A run (`Runs.IsRun`) starts at the empty database and applies any operations in any order.

## Main results

1. **The ledger adds up in every reachable state** (`Runs.ReachableSound`): entry totals, timesheet totals,
   billable totals and each project's used hours agree with the plain sums, through all nineteen
   operations, `updateTimesheet` included.
2. **Statements interleaved** (`Interleaving.ScheduleSound`): under any interleaving of approvals with any other
   operations, and with a crash between any two statements, used hours plus the increments still to be made
   or lost are the approved hours. So they never over-count, and are exact once approvals have finished
   without a crash. `TornWrites.TornScheduleSound` adds entry writes whose recalculation comes late or never:
   nothing but stored timesheet totals is ever wrong. `StaleTotals.StaleStep` says for every event exactly
   when those are stale after it, and `StaleTotals.StaleExactlySince` for every schedule.
3. **Status, freeze, weeks and edges over runs** (`Runs.HistoryLaw`, `ApprovedBySomeone`, `FreezeOverRun`,
   `ApprovedForEver`; `WeekRuns.ShapeOverRun`, `WeeksDisjoint`), on the store (`Backend.Serve`), and over every
   schedule of statements, because each refines a run (`Refinement.ScheduleRefinesRun`, `ScheduleHistory`,
   `ScheduleFreeze`, `ScheduleShape`, `ScheduleEdges`). With updateUser in statements the edges are right but
   for demotions in flight (`StaffSteps.StaffScheduleEdges`).
4. **Every operation exactly** (`SheetOutcomes.ApproveExactly`, `CopyExactly`, `CopyLeaves`;
   `EntryOutcomes.CreateEntryExactly`, `UpdateEntryLeaves`; `StaffOutcomes.AssignManagersExactly`,
   `CreateUserExactly`, `UpdateUserExactly`; and so on for all nineteen): each answer if and only if a condition
   on the rows and the request, and the state after it row by row and pair by pair.
5. **Weeks over months lose nothing** (`MonthSplit.ReportsConserveHours`): for consecutive months that hold
   the weeks, what the monthly reports count plus what they leave out is what the ledger stores.
6. **The monthly loops** compute exactly the declared rows and counters (`Monthly.GenerateMonthly`), and
   the query window changes nothing (`WindowRefinesScan`); each row is what the entries and holidays of its day
   say (`MonthRows.RowExactly`, `LeaveOnLedger`).
7. **Week labels are ISO 8601 week dates, exactly outside the years 0 to 99** (`WeekLabel.LabelIsIsoExactly`),
   and a date shares its label with exactly the dates of its week if and only if that week has no day in the
   years 0 to 99 or 1900 to 1999 (`WeekLabel.LabelTellsWeekExactly`).
8. **CSV round trip** (`CsvReport.RoundTrip`) for arbitrary names, e-mail addresses and departments; the file
   determines dates, statuses, counts and percentages (`CsvReport.PrinterInjective`), and says what it should
   (`CsvReport.FileExactly`).
9. **Report totals** are sums over the entry table, split with the date range, and the utilization of the
   whole lies between those of the parts (`Report.ReportTotals`, `ReportOverSplitRange`); a report lists
   exactly what its caller may see and its filters let through (`Report.ReportScope`).

## Where the code does not do what it seems to promise

Each of these has the exact condition as a law, and a concrete case in `Witnesses`, reached from the empty
database where it is a state.

* `updateTimesheet` writes the date it is given: it does not move it to the start of the week, does not move
  the week end and does not look for another timesheet of that week. `WeekRuns.DatedUpdateExactly` says when
  length, uniqueness, alignment and disjointness survive; `Witnesses.DuplicateWeekReachable` is a run that
  breaks two of them.
* Creating and copying look for a timesheet with the same start only. After a change of the first day of the
  week two weeks of one user can overlap: `WeekRuns.BirthOverlapExactly`, `Witnesses.OverlapReachable`.
* `copyPreviousWeek` does not copy time off: the copies agree with their sources exactly when the sources have
  none (`EntryLaws.CopiesAgreeExactly`, `Witnesses.CopyLosesTimeOff`).
* With weeks that start on Sunday, the monthly timesheet reads every day from the next weekday's column
  (`MonthKeys.ColumnIsWeekdayExactly`, `Witnesses.SundayWeekMisread`).
* A row of a holiday or leave day with more than eight hours shows overtime next to zero time and zero total
  time (`Monthly.RowLaw`, `Witnesses.OvertimeOnHoliday`).
* A monthly timesheet asked for a year from 0 to 99 is made for the years 1900 to 1999, but its holidays are
  looked up in the year as given (`Monthly.HolidayKeysExactly`, `Witnesses.HolidayOf1925Missed`).
* The week label of a date in the years 0 to 99 is that of a day in 1900 to 1999
  (`WeekLabel.LabelTellsWeekExactly`, `Witnesses.LabelsCollide`).
* The report's project filter hides entries but leaves the aggregates as they are
  (`Report.ProjectFilterKeepsTotals`, `ListedHoursExactly`, `Witnesses.FilterHidesHours`).
* An approval, rejection or entry write whose checks ran before another approval's status write breaks the
  account of hours: they are charged twice, stay charged for a rejected timesheet, or are never charged
  (`LateWrites.RepeatedApprovalExactly`, `LateRejectionExactly`, `LateEntriesExactly`;
  `Witnesses.HoursChargedTwice`, `HoursChargedForRejected`, `HoursNeverCharged`).
* `updateUser` writes the role and removes the manager edges in two statements, and `assignManagers` checks
  roles and writes edges in two (`StaffLaws.RoleWriteExactly`, `StaffSteps.LateManagersExactly`;
  `Witnesses.DemotedWithReports`, `LateAssignment`).
* An entry operation writes the entry and recalculates the totals in two statements; a timesheet can be
  approved with stale totals (`StaleTotals.TornWriteExactly`, `TornWriteStale`;
  `Witnesses.ApprovedWithStaleTotals`).
* The repository's own documentation reserves user and project administration for administrators. Exactly
  settings and the managers of a user are; in the other six operations a manager's call can succeed
  (`Witnesses.ForAdministratorsExactly`, with the calls in `Witnesses.ManagerSucceeds`; how far such calls go is
  in `RoleLaws`).

## Model

| member | source | states |
|---|---|---|
| Runs.ReachableSound | src/services/timesheets.service.ts:16-440 | in every state reachable from the empty database by any operations: entry totals are the sums of their seven columns, each timesheet's two totals are the sums over its (billable) entries, each project's used hours are the hours of its entries in approved timesheets, status columns and foreign keys agree, and manager edges are sound |
| Operations.StepSound | src/services/approvals.service.ts:81-137 | any operation, successful or failing, keeps the stored sums of all entries and timesheets, and keeps used hours exact if they were |
| Operations.EntryOpRepairsTotals | src/services/timesheets.service.ts:356-440 | one successful create, update or delete of an entry makes the timesheet's totals the sums over its entries, from any state, even one with stale totals |
| Operations.CreateTimesheetSound | src/services/timesheets.service.ts:59-97 | the created or refused timesheet leaves every other timesheet, every project and all approved rows as they were, and the ledger adding up |
| Operations.UpdateTimesheetSound | src/services/timesheets.service.ts:99-108 | so does writing a raw week start |
| Operations.DeleteTimesheetSound | src/services/timesheets.service.ts:110-116 | so does a delete, which takes the timesheet's entries with it and cannot touch an approved row |
| Operations.SubmitSound | src/services/timesheets.service.ts:118-135 | so does a submission |
| Operations.RejectSound | src/services/approvals.service.ts:139-184 | so does a rejection |
| Operations.CreateEntrySound | src/services/timesheets.service.ts:273-358 | inserting an entry and recalculating leaves the ledger adding up and other timesheets untouched |
| Operations.UpdateEntrySound | src/services/timesheets.service.ts:360-426 | so does merging a request into an entry, also when it moves the entry to another project |
| Operations.DeleteEntrySound | src/services/timesheets.service.ts:428-440 | so does deleting an entry |
| Operations.CopyWeekSound | src/services/timesheets.service.ts:137-246 | so does copying a week, into a new timesheet or over a draft, though it stores copied totals instead of recalculating |
| Operations.ApproveSound | src/services/approvals.service.ts:109-125 | an approval keeps the sums; the increments make used hours exact again after the status write |
| Operations.MarkApprovedMoves | src/services/approvals.service.ts:109-116 | the status write raises each project's approved hours by exactly the timesheet's hours on it |
| Operations.StaffOpTouchesNoRow | src/services/projects.service.ts:48-170 | operations on users, projects and settings change no timesheet or entry, no used hours of a project that stays, start new projects at zero hours, and only remove projects without entries |
| Operations.RowsUntouchedSound | src/prisma/migrations/20260216110835_init/migration.sql:159 | because the foreign key keeps projects with entries in place, such an operation keeps the ledger adding up and the approved rows the same |
| LedgerLaws.ChangeOneSheet | src/services/timesheets.service.ts:16-27 | a change confined to one unapproved timesheet with right totals keeps the whole ledger adding up and the approved rows the same |
| LedgerLaws.RemoveSheetSound | src/prisma/migrations/20260216110835_init/migration.sql:156 | the cascade from a timesheet to its entries keeps the ledger adding up |
| LedgerLaws.WriteCopiesSound | src/services/timesheets.service.ts:202-243 | writing copies and their own sums makes the copies the timesheet's rows and keeps the ledger adding up |
| LedgerLaws.RecalculateRepairs | src/services/timesheets.service.ts:16-27 | after a recalculation the stored totals are the sums, whatever they were |
| LedgerLaws.TotalsBounded | src/types/schemas.ts:9 | 0 <= billable <= total <= 168 hours per entry, for every timesheet |
| Timesheets.CalcEntryTotal | src/services/timesheets.service.ts:262-271 | the seven terms are the sum over the seven columns |
| EntryLaws.MergeTwice | src/services/timesheets.service.ts:393-416 | two updates of an entry are one update with both requests, the later value prevailing; repeating an update changes nothing |
| EntryLaws.MergeNothing | src/services/timesheets.service.ts:393-416 | an update that names nothing leaves the entry as it was if and only if its stored total was right |
| EntryLaws.CreateThenUpdate | src/services/timesheets.service.ts:325-420 | creating an entry and then updating it gives the entry that creating it with both requests gives |
| EntryOutcomes.BlankExactly | src/services/timesheets.service.ts:306 | a description is missing exactly if trimming it at both ends leaves nothing, with white space as ECMA-262 has it |
| EntryOutcomes.CreateEntryExactly | src/services/timesheets.service.ts:287-337 | a new entry is accepted if and only if it is within bounds, the timesheet is the caller's and a draft or rejected, days with hours are described where the settings ask for it, the project is the organisation's (and assigned, for an EMPLOYEE), and no day exceeds the maximum; each refusal is the first condition that fails |
| EntryOutcomes.CreateEntryLeaves | src/services/timesheets.service.ts:325-357 | the row appended holds what the request names, and else is billable with no hours; the total is the seven columns; only the timesheet's totals change besides |
| EntryOutcomes.UpdateEntryExactly | src/services/timesheets.service.ts:374-391 | an update is accepted if and only if it is within bounds, on an open timesheet of the caller's that has the entry, and on a project that exists (and is assigned, for an EMPLOYEE) |
| EntryOutcomes.UpdateEntryLeaves | src/services/timesheets.service.ts:393-424 | that one entry is rewritten in place, each column from the request where it names it and else as it was; only the timesheet's totals change besides |
| EntryOutcomes.DeleteEntryExactly | src/services/timesheets.service.ts:428-437 | an entry is deleted if and only if it is on an open timesheet of the caller's |
| EntryOutcomes.DeleteEntryLeaves | src/services/timesheets.service.ts:438-440 | that one entry goes, all others stay in order; only the timesheet's totals change besides |
| Timesheets.FindEntry | src/services/timesheets.service.ts:380-381 | the entry found is the one with that id in that timesheet; none is found only if there is none |
| EntryLaws.CopiesAgreeExactly | src/services/timesheets.service.ts:189-200 | the copied rows agree with their sources in every column if and only if no source row has time off |
| EntryLaws.CopiesKeepTotals | src/services/timesheets.service.ts:202-205 | the total and billable hours of the copies are those of the rows they were copied from |
| CopyLaws.CopyWeekLaw | src/services/timesheets.service.ts:137-246 | the source is the caller's latest submitted or approved timesheet, is not the target and is untouched; the target's rows are, in order, the source's rows on projects still assigned (all of them unless the caller is an EMPLOYEE); copied plus skipped is the source's count; the target's totals agree with its rows in both branches |
| SheetOutcomes.ApproveExactly | src/services/approvals.service.ts:81-125 | a timesheet is approved if and only if it is a submitted one of the organisation and the caller is not its owner and is ADMIN, or a MANAGER of the organisation with the edge to the owner; the row records caller and time, each project gets the hours booked on it there, nothing else changes; each refusal has its exact reason |
| SheetOutcomes.RejectExactly | src/services/approvals.service.ts:139-173 | the same callers reject the same timesheets, given a reason, which is stored; nothing else changes |
| SheetOutcomes.CreateTimesheetExactly | src/services/timesheets.service.ts:59-97 | there is exactly one week of the date; its timesheet is created if and only if the caller has none that starts then and the week has not begun before today or backdating is allowed; the row is an empty draft of seven days |
| SheetOutcomes.UpdateTimesheetExactly | src/services/timesheets.service.ts:99-108 | exactly the owner's drafts can be updated, and only the week start is written |
| SheetOutcomes.DeleteTimesheetExactly | src/services/timesheets.service.ts:110-116 | exactly the owner's drafts can be deleted; the row goes with exactly its own entries |
| SheetOutcomes.SubmitExactly | src/services/timesheets.service.ts:118-135 | exactly the owner's drafts and rejected timesheets can be submitted; a rejection's reason is cleared |
| SheetOutcomes.CopyExactly | src/services/timesheets.service.ts:137-176 | a week is copied if and only if the settings allow it, the caller has a submitted or approved timesheet, and none of the caller's starts on the target week or the call forces it and that one is a draft; otherwise nothing changes and the answer says why |
| SheetOutcomes.CopyLeaves | src/services/timesheets.service.ts:178-246 | the whole state after a copy: the source's rows (an EMPLOYEE's only on projects still assigned) replace the target's with new ids and no time off, and of the target's own row only the totals change |
| SheetLaws.StepEffect | src/services/timesheets.service.ts:99-135 | what one operation can do to the timesheet it is about: the listed moves with their guards, a birth as a draft on a free whole week, or the deletion of a draft |
| SheetLaws.OthersUntouched | src/services/timesheets.service.ts:99-440 | no operation touches the row or the entries of a timesheet it is not about |
| SheetLaws.Frozen | src/services/timesheets.service.ts:289-291 | no operation of any user changes a submitted timesheet except its decision, nor its entries; an approved one stays entirely as it is |
| SheetLaws.StatusMoves | src/services/timesheets.service.ts:122-134 | every operation moves every timesheet by at most one step of the status machine, and ids are never used again |
| SheetLaws.ApprovalsAreDecisions | src/services/approvals.service.ts:92-116 | only an approval approves, by someone other than the owner who is ADMIN or holds the manager edge, and the timesheet records who |
| Runs.HistoryLaw | src/services/approvals.service.ts:105-173 | over any run a timesheet's history is a prefix of DRAFT (SUBMITTED REJECTED)* SUBMITTED APPROVED, ending in its current status |
| Runs.ApprovedBySomeone | src/services/approvals.service.ts:92-116 | an approved timesheet was approved at some step of the run by the recorded approver, who was entitled to at that step; its entries and totals are those of that moment |
| Runs.FreezeOverRun | src/services/timesheets.service.ts:376-378 | while a timesheet stays submitted or approved its entries, totals, owner and week do not change |
| Runs.ApprovedForEver | src/services/timesheets.service.ts:431-433 | after approval the timesheet and its entries never change |
| WeekRuns.StepKeepsShape | src/services/timesheets.service.ts:63-86 | any operation but a dated update in the organisation keeps, whatever becomes of the settings: its timesheets span seven days, and no user of it has two for one week |
| WeekRuns.StepKeepsAligned | src/services/timesheets.service.ts:60-64 | and, while the organisation keeps its first day of the week, its weeks start on that day |
| WeekRuns.SettingsChangeExactly | src/services/settings.service.ts:11-18 | changing the first day of the week leaves the weeks aligned if and only if the organisation has no timesheet yet |
| WeekRuns.ShapeOverRun | src/services/timesheets.service.ts:77-86 | over all runs in which nobody of the organisation dates an update: week end is start plus six days, and no user has two timesheets with one week start |
| WeekRuns.AlignedOverRun | src/services/timesheets.service.ts:156-163 | over all runs in which the organisation also keeps its first day of the week: its weeks start on that day |
| Runs.OrgsOverRun | src/services/users.service.ts:193-206 | users never leave and never change organisation, so a timesheet's organisation is always its owner's |
| WeekRuns.WeeksDisjoint | src/services/timesheets.service.ts:63-86 | if the owner's organisation kept its first day of the week and dated no update, the weeks of two timesheets of one user share no day, whatever other organisations did |
| WeekRuns.BirthOverlapExactly | src/services/timesheets.service.ts:77-86 | a successful create or copy keeps the caller's weeks apart if and only if no other timesheet of the caller starts less than seven days from the target week |
| WeekRuns.DatedUpdateExactly | src/services/timesheets.service.ts:104-107 | a dated update keeps all weeks seven days long if and only if it writes the date already there, one timesheet per week if and only if no other one has that date, alignment if and only if the date starts a week, and the owner's weeks apart if and only if the new span meets no other |
| Witnesses.DuplicateWeekReachable | src/services/timesheets.service.ts:104-107 | a run after which one user has two timesheets for one week and a week of the wrong length |
| Witnesses.OverlapReachable | src/services/timesheets.service.ts:77-86 | a run without any update of a timesheet after which two weeks of one user share a day |
| Witnesses.SundayWeekMisread | src/services/reports.service.ts:82-83 | in the state that run ends in, a Monday is read from the Tuesday column |
| Witnesses.CopyLosesTimeOff | src/services/timesheets.service.ts:189-200 | a reachable state from which a copy leaves time off behind |
| Witnesses.OvertimeOnHoliday | src/services/reports.service.ts:222-237 | a reachable timesheet and a holiday whose row has no time, no total time and two hours of overtime |
| Witnesses.FilterHidesHours | src/services/reports.service.ts:48-59 | a reachable state in which a report's total is not the hours of the entries it lists |
| Witnesses.HoursChargedTwice | src/services/approvals.service.ts:105-116 | a reachable system with an approval under way, from which a second status write after stale checks breaks the account |
| Witnesses.HoursChargedForRejected | src/services/approvals.service.ts:163-173 | a reachable system with an approval under way, which a late rejection leaves with hours charged for a rejected timesheet |
| Witnesses.HoursNeverCharged | src/services/timesheets.service.ts:339-354 | a reachable system whose approval has read the entries, after which a late entry is approved without being charged |
| Witnesses.DemotedWithReports | src/services/users.service.ts:153-166 | a reachable state in which the role write of a demotion leaves an EMPLOYEE who manages someone |
| Witnesses.LateAssignment | src/services/team.service.ts:89-118 | a reachable state in which a late assignment gives an EMPLOYEE a report |
| Witnesses.ManagerSucceeds | src/routes/projects.routes.ts:16-18 | reachable states in which a MANAGER's call succeeds, for each of six operations |
| Witnesses.ForAdministratorsExactly | src/routes/users.routes.ts:11 | an operation on users, projects or settings only ever succeeds for administrators if and only if it is that on settings or on a user's managers |
| Witnesses.HolidayOf1925Missed | src/services/reports.service.ts:169-172 | a holiday that falls on a day of the requested month and is not found, the year being given as 25 |
| Witnesses.LabelsCollide | src/utils/dateHelpers.ts:54 | for every year from 0 to 99: its first day and that of the year nineteen centuries later have the same label |
| Witnesses.ApprovedWithStaleTotals | src/services/timesheets.service.ts:339-356 | a reachable system with an approved timesheet whose stored totals are not the sums over its entries |
| StaffLaws.StepKeepsEdges | src/services/team.service.ts:80-127 | every operation keeps: nobody manages themselves, and whoever manages someone has role MANAGER or ADMIN |
| StaffLaws.StepKeepsEdgesBut | src/services/team.service.ts:80-127 | and keeps this for all but any given set of users |
| StaffLaws.UpdateUserKeeps | src/services/users.service.ts:134-191 | so does an update that fails after its role write |
| StaffLaws.RewriteUserKeeps | src/services/users.service.ts:153-166 | a role write together with the removal of a demoted user's edges keeps the edges right |
| StaffLaws.RoleWriteExactly | src/services/users.service.ts:153-166 | the role write alone keeps them right if and only if it does not make an EMPLOYEE of a user who manages someone |
| StaffSteps.StaffScheduleEdges | src/services/users.service.ts:153-188 | under any interleaving of the parts of updateUser with each other and with all operations, stops included: nobody manages themselves, and whoever manages someone is MANAGER or ADMIN but for users whose demotion is still to remove their edges |
| StaffSteps.EdgesRightExactly | src/services/users.service.ts:162-166 | so the edges are right if and only if no EMPLOYEE whose removal is open manages someone |
| StaffSteps.UndisturbedUpdate | src/services/users.service.ts:153-188 | an update whose parts run one after the other does what the one-step model says, and leaves no removal open |
| StaffSteps.LateManagersExactly | src/services/team.service.ts:89-118 | an assignment whose check is out of date leaves the edges right if and only if none of its managers has become an EMPLOYEE |
| StaffLaws.AssignManagersKeeps | src/services/team.service.ts:85-118 | replacing an employee's managers keeps the edges right, and a refused request changes none |
| StaffLaws.FailureKeepsState | src/services/team.service.ts:85-118 | every operation that answers with an error has changed nothing, except createUser and updateUser |
| StaffLaws.FailedUpdateLeaves | src/services/users.service.ts:141-188 | a failed updateUser has changed nothing, or just the role with the demoted user's edges, or that and the manager edges |
| StaffLaws.CreateUserKeeps | src/services/users.service.ts:75-132 | so does creating a user, also when a later part of the call fails |
| StaffLaws.StaffOpsKeepUsers | src/services/users.service.ts:193-206 | no operation removes a user or changes a user's organisation |
| RoleLaws.RoleNeeded | src/routes/users.routes.ts:11 | an operation on users, projects or settings by a role its route does not admit is refused in every state and changes nothing |
| RoleLaws.ManagerDeactivates | src/services/users.service.ts:65-73 | a MANAGER deactivates a user if and only if the user is of the organisation and the caller's direct report |
| RoleLaws.ManagerUpdates | src/services/users.service.ts:141-149 | a MANAGER's update gets past its checks if and only if the user is a direct report and the role named is none or EMPLOYEE; otherwise nothing changes |
| RoleLaws.ManagerCreates | src/services/users.service.ts:82-112 | a user a MANAGER creates is an EMPLOYEE, managed by the named managers or else by the caller |
| RoleLaws.ManagerProjects | src/services/projects.service.ts:116-170 | on projects a MANAGER's call does what an ADMIN's does, whoever manages the project, but that employees outside the caller's reports are refused |
| StaffLaws.SheetOpsLeaveStaff | src/services/timesheets.service.ts:59-440 | operations on timesheets, entries and approvals leave users, edges and settings alone |
| StaffOutcomes.AssignManagersExactly | src/services/team.service.ts:80-119 | an employee's managers are replaced if and only if the named ones are distinct active managers or administrators of the organisation other than the employee; everybody else's managers stay |
| StaffOutcomes.SetUserManagersExactly | src/routes/team.routes.ts:20 | and over the route only by administrators |
| StaffOutcomes.WithoutReportsExactly | src/services/team.service.ts:125-127 | exactly the pairs with the user as manager go |
| StaffOutcomes.HandOutExactly | src/services/team.service.ts:188-221 | an employee's projects are replaced if and only if the named ones are distinct active projects of the organisation, all managed by the caller if a MANAGER; everybody else's assignments stay |
| StaffOutcomes.RegisterExactly | src/services/auth.service.ts:33-56 | a free e-mail address opens an organisation with default settings and an administrator; a taken one changes nothing |
| StaffOutcomes.DeactivateUserExactly | src/services/users.service.ts:193-206 | a user is deactivated if and only if of the organisation and the caller is ADMIN or manages the user; only the active flag falls |
| StaffOutcomes.CreateUserExactly | src/services/users.service.ts:75-132 | a user is created if and only if role and e-mail address, managers and projects are all in order; after a failure exactly the parts before the bad one are written, pair by pair |
| StaffOutcomes.RewriteUserExactly | src/services/users.service.ts:153-166 | the named columns are written, and exactly a demoted user's reports go |
| StaffOutcomes.UpdateUserExactly | src/services/users.service.ts:134-191 | an update goes through if and only if the caller is in charge and may give the role, and managers and projects are in order; after a failure exactly the parts before the bad one are written |
| StaffOutcomes.UpdateSettingsExactly | src/services/settings.service.ts:11-18 | only administrators write settings, and only their organisation's row |
| StaffOutcomes.ProjectEdgesExactly | src/services/projects.service.ts:139-157 | a project's managers and employees are replaced by exactly those named; other projects keep theirs |
| StaffOutcomes.ProjectManagersExactly | src/services/projects.service.ts:62-76 | the managers of a new project are those named and a MANAGER who creates it, who may be named again without repetition |
| StaffOutcomes.CreateProjectExactly | src/services/projects.service.ts:48-107 | a project is created if and only if its code is free, a MANAGER names only reports, and the people are distinct users; it starts without used hours |
| StaffOutcomes.UpdateProjectExactly | src/services/projects.service.ts:109-164 | the named columns and lists change together or not at all, and never the used hours |
| StaffOutcomes.DeleteProjectExactly | src/services/projects.service.ts:166-170 | a project goes if and only if no entry refers to it, with its people's pairs |
| Approvals.ChargeNext | src/services/approvals.service.ts:120-125 | one more increment charges one more row, on every project |
| Interleaving.ScheduleSound | src/services/approvals.service.ts:109-125 | under every interleaving of approvals and other operations, with crashes anywhere: the ledger adds up, each approval in progress holds a tail of its frozen rows, and used hours plus increments to be made or lost are the approved hours |
| Interleaving.StepKeepsSystem | src/services/approvals.service.ts:109-125 | every event (a whole operation, a status write, the read of the entries, one increment, a crash) keeps this |
| Interleaving.NeverOverCounts | src/services/approvals.service.ts:118-125 | used hours never exceed the approved hours |
| Interleaving.QuiescentShortfall | src/services/approvals.service.ts:118-125 | when every approval has finished or crashed, a project's hours fall short by exactly the increments lost in crashes |
| Interleaving.QuiescentExact | src/services/approvals.service.ts:118-125 | with no crash they are exact |
| Interleaving.IncrementFindsProject | src/services/approvals.service.ts:121-124 | an increment always finds its project, whatever ran in between |
| Interleaving.DrainAdds | src/services/approvals.service.ts:120-125 | the increments from where an approval stands to its end, several on one project included, add to every project the sum of the rows to go |
| Interleaving.UndisturbedApproval | src/services/approvals.service.ts:81-137 | an approval that runs alone, statement by statement, does what the one-step model says |
| LateWrites.RepeatedApprovalExactly | src/services/approvals.service.ts:105-116 | an approval's status write after stale checks keeps the account if and only if the timesheet is not approved already or has no hours on any project |
| LateWrites.OnTimeWrites | src/services/approvals.service.ts:109-173 | a status write that is not late is that of the approval or rejection itself |
| LateWrites.LateRejectionExactly | src/services/approvals.service.ts:163-173 | a rejection's status write after stale checks keeps it if and only if the timesheet is not approved or has no hours on any project |
| LateWrites.LateEntriesExactly | src/services/timesheets.service.ts:376-424 | entry writes after stale checks keep it if and only if they change no project's hours, or all approvals of the timesheet (none if it is not approved, one if it is) are still to read its entries |
| StoredSums.ApplyIgnoresSums | src/services/timesheets.service.ts:23-26 | two databases that differ in stored sums only (timesheet totals and, if so chosen, used hours) give the same answer to every operation, and databases that differ in them only |
| TornWrites.WholeIsWriteThenRecalculate | src/services/timesheets.service.ts:339-356 | an entry operation is its entry write followed by the recalculation |
| TornWrites.TornScheduleSound | src/services/timesheets.service.ts:418-424 | under every interleaving of approvals with other operations, with crashes anywhere and recalculations late or missing: with the totals refreshed the ledger adds up, and the account of used hours holds |
| TornWrites.TornAccount | src/services/approvals.service.ts:118-125 | in such a system the stored used hours and the increments to be made or lost are the approved hours; they never over-count |
| TornWrites.TornEntries | src/services/timesheets.service.ts:262-271 | and stored entries, their totals and their foreign keys are right |
| StaleTotals.TornWriteExactly | src/services/timesheets.service.ts:339-356 | after an entry write without its recalculation the timesheet's totals are stale if and only if the stored ones are not the old sums plus what the write adds |
| StaleTotals.TornWriteStale | src/services/timesheets.service.ts:418-424 | right totals become stale by such a write if and only if it creates or deletes an entry with hours, or updates one to other hours or other billable hours |
| StaleTotals.StaleStep | src/services/timesheets.service.ts:16-27 | for every event and timesheet, exactly when its totals are stale after it: for a torn entry write on it by the law above; for any other event if they were, the timesheet stays, and the event is no successful entry operation, copy or recalculation on it |
| StaleTotals.StaleExactlySince | src/services/timesheets.service.ts:16-27 | over any schedule, from a moment with right totals until the next repair: they are stale if and only if the sums over the entries are not those of that moment |
| StaleTotals.StaleSince | src/services/timesheets.service.ts:16-27 | over any schedule, stale totals go back to a torn entry write on the timesheet with no repair since |
| Refinement.StepRefines | src/services/approvals.service.ts:109-125 | whatever the event, a run that is like the schedule in all but stored sums can follow it: by the whole operation at its first write, by nothing at any other statement |
| Refinement.ScheduleRefinesRun | src/services/approvals.service.ts:109-125 | every schedule, crashes and late or missing recalculations included, ends like the run of its operations in all but stored sums |
| Refinement.ScheduleHistory | src/services/approvals.service.ts:105-173 | over every schedule a timesheet's history is a prefix of DRAFT (SUBMITTED REJECTED)* SUBMITTED APPROVED |
| Refinement.ScheduleFreeze | src/services/timesheets.service.ts:376-378 | over every schedule, while a timesheet stays submitted or approved, its entries, owner and week do not change |
| Refinement.ScheduleApprovedForEver | src/services/timesheets.service.ts:431-433 | over every schedule an approved timesheet stays approved, with the entries it was approved with |
| Refinement.ScheduleShape | src/services/timesheets.service.ts:77-86 | over every schedule in which nobody of the organisation dates an update: week end is start plus six days, one timesheet per user and week |
| Refinement.ScheduleEdges | src/services/team.service.ts:85-118 | over every schedule nobody manages themselves, and whoever manages someone is MANAGER or ADMIN |
| TimesheetsService.RecalculateTimesheetTotals | src/services/timesheets.service.ts:16-27 | the stored totals become the sums over the timesheet's entries and nothing else changes |
| TimesheetsService.CreateTimesheet | src/services/timesheets.service.ts:59-97 | the new database and the reply are those of the specification function that the laws above are about |
| TimesheetsService.UpdateTimesheet | src/services/timesheets.service.ts:99-108 | likewise: a foreign timesheet or one that is no draft is refused unchanged; otherwise only the week start changes, to the date as given |
| TimesheetsService.DeleteTimesheet | src/services/timesheets.service.ts:110-116 | likewise: only a draft of the caller's goes, and exactly its entries go with it |
| TimesheetsService.SubmitTimesheet | src/services/timesheets.service.ts:118-135 | likewise; the rejection reason is cleared on the way from REJECTED |
| TimesheetsService.FindLatest | src/services/timesheets.service.ts:144-154 | the row found is one of the caller's submitted or approved timesheets with the latest week start, or there is none |
| TimesheetsService.LatestOf | src/services/timesheets.service.ts:144-152 | the loop returns a candidate that no other candidate is later than |
| TimesheetsService.CopyPreviousWeek | src/services/timesheets.service.ts:137-246 | the whole new database, both branches, and the skipped count, for some answers of the two queries that are right for the old database |
| TimesheetsService.ExceedsMax | src/services/timesheets.service.ts:328-337 | the loop finds an over-long day exactly when there is one |
| TimesheetsService.CheckNewEntry | src/services/timesheets.service.ts:287-337 | the checks run in the source's order and give the error the specification gives |
| TimesheetsService.CreateEntry | src/services/timesheets.service.ts:273-358 | insert, then recalculate: the new database and the reply |
| TimesheetsService.UpdateEntry | src/services/timesheets.service.ts:360-426 | merge, write, then recalculate: the new database and the reply |
| TimesheetsService.DeleteEntry | src/services/timesheets.service.ts:428-440 | delete, then recalculate: the new database and the reply |
| ApprovalsService.IncrementUsedHours | src/services/approvals.service.ts:118-125 | the loop over the entries raises every project's used hours by the sum of its rows and changes nothing else |
| ApprovalsService.ApproveTimesheet | src/services/approvals.service.ts:81-137 | status write and increments: the new database and the reply, for every refusal too |
| ApprovalsService.RejectTimesheet | src/services/approvals.service.ts:139-184 | status and reason are written under the same guards as an approval and no project is charged; every refusal leaves the database as it was |
| PeopleService.AssignManagers | src/services/team.service.ts:80-119 | the employee's edges become exactly the given managers, or nothing changes and the error says why |
| PeopleService.RewriteUser | src/services/users.service.ts:153-166 | role and status are written, and a demoted user's edges removed |
| PeopleService.AssignProjectsToEmployee | src/services/team.service.ts:188-221 | the employee's assignments become exactly the given active projects of the organisation, or nothing changes and the error says why |
| PeopleService.CreateUser | src/services/users.service.ts:75-132 | user, manager edges and assignments in sequence; what was written before a failure stays |
| PeopleService.UpdateUser | src/services/users.service.ts:134-191 | role write, removal of edges, manager edges and assignments in sequence; what was written before a failure stays |
| PeopleService.CreateProject | src/services/projects.service.ts:48-107 | the loops build the manager list with the creating manager once and first; the new database and the reply |
| PeopleService.UpdateProject | src/services/projects.service.ts:109-164 | the project's fields and its two edge lists, all or nothing |
| PeopleService.DeleteProject | src/services/projects.service.ts:166-170 | the project and its edges go, unless an entry refers to it |
| Backend.Perform | src/services/timesheets.service.ts:59-440 | any admitted request does to the store what its operation says, and leaves it sound: sums, used hours, status columns and edges |
| Backend.Serve | src/services/timesheets.service.ts:59-440 | from an empty store, any sequence of requests takes the store through the states of a run that performs exactly the admitted ones, in order; so every law of runs is one of the store |
| Calendar.ClosedForm | src/utils/dateHelpers.ts:54-58 | the day number of 1 January that ECMA-262 computes in closed form is the years laid end to end from 1970 |
| Calendar.DayToCivilToDay | src/utils/dateHelpers.ts:54 | reading a day's date gives a real date, and making a day from it gives the day back |
| Calendar.CivilToDayToCivil | src/utils/dateHelpers.ts:54 | making a day from a real date and reading it gives the date back |
| Calendar.SetDateMoves | src/utils/dateHelpers.ts:16 | setting the date to the current one plus k moves by k days over any month or year end |
| Calendar.MonthsTile | src/services/reports.service.ts:120-121 | each month starts where the one before ends |
| Calendar.WeekDayExactly | src/services/reports.service.ts:170 | the weekday counts on from 1 January 2000, a Saturday |
| Weeks.ByCalendar | src/utils/dateHelpers.ts:8-32 | the setDate calls of getWeekStart and getWeekEnd land on the day the model computes |
| Weeks.WeekStartUnique | src/utils/dateHelpers.ts:8-22 | the week start is the one day with the configured weekday among the seven days up to the date |
| Weeks.WeekStartIdempotent | src/utils/dateHelpers.ts:8-22 | the week start of a week start is itself |
| Weeks.WeeksTile | src/utils/dateHelpers.ts:8-32 | every day lies in exactly one week of the grid |
| Weeks.AlignedWeeksDisjoint | src/utils/dateHelpers.ts:8-32 | two weeks of one grid are the same or share no day |
| WeekLabel.LabelIsIsoExactly | src/utils/dateHelpers.ts:53-60 | the label's year and number are the ISO 8601 week date if and only if neither the date's year nor the week's year is one of 0 to 99 |
| WeekLabel.LabelIsIso | src/utils/dateHelpers.ts:53-60 | for those dates the printed parts are the ISO week date |
| WeekLabel.ThursdayByCalendar | src/utils/dateHelpers.ts:55-56 | the setUTCDate call lands on the Thursday of the date's week, over any month or year end |
| WeekLabel.WeekOfThursday | src/utils/dateHelpers.ts:55-58 | year and number computed from the week's Thursday are the ISO week date |
| WeekLabel.IsoWeekDateUnique | src/utils/dateHelpers.ts:53-60 | a day has one ISO week date |
| WeekLabel.LabelNumberExactly | src/utils/dateHelpers.ts:58 | the number the label prints is in 1..53 if and only if the Thursday it is computed from is not in a year from 0 to 99 |
| WeekLabel.LabelText | src/utils/dateHelpers.ts:59 | the label reads as the ISO year, "-W" and the ISO week number in two digits |
| WeekLabel.LabelOfWeekOne | src/utils/dateHelpers.ts:57-59 | for every date and year, week 01 of the year is printed if and only if the day the date is read as shares a week with the year's 4 January, and the year is none of 0 to 99 |
| WeekLabel.LabelOfNextWeek | src/utils/dateHelpers.ts:58-59 | for every date, seven days later the label is that of the next ISO week (the next number, or week 01 of the next year after its last week) if and only if both dates are read as days of ISO-labelled weeks one week apart; so it is for all dates whose label is the ISO week date |
| WeekLabel.SameLabelAsRead | src/utils/dateHelpers.ts:53-60 | any two dates have the same label text if and only if the days they are read as share a Monday-to-Sunday week; outside the years 0 to 99, if and only if they share one themselves |
| WeekLabel.LabelTellsWeekExactly | src/utils/dateHelpers.ts:54 | a date shares its label with exactly the dates of its week if and only if its week has no day in the years 0 to 99 or 1900 to 1999 |
| CsvReport.RoundTrip | src/utils/exportHelpers.ts:63-91 | reading the printed report by RFC 4180 section 2 gives exactly the header, data and summary cells (the blank line as one empty cell), for arbitrary names, e-mail addresses and departments |
| CsvReport.FileExactly | src/utils/exportHelpers.ts:63-91 | a reader finds the eight titles, one line per timesheet with its names, dates, hours and status, an empty line and the summary with its numbers |
| CsvReport.DateTextExactly | src/utils/exportHelpers.ts:52-54 | a date of a four-digit year is printed as YYYY-MM-DD with its own year, month and day |
| Csv.TextRoundTrip | src/utils/exportHelpers.ts:63-91 | the same for the printer on the texts of the cells |
| CsvReport.PrinterInjective | src/utils/exportHelpers.ts:63-91 | reports that print the same file have the same timesheets in the same order: names, dates, statuses, and hours as far as number texts tell them apart; and the same percentage, count and totals |
| CsvReport.DateTextInjective | src/utils/exportHelpers.ts:52-54 | different days have different date texts, in years of any sign and length |
| Csv.ParseLines | src/utils/exportHelpers.ts:86-90 | lines of printed cells joined by line breaks, with or without a final one, read back as those records |
| Csv.FeedEscaped | src/utils/exportHelpers.ts:56-61 | an escaped cell reads back as the cell, whatever characters it holds |
| MonthKeys.DayKeyExactly | src/services/reports.service.ts:79-84 | the key is the one of the seven columns whose midnight, counted from the week start, is within half a day of the date, if there is one |
| MonthKeys.KeyFromAnchor | src/services/reports.service.ts:79-84 | for any stored instant the days with a key are seven consecutive ones, numbered in order |
| MonthKeys.ClockShiftExactly | src/services/reports.service.ts:80 | rounding gives every day its right column if and only if the stored start is off midnight by less than twelve hours back or at most twelve ahead |
| MonthKeys.OneMondayWeek | src/services/reports.service.ts:74-84 | of all Monday weeks exactly one gives a day a key, the column of the day's weekday |
| MonthKeys.ColumnIsWeekdayExactly | src/services/reports.service.ts:82-83 | a matched column is that of the day's weekday if and only if the week starts on a Monday |
| MonthKeys.SundayWeekShifts | src/services/reports.service.ts:82-83 | in a week that starts on Sunday every day gets the next weekday's column |
| MonthKeys.MonthDays | src/services/reports.service.ts:120-126 | day d of a month, the day before and after its ends included, counted from the month's first day, for any month number and year |
| MonthKeys.DaysInMonthLaw | src/services/reports.service.ts:120-121 | the date of the day before the next month starts is the length of the month |
| MonthKeys.MonthDayCivil | src/services/reports.service.ts:169 | the d-th day of the month has d as its date, in the year and month the request is read as |
| MonthKeys.WindowIsWideEnough | src/services/reports.service.ts:125-132 | a week with a key for a day of the month was stored with a start inside the query window, whatever its clock time |
| Monthly.WindowRefinesScan | src/services/reports.service.ts:125-132 | what falls on a day of the month is the same with and without the window |
| Monthly.HolidayOnLaw | src/services/reports.service.ts:148-174 | a date is a holiday if and only if some holiday has that date or recurs on that month and day, and is named after the last such one in the list |
| Monthly.HolidayKeysExactly | src/services/reports.service.ts:150-174 | the keys find the holidays of a day if and only if the request's month is one of the twelve and its year is none of 0 to 99 |
| Monthly.PutHolidayMaps | src/services/reports.service.ts:150-159 | the keys the loop body writes for one more holiday make the map answer for the longer list, for every year, month and day a request can name |
| Monthly.BuildHolidayMap | src/services/reports.service.ts:148-159 | the map built by the loop answers for every date of the requested year what the declarative account says |
| Monthly.KeyTextInjective | src/services/reports.service.ts:152-172 | different dates have different key texts, for years of any sign and length, and no date has the key text of a month number outside 1 to 12 |
| Monthly.ProjectNamesLaw | src/services/reports.service.ts:196-199 | the names listed for a day are those of the projects with hours on it, each once |
| Monthly.AddHit | src/services/reports.service.ts:192-215 | the loop body adds one entry's column to the day's hours, time off, names, notes and leave flag |
| Monthly.TallySheet | src/services/reports.service.ts:183-216 | the inner loop adds all entries of a timesheet that covers the day, and none of one that does not |
| Monthly.TallyDay | src/services/reports.service.ts:183-216 | the loops collect exactly what falls on the day |
| Monthly.MakeRow | src/services/reports.service.ts:168-243 | the row made from the windowed query and the holiday map is the row of a full scan and the declarative holidays |
| Monthly.PushRow | src/services/reports.service.ts:218-230 | totals and counters stay the sums and counts over the rows |
| Monthly.GenerateMonthly | src/services/reports.service.ts:120-259 | for any year and month number: one row per day of the month, each as declared; totals are sums over rows that are no holiday, leave or weekend; counters are the numbers of flagged rows |
| Monthly.RowLaw | src/services/reports.service.ts:222-237 | at most eight regular hours; time plus overtime is the total time if and only if the day is worked or has at most eight hours |
| MonthRows.RowExactly | src/services/reports.service.ts:168-243 | a row's hours and time off are the sums over the columns that fall on its day, at most eight of them regular and none on a holiday or leave; it is leave if and only if some entry there has time off, or hours on a project whose name or code spells leave; a holiday if and only if the list has one; a weekend if and only if it is Saturday or Sunday |
| MonthRows.LeaveExactly | src/services/reports.service.ts:192-215 | the leave flag of what falls on a day is that of the entries' columns |
| MonthRows.LeaveOnLedger | src/services/reports.service.ts:192-215 | and in the database: some entry of the timesheets read has leave in the column as many days after the week start |
| MonthRows.RowHolidayName | src/services/reports.service.ts:172-174 | a holiday's row is named after the last one in the list that is on the day |
| MonthRows.RowCountsExactly | src/services/reports.service.ts:218-228 | a row adds its hours to the totals exactly from Monday to Friday off holidays and leave, and one to each counter it is flagged for |
| MonthRows.RowDate | src/services/reports.service.ts:231 | the date text is the day in two digits and the short month name |
| MonthRows.RowTexts | src/services/reports.service.ts:193-200 | the names and notes shown are exactly those of columns with hours on the day, each once |
| MonthRows.HitsExactly | src/services/reports.service.ts:183-190 | what falls on a day is exactly the entries' columns within half a day of it |
| MonthRows.HitsInOrder | src/services/reports.service.ts:183-190 | timesheet by timesheet in order |
| MonthRows.TextsGrow | src/services/reports.service.ts:193-200 | names and notes are listed in the order they are first met |
| MonthRows.JoinNext | src/services/reports.service.ts:233-234 | the joined text grows by a comma, a space and the next text |
| Monthly.TotalsAreCountedHours | src/services/reports.service.ts:225-228 | total hours plus overtime are the hours of the counted days |
| MonthSplit.MonthsAreARange | src/services/reports.service.ts:120-169 | summing day by day over consecutive months counts every day once |
| MonthSplit.SheetOverDays | src/services/reports.service.ts:183-199 | over days that include its week a timesheet contributes the sum of its entries' seven columns |
| MonthSplit.ReadIsStored | src/services/timesheets.service.ts:262-271 | which is the total the ledger stores for it, in every state where the ledger adds up |
| MonthSplit.WeeksSplitOverMonths | src/services/reports.service.ts:168-216 | for any timesheets and months that hold their weeks, the hours seen on the days of the months are the stored totals, over month and year ends |
| MonthSplit.ReportSplitsItsMonth | src/services/reports.service.ts:225-237 | a month's totals plus its hours on off days are all hours seen on its days |
| MonthSplit.ReportsConserveHours | src/services/reports.service.ts:161-259 | over such months, reported hours plus hours left out for weekends, holidays and leave are the hours the ledger stores |
| Report.ReportScope | src/services/reports.service.ts:17-56 | a report is refused if and only if it names a user other than the caller who is no report of a MANAGER or whom an EMPLOYEE asks for; otherwise it lists exactly the timesheets of the organisation whose owner the caller may see and that are of the dates, user and status asked for, each once, latest week first, with exactly their entries on the project asked for |
| Report.MonthlyRefusesTheSame | src/services/reports.service.ts:98-117 | for every caller and target, on the tables: forbidden if and only if the caller may not see the target, and else NotFound exactly for targets outside the organisation; the report refuses the same targets but the id 0, which it takes for no filter |
| Report.ReportTotals | src/services/reports.service.ts:58-70 | the three totals are sums over all, billable and non-billable entries of the listed timesheets; utilization is their nearest whole percentage, in 0..100 |
| Report.UtilizationInRange | src/services/reports.service.ts:60 | a percentage from 0 to 100 when billable is within total |
| Report.UtilizationExactly | src/services/reports.service.ts:60 | the utilization is the whole percentage nearest to the quotient, the higher of two |
| Report.UtilizationOfParts | src/services/reports.service.ts:60 | the utilization of two parts together lies between theirs, and a part without hours does not count |
| Report.ReportOverSplitRange | src/services/reports.service.ts:34-71 | splitting the date range splits the list in order, adds up every total, and puts the utilization between those of the parts |
| Report.ProjectFilterKeepsTotals | src/services/reports.service.ts:48-60 | the project filter changes no aggregate |
| Report.ListedHoursExactly | src/services/reports.service.ts:48-59 | the report's total is the hours of the entries it lists if and only if every entry of a listed timesheet off the filter's project has no hours |

## Left out

- Routing, cookies, rate limits, logging and process start-up; passwords and tokens (a caller is a user, an organisation and a role).
- Excel and PDF writers; lists, pagination and statistics; notifications; holiday maintenance.
- Rounding of floating-point sums: hours are exact.
- CsvReport.PrinterInjective: the text of a number of hours (JavaScript's Number.toString of a double) is a parameter, any text without comma, quote or line break for each number, so hours are told apart only as far as their texts are.
- Time zones and daylight saving, beyond the lemma on clock shifts; the server's zone is UTC.
- Dates and numbers that do not parse, and dates beyond JavaScript's range.
- Column widths: a text or number that does not fit its column makes a write fail, which the model does not do.
- Columns no operation modelled here reads: names of users, departments, clients, time stamps.
- Lower-casing of characters outside ASCII, in the search for "leave": none of them becomes one of its letters.
- Calls that overlap on one timesheet beyond what `LateWrites` says of a single late write, and single statements of operations other than approvals, entry operations and updateUser: the other operations are single steps. The statements of updateUser (`StaffSteps`) and those of approvals and entry operations (`TornWrites`) are interleaved with whole operations, not with each other.
- `assignEmployeesToProject`, which nothing calls.
- Organisation checks on the edges and entries that several paths do not repeat are not stated as invariants, nor are the daily maximum and the mandatory description, which an update of an entry does not check.
- The order of rows in a query without an order is taken as id order; in the report, ties in the week start may come in any order.
- ApprovalsService.ApproveTimesheet: requires that entries refer to existing projects, which the foreign key guarantees.
- Monthly.GenerateMonthly: takes the user's timesheets and the organisation's holidays as read from the database; the permission check in front of it is `Report.MonthlyRefusal`, and the employee's name and the month's title are not modelled.
- Database.Store: columns are reassigned as whole tables; what happens to two copies of a row held by two callers is not modelled.
