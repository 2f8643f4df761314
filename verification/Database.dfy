/** The database object the services share: one field per table, reassigned by each write. */
module Database {
  import opened Schema

  class Store {
    var timesheets: map<int, Timesheet>
    var entries: seq<Entry>
    var projects: map<int, Project>
    var nextSheet: int
    var nextEntry: int
    var nextProject: int
    var users: map<int, User>
    var manages: set<(int, int)>
    var assignments: set<(int, int)>
    var projectManagers: set<(int, int)>
    var nextUser: int
    var nextOrg: int
    var settings: map<int, Settings>

    constructor ()
      ensures Snapshot() == EMPTY_STATE
    {
      timesheets, entries, projects := map[], [], map[];
      nextSheet, nextEntry, nextProject := 1, 1, 1;
      users, manages, assignments, projectManagers := map[], {}, {}, {};
      nextUser, nextOrg, settings := 1, 1, map[];
    }

    function LedgerNow(): Ledger
      reads this
    {
      Ledger(timesheets, entries, projects, nextSheet, nextEntry, nextProject)
    }

    function StaffNow(): Staff
      reads this
    {
      Staff(users, manages, assignments, projectManagers, nextUser, nextOrg)
    }

    /** The contents of all tables. */
    function Snapshot(): State
      reads this
    {
      State(LedgerNow(), StaffNow(), settings)
    }

    /** The foreign key from entries to projects, which the database enforces. */
    predicate ProjectsPresent()
      reads this
    {
      forall e | e in entries :: e.project in projects
    }
  }
}
