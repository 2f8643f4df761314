/**
 The report over a date range: a model of generateReport, who may see what, and what its totals
 mean against the entry table.
 */
module Report {
  import opened Common
  import opened Rows
  import opened Schema
  import opened LedgerLaws
  import opened MonthKeys

  /** Dates are instants in milliseconds; an id of 0 is no filter, as in the source. */
  datatype Filters = Filters(
    dateFrom: int, dateTo: int, userId: Option<int>, status: Option<Status>, projectId: Option<int>)

  datatype ReportRow = ReportRow(id: int, sheet: Timesheet, entries: seq<Entry>)

  datatype Aggregates = Aggregates(
    totalHours: real, billableHours: real, nonBillableHours: real, utilization: int, timesheetCount: int)

  datatype ReportReply = Report(rows: seq<ReportRow>, aggregates: Aggregates) | Refused(error: Error)

  function Given(id: Option<int>): Option<int> {
    if id == Some(0) then None else id
  }

  // ---- Scope ----

  /** getDirectReportIds */
  function DirectReports(staff: Staff, manager: int, org: int): set<int> {
    if manager in staff.users && staff.users[manager].org == org
    then set edge | edge in staff.manages && edge.0 == manager :: edge.1
    else {}
  }

  /** The part of the query's condition that the caller's role and the user filter give. */
  predicate InScope(staff: Staff, c: Caller, f: Filters, user: int) {
    if Given(f.userId).Some? then user == Given(f.userId).value
    else if c.role == EMPLOYEE then user == c.user
    else if c.role == MANAGER then user in DirectReports(staff, c.user, c.org) + {c.user}
    else true
  }

  /** The rest of it. */
  predicate PassesFilters(sheet: Timesheet, f: Filters) {
    f.dateFrom <= Midnight(sheet.weekStart) <= f.dateTo && (f.status.Some? ==> sheet.status == f.status.value)
  }

  function Matches(s: State, c: Caller, f: Filters): int -> bool {
    (t: int) =>
      && t in s.ledger.timesheets
      && s.ledger.timesheets[t].org == c.org
      && InScope(s.staff, c, f, s.ledger.timesheets[t].user)
      && PassesFilters(s.ledger.timesheets[t], f)
  }

  /** The timesheet table as the query walks it: every row once, latest week first, ties in any order. */
  ghost predicate IsListing(ids: seq<int>, l: Ledger) {
    && (forall t :: t in ids <==> t in l.timesheets)
    && (forall i, j | 0 <= i < j < |ids| :: ids[i] != ids[j])
    && (forall i, j | 0 <= i < j < |ids| && ids[i] in l.timesheets && ids[j] in l.timesheets ::
          l.timesheets[ids[i]].weekStart >= l.timesheets[ids[j]].weekStart)
  }

  function OnFilterProject(f: Filters): Entry -> bool {
    (e: Entry) => Given(f.projectId).Some? ==> e.project == Given(f.projectId).value
  }

  function RowFor(l: Ledger, f: Filters, t: int): ReportRow
    requires t in l.timesheets
  {
    ReportRow(t, l.timesheets[t], Filter(SheetRows(l.entries, t), OnFilterProject(f)))
  }

  /** `Math.round`: halves go up. */
  function Round(x: real): int {
    (x + 0.5).Floor
  }

  function Utilization(billable: real, total: real): int {
    if total > 0.0 then Round(billable / total * 100.0) else 0
  }

  function SheetTotal(): ReportRow -> real {
    (r: ReportRow) => r.sheet.totalHours
  }

  function SheetBillable(): ReportRow -> real {
    (r: ReportRow) => r.sheet.billableHours
  }

  function Aggregate(rows: seq<ReportRow>): Aggregates {
    var total, billable := Sum(rows, SheetTotal()), Sum(rows, SheetBillable());
    Aggregates(total, billable, total - billable, Utilization(billable, total), |rows|)
  }

  function MakeRows(l: Ledger, f: Filters, ids: seq<int>): seq<ReportRow>
    requires forall t | t in ids :: t in l.timesheets
  {
    seq(|ids|, i requires 0 <= i < |ids| => RowFor(l, f, ids[i]))
  }

  /** The timesheets the report lists. */
  function Selected(s: State, listing: seq<int>, f: Filters, c: Caller): (ids: seq<int>)
    ensures forall t | t in ids :: t in s.ledger.timesheets
  {
    FilterMembers(listing, Matches(s, c, f));
    Filter(listing, Matches(s, c, f))
  }

  function GenerateReport(s: State, listing: seq<int>, f: Filters, c: Caller): ReportReply {
    if c.role == EMPLOYEE && Given(f.userId).Some? && Given(f.userId).value != c.user then Refused(Forbidden)
    else if c.role == MANAGER && Given(f.userId).Some?
            && Given(f.userId).value !in DirectReports(s.staff, c.user, c.org) + {c.user} then Refused(Forbidden)
    else
      var rows := MakeRows(s.ledger, f, Selected(s, listing, f, c));
      Report(rows, Aggregate(rows))
  }

  // ---- Who sees what ----

  /** Oneself, anyone for an administrator, and for a MANAGER of the organisation those with an edge to them. */
  predicate MaySee(staff: Staff, c: Caller, user: int) {
    || user == c.user || c.role == ADMIN
    || (c.role == MANAGER && (c.user, user) in staff.manages
        && c.user in staff.users && staff.users[c.user].org == c.org)
  }

  /** The request names a user; the id 0 names nobody. */
  predicate NamesUser(f: Filters) {
    f.userId.Some? && f.userId.value != 0
  }

  /** A timesheet of the organisation of someone the caller may see, of the dates, user and status asked for. */
  predicate Listed(s: State, c: Caller, f: Filters, t: int) {
    && t in s.ledger.timesheets
    && var sheet := s.ledger.timesheets[t];
       && sheet.org == c.org && MaySee(s.staff, c, sheet.user)
       && (NamesUser(f) ==> sheet.user == f.userId.value)
       && f.dateFrom <= 86400000 * sheet.weekStart && 86400000 * sheet.weekStart <= f.dateTo
       && (f.status.None? || f.status == Some(sheet.status))
  }

  /** The entries of a timesheet on the project asked for; the id 0 asks for all. */
  function Shown(f: Filters, t: int): Entry -> bool {
    (e: Entry) => e.sheet == t && (f.projectId.None? || f.projectId == Some(0) || f.projectId == Some(e.project))
  }

  lemma {:induction false} FilterSorted<T(!new)>(rows: seq<T>, keep: T -> bool, before: (T, T) -> bool)
    requires forall i, j | 0 <= i < j < |rows| :: before(rows[i], rows[j])
    ensures forall i, j | 0 <= i < j < |Filter(rows, keep)| :: before(Filter(rows, keep)[i], Filter(rows, keep)[j])
  {
    if rows != [] {
      var n := |rows| - 1;
      FilterSorted(rows[..n], keep, before);
      FilterMembers(rows[..n], keep);
      var front := Filter(rows[..n], keep);
      forall i | 0 <= i < |front| ensures before(front[i], rows[n]) {
        assert front[i] in front && front[i] in rows[..n];
        var k :| 0 <= k < n && rows[k] == front[i];
      }
    }
  }

  lemma ReportsAreEdges(staff: Staff, c: Caller)
    ensures forall u :: u in DirectReports(staff, c.user, c.org) <==>
              (c.user, u) in staff.manages && c.user in staff.users && staff.users[c.user].org == c.org
  {
    forall u ensures u in DirectReports(staff, c.user, c.org) <==>
        (c.user, u) in staff.manages && c.user in staff.users && staff.users[c.user].org == c.org {
      assert (c.user, u).1 == u;
    }
  }

  /** The query's condition, once the request is let through, is the one above. */
  lemma MatchesExactly(s: State, f: Filters, c: Caller, t: int)
    requires NamesUser(f) ==> MaySee(s.staff, c, f.userId.value)
    ensures Matches(s, c, f)(t) <==> Listed(s, c, f, t)
  {
    ReportsAreEdges(s.staff, c);
    hide DirectReports;
  }

  /** Exactly the timesheets that pass, each once and latest week first, with their entries on the project asked for. */
  ghost predicate Lists(s: State, c: Caller, f: Filters, rows: seq<ReportRow>) {
    && (forall t :: Listed(s, c, f, t) <==> exists i | 0 <= i < |rows| :: rows[i].id == t)
    && (forall i, j | 0 <= i < j < |rows| ::
          rows[i].id != rows[j].id && rows[i].sheet.weekStart >= rows[j].sheet.weekStart)
    && forall i | 0 <= i < |rows| ::
         && rows[i].id in s.ledger.timesheets && rows[i].sheet == s.ledger.timesheets[rows[i].id]
         && rows[i].entries == Filter(s.ledger.entries, Shown(f, rows[i].id))
  }

  /** A report is refused exactly when it names a user the caller may not see, and else lists exactly what passes. */
  lemma ReportScope(s: State, listing: seq<int>, f: Filters, c: Caller)
    requires IsListing(listing, s.ledger)
    ensures var r := GenerateReport(s, listing, f, c);
            if NamesUser(f) && !MaySee(s.staff, c, f.userId.value) then r == Refused(Forbidden)
            else r.Report? && Lists(s, c, f, r.rows)
  {
    RefusedExactly(s, listing, f, c);
    if NamesUser(f) ==> MaySee(s.staff, c, f.userId.value) {
      var ids := Selected(s, listing, f, c);
      SelectedExactly(s, listing, f, c);
      hide Selected, Aggregate, Listed, MaySee, NamesUser, MakeRows, IsListing, Lists, DirectReports;
      RowsList(s, f, c, ids);
    }
  }

  lemma RowsList(s: State, f: Filters, c: Caller, ids: seq<int>)
    requires forall t :: t in ids <==> Listed(s, c, f, t)
    requires forall i, j | 0 <= i < j < |ids| :: Later(s.ledger)(ids[i], ids[j])
    requires forall t | t in ids :: t in s.ledger.timesheets
    ensures Lists(s, c, f, MakeRows(s.ledger, f, ids))
  {
    RowsOfIds(s.ledger, f, ids);
    hide MakeRows, Filter, Listed;
    var rows := MakeRows(s.ledger, f, ids);
    forall t ensures t in ids <==> exists i | 0 <= i < |rows| :: rows[i].id == t {
      assert forall i | 0 <= i < |rows| :: rows[i].id == ids[i];
    }
    forall i, j | 0 <= i < j < |rows|
      ensures rows[i].id != rows[j].id && rows[i].sheet.weekStart >= rows[j].sheet.weekStart
    {
      assert Later(s.ledger)(ids[i], ids[j]) && ids[i] in ids && ids[j] in ids;
    }
  }

  lemma SelectedExactly(s: State, listing: seq<int>, f: Filters, c: Caller)
    requires IsListing(listing, s.ledger) && (NamesUser(f) ==> MaySee(s.staff, c, f.userId.value))
    ensures var ids := Selected(s, listing, f, c);
            && (forall t :: t in ids <==> Listed(s, c, f, t))
            && forall i, j | 0 <= i < j < |ids| :: Later(s.ledger)(ids[i], ids[j])
  {
    FilterMembers(listing, Matches(s, c, f));
    forall t ensures Listed(s, c, f, t) <==> t in Selected(s, listing, f, c) {
      MatchesExactly(s, f, c, t);
    }
    hide Matches, Filter, Listed, MaySee, NamesUser;
    FilterSorted(listing, Matches(s, c, f), Later(s.ledger));
  }

  lemma RowsOfIds(l: Ledger, f: Filters, ids: seq<int>)
    requires forall t | t in ids :: t in l.timesheets
    ensures var rows := MakeRows(l, f, ids);
            && |rows| == |ids|
            && forall i | 0 <= i < |ids| :: rows[i] == ReportRow(ids[i], l.timesheets[ids[i]],
                                                                 Filter(l.entries, Shown(f, ids[i])))
  {
    forall t | t in ids ensures RowFor(l, f, t) == ReportRow(t, l.timesheets[t], Filter(l.entries, Shown(f, t))) {
      ShownRows(l, f, t);
    }
    hide RowFor, Filter;
  }

  /** Another timesheet, of the same or an earlier week. */
  function Later(l: Ledger): (int, int) -> bool {
    (a: int, b: int) =>
      && a != b
      && (a in l.timesheets && b in l.timesheets ==> l.timesheets[a].weekStart >= l.timesheets[b].weekStart)
  }

  lemma ShownRows(l: Ledger, f: Filters, t: int)
    ensures Filter(SheetRows(l.entries, t), OnFilterProject(f)) == Filter(l.entries, Shown(f, t))
  {
    FilterMembers(l.entries, InSheet(t));
    FilterSame(SheetRows(l.entries, t), OnFilterProject(f), Shown(f, t));
    FilterTwice(l.entries, InSheet(t), Shown(f, t));
  }

  lemma RefusedExactly(s: State, listing: seq<int>, f: Filters, c: Caller)
    ensures GenerateReport(s, listing, f, c).Refused? <==>
              NamesUser(f) && !MaySee(s.staff, c, f.userId.value)
    ensures GenerateReport(s, listing, f, c).Refused? ==> GenerateReport(s, listing, f, c) == Refused(Forbidden)
  {
    ReportsAreEdges(s.staff, c);
    hide DirectReports, Selected, MakeRows, Aggregate;
  }

  /** The checks in front of the monthly timesheet. */
  function MonthlyRefusal(staff: Staff, c: Caller, target: int): Option<Error> {
    if c.role == EMPLOYEE && target != c.user then Some(Forbidden)
    else if c.role == MANAGER && target != c.user && target !in DirectReports(staff, c.user, c.org) then Some(Forbidden)
    else if !(target in staff.users && staff.users[target].org == c.org) then Some(NotFound)
    else None
  }

  /**
   The monthly timesheet of a user is forbidden exactly to those who may not see the user, and beyond
   that found only for users of the organisation. For a named user it forbids exactly what the report
   refuses; the report takes the id 0 for no filter and refuses nothing.
   */
  lemma MonthlyRefusesTheSame(s: State, listing: seq<int>, f: Filters, c: Caller, target: int)
    ensures MonthlyRefusal(s.staff, c, target)
         == if !MaySee(s.staff, c, target) then Some(Forbidden)
            else if target in s.staff.users && s.staff.users[target].org == c.org then None else Some(NotFound)
    ensures GenerateReport(s, listing, f.(userId := Some(target)), c).Refused? <==>
              target != 0 && MonthlyRefusal(s.staff, c, target) == Some(Forbidden)
  {
    ReportsAreEdges(s.staff, c);
    RefusedExactly(s, listing, f.(userId := Some(target)), c);
    hide DirectReports, GenerateReport;
  }

  // ---- What the totals mean ----

  /** Entries of the listed timesheets. */
  function InSheets(ids: seq<int>): Entry -> bool {
    (e: Entry) => e.sheet in ids
  }

  function BillableIn(ids: seq<int>): Entry -> bool {
    (e: Entry) => e.sheet in ids && e.billable
  }

  function UnbillableIn(ids: seq<int>): Entry -> bool {
    (e: Entry) => e.sheet in ids && !e.billable
  }

  function BillableInSheet(t: int): Entry -> bool {
    (e: Entry) => e.sheet == t && e.billable
  }

  predicate Distinct(ids: seq<int>) {
    forall i, j | 0 <= i < j < |ids| :: ids[i] != ids[j]
  }

  lemma BillableRows(entries: seq<Entry>, t: int)
    ensures BillableHoursOf(SheetRows(entries, t)) == Sum(Filter(entries, BillableInSheet(t)), Total())
  {
    FilterTwice(entries, InSheet(t), BillableInSheet(t));
    FilterMembers(entries, InSheet(t));
    FilterSame(SheetRows(entries, t), IsBillable(), BillableInSheet(t));
  }

  /** One more timesheet adds its stored totals. */
  lemma OneMoreSheet(l: Ledger, front: seq<int>, t: int)
    requires AddsUp(l) && t in l.timesheets && t !in front
    ensures Sum(Filter(l.entries, InSheets(front + [t])), Total())
         == Sum(Filter(l.entries, InSheets(front)), Total()) + l.timesheets[t].totalHours
    ensures Sum(Filter(l.entries, BillableIn(front + [t])), Total())
         == Sum(Filter(l.entries, BillableIn(front)), Total()) + l.timesheets[t].billableHours
  {
    assert SheetsOk(l) && TotalsOk(l.timesheets[t], SheetRows(l.entries, t));
    BillableRows(l.entries, t);
    hide AddsUp, SheetsOk, Filter, Sum;
    SumSplit(l.entries, InSheets(front + [t]), InSheets(front), InSheet(t), Total());
    SumSplit(l.entries, BillableIn(front + [t]), BillableIn(front), BillableInSheet(t), Total());
  }

  lemma {:induction false} TotalsOfSheets(l: Ledger, f: Filters, ids: seq<int>)
    requires AddsUp(l) && Distinct(ids) && forall t | t in ids :: t in l.timesheets
    ensures Sum(MakeRows(l, f, ids), SheetTotal()) == Sum(Filter(l.entries, InSheets(ids)), Total())
    ensures Sum(MakeRows(l, f, ids), SheetBillable()) == Sum(Filter(l.entries, BillableIn(ids)), Total())
    decreases |ids|
  {
    if ids == [] {
      FilterNone(l.entries, InSheets(ids));
      FilterNone(l.entries, BillableIn(ids));
    } else {
      var n := |ids| - 1;
      var front, t := ids[..n], ids[n];
      assert ids == front + [t] && t !in front;
      hide AddsUp, Filter, Sum, MakeRows, Distinct;
      TotalsOfSheets(l, f, front);
      OneMoreSheet(l, front, t);
      NextRow(l, f, front, t);
      SumSnoc(MakeRows(l, f, front), RowFor(l, f, t), SheetTotal());
      SumSnoc(MakeRows(l, f, front), RowFor(l, f, t), SheetBillable());
    }
  }

  lemma NextRow(l: Ledger, f: Filters, front: seq<int>, t: int)
    requires forall u | u in front :: u in l.timesheets
    requires t in l.timesheets
    ensures MakeRows(l, f, front + [t]) == MakeRows(l, f, front) + [RowFor(l, f, t)]
  {
    hide RowFor;
  }

  lemma SelectedDistinct(s: State, listing: seq<int>, f: Filters, c: Caller)
    requires Distinct(listing)
    ensures Distinct(Selected(s, listing, f, c))
  {
    DistinctFilter(listing, Matches(s, c, f));
  }

  lemma {:induction false} DistinctFilter(ids: seq<int>, keep: int -> bool)
    requires Distinct(ids)
    ensures Distinct(Filter(ids, keep))
  {
    if ids != [] {
      var n := |ids| - 1;
      DistinctFilter(ids[..n], keep);
      FilterMembers(ids[..n], keep);
      var before := Filter(ids[..n], keep);
      forall i | 0 <= i < |before| ensures before[i] != ids[n] {
        assert before[i] in before && before[i] in ids[..n];
      }
    }
  }

  /** The timesheets a report lists. */
  function RowIds(rows: seq<ReportRow>): seq<int> {
    seq(|rows|, i requires 0 <= i < |rows| => rows[i].id)
  }

  lemma IdsOfRows(l: Ledger, f: Filters, ids: seq<int>)
    requires forall t | t in ids :: t in l.timesheets
    ensures RowIds(MakeRows(l, f, ids)) == ids
  {
  }

  /**
   The report's totals are sums over the entry table: all, billable and non-billable hours of the
   entries in the listed timesheets; the utilization is the nearest whole percentage, from 0 to 100.
   */
  lemma ReportTotals(s: State, listing: seq<int>, f: Filters, c: Caller)
    requires AddsUp(s.ledger) && IsListing(listing, s.ledger) && GenerateReport(s, listing, f, c).Report?
    ensures var r := GenerateReport(s, listing, f, c);
            var g, ids := r.aggregates, RowIds(r.rows);
            && g.totalHours == Sum(Filter(s.ledger.entries, InSheets(ids)), Total())
            && g.billableHours == Sum(Filter(s.ledger.entries, BillableIn(ids)), Total())
            && g.nonBillableHours == Sum(Filter(s.ledger.entries, UnbillableIn(ids)), Total())
            && g.timesheetCount == |r.rows|
            && 0 <= g.utilization <= 100
            && (if g.totalHours > 0.0
                then (2 * g.utilization - 1) as real * g.totalHours <= 200.0 * g.billableHours
                     && 200.0 * g.billableHours < (2 * g.utilization + 1) as real * g.totalHours
                else g.utilization == 0)
  {
    var l, ids := s.ledger, Selected(s, listing, f, c);
    hide AddsUp, Selected;
    SelectedDistinct(s, listing, f, c);
    TotalsOfSheets(l, f, ids);
    SumSplit(l.entries, InSheets(ids), BillableIn(ids), UnbillableIn(ids), Total());
    RowsBounded(l, f, ids);
    hide Sum, Filter, MakeRows, Utilization;
    var rows := MakeRows(l, f, ids);
    assert RowIds(rows) == ids by { IdsOfRows(l, f, ids); }
    var billable, total := Sum(rows, SheetBillable()), Sum(rows, SheetTotal());
    UtilizationInRange(billable, total);
    UtilizationExactly(billable, total, Utilization(billable, total));
  }

  lemma {:induction false} RowsBounded(l: Ledger, f: Filters, ids: seq<int>)
    requires AddsUp(l) && forall t | t in ids :: t in l.timesheets
    ensures BillableWithinTotal(MakeRows(l, f, ids))
    decreases |ids|
  {
    hide AddsUp;
    if ids != [] {
      var n := |ids| - 1;
      RowsBounded(l, f, ids[..n]);
      TotalsBounded(l, ids[n]);
      assert MakeRows(l, f, ids)[..n] == MakeRows(l, f, ids[..n]);
    }
  }

  // ---- Utilization ----

  lemma UtilizationInRange(billable: real, total: real)
    requires 0.0 <= billable <= total
    ensures 0 <= Utilization(billable, total) <= 100
  {
    if total > 0.0 {
      FractionsOrdered(0.0, total, billable, total);
      FractionsOrdered(billable, total, total, total);
      assert total / total == 1.0;
    }
  }

  lemma TimesOrdered(x: real, y: real, k: real)
    requires x < y && k > 0.0
    ensures x * k < y * k
  {
  }

  lemma TimesOrderedExactly(x: real, y: real, k: real)
    requires k > 0.0
    ensures x <= y <==> x * k <= y * k
  {
    if y < x {
      TimesOrdered(y, x, k);
    } else if x < y {
      TimesOrdered(x, y, k);
    }
  }

  /** The utilization is the whole percentage nearest to the quotient, the higher of two; no hours count as 0. */
  lemma UtilizationExactly(billable: real, total: real, u: int)
    ensures total > 0.0 ==>
              (Utilization(billable, total) == u <==>
                (2 * u - 1) as real * total <= 200.0 * billable < (2 * u + 1) as real * total)
    ensures total <= 0.0 ==> Utilization(billable, total) == 0
  {
    if total > 0.0 {
      var y := billable / total * 100.0 + 0.5;
      var k := 2.0 * total;
      assert billable / total * total == billable;
      assert y * k == 200.0 * (billable / total * total) + total;
      var low, high := (2 * u - 1) as real * total, (2 * u + 1) as real * total;
      var v, w := u as real, (u + 1) as real;
      assert v * k == low + total;
      assert w * k == high + total;
      TimesOrderedExactly(v, y, k);
      TimesOrderedExactly(w, y, k);
      assert Utilization(billable, total) == u <==> v <= y < w;
      assert v <= y <==> low <= 200.0 * billable;
      assert w <= y <==> high <= 200.0 * billable;
    }
  }

  lemma FractionsOrdered(b1: real, t1: real, b2: real, t2: real)
    requires t1 > 0.0 && t2 > 0.0 && b1 * t2 <= b2 * t1
    ensures b1 / t1 <= b2 / t2
  {
    var x, y := b1 / t1, b2 / t2;
    assert x * t1 == b1 && y * t2 == b2;
    var k := t1 * t2;
    assert k > 0.0;
    assert x * k == (x * t1) * t2 && y * k == (y * t2) * t1;
    if y < x {
      TimesOrdered(y, x, k);
    }
  }

  lemma FractionsCross(b1: real, t1: real, b2: real, t2: real)
    requires t1 > 0.0 && t2 > 0.0 && b1 / t1 <= b2 / t2
    ensures b1 * t2 <= b2 * t1
  {
    var x, y := b1 / t1, b2 / t2;
    assert x * t1 == b1 && y * t2 == b2;
    var k := t1 * t2;
    assert k > 0.0 && x * k <= y * k;
    assert x * k == (x * t1) * t2 && y * k == (y * t2) * t1;
  }

  /** The mediant of two fractions lies between them. */
  lemma Mediant(b1: real, t1: real, b2: real, t2: real)
    requires t1 > 0.0 && t2 > 0.0 && b1 / t1 <= b2 / t2
    ensures b1 / t1 <= (b1 + b2) / (t1 + t2) <= b2 / t2
  {
    FractionsCross(b1, t1, b2, t2);
    assert b1 * (t1 + t2) == b1 * t1 + b1 * t2 && (b1 + b2) * t1 == b1 * t1 + b2 * t1;
    assert (b1 + b2) * t2 == b1 * t2 + b2 * t2 && b2 * (t1 + t2) == b2 * t1 + b2 * t2;
    FractionsOrdered(b1, t1, b1 + b2, t1 + t2);
    FractionsOrdered(b1 + b2, t1 + t2, b2, t2);
  }

  /** Rounding keeps the order. */
  lemma PercentOrdered(x: real, y: real)
    requires x <= y
    ensures Round(x * 100.0) <= Round(y * 100.0)
  {
  }

  lemma UtilizationBetweenOrdered(b1: real, t1: real, b2: real, t2: real)
    requires t1 > 0.0 && t2 > 0.0 && b1 / t1 <= b2 / t2
    ensures Utilization(b1, t1) <= Utilization(b1 + b2, t1 + t2) <= Utilization(b2, t2)
  {
    Mediant(b1, t1, b2, t2);
    PercentOrdered(b1 / t1, (b1 + b2) / (t1 + t2));
    PercentOrdered((b1 + b2) / (t1 + t2), b2 / t2);
  }

  function Min(a: int, b: int): int {
    if a < b then a else b
  }

  function Max(a: int, b: int): int {
    if a < b then b else a
  }

  /** The utilization of two parts together lies between theirs; a part without hours does not count. */
  lemma UtilizationOfParts(b1: real, t1: real, b2: real, t2: real)
    requires 0.0 <= b1 <= t1 && 0.0 <= b2 <= t2
    ensures t1 > 0.0 && t2 > 0.0 ==>
              Min(Utilization(b1, t1), Utilization(b2, t2)) <= Utilization(b1 + b2, t1 + t2)
              <= Max(Utilization(b1, t1), Utilization(b2, t2))
    ensures t1 == 0.0 ==> Utilization(b1 + b2, t1 + t2) == Utilization(b2, t2)
    ensures t2 == 0.0 ==> Utilization(b1 + b2, t1 + t2) == Utilization(b1, t1)
  {
    if t1 > 0.0 && t2 > 0.0 {
      hide Utilization;
      if b1 / t1 <= b2 / t2 {
        UtilizationBetweenOrdered(b1, t1, b2, t2);
      } else {
        UtilizationBetweenOrdered(b2, t2, b1, t1);
        assert b2 + b1 == b1 + b2 && t2 + t1 == t1 + t2;
      }
    }
  }

  // ---- Splitting the date range ----

  lemma {:induction false} SplitListing<T>(ids: seq<T>, whole: T -> bool, late: T -> bool, early: T -> bool)
    requires forall t | t in ids :: whole(t) == (late(t) || early(t))
    requires forall i, j | 0 <= i <= j < |ids| :: !(early(ids[i]) && late(ids[j]))
    ensures Filter(ids, whole) == Filter(ids, late) + Filter(ids, early)
  {
    if ids != [] {
      var n := |ids| - 1;
      SplitListing(ids[..n], whole, late, early);
      assert ids[n] in ids && whole(ids[n]) == (late(ids[n]) || early(ids[n]));
      var before, after := Filter(ids[..n], late), Filter(ids[..n], early);
      if late(ids[n]) {
        FilterNone(ids[..n], early);
        assert before + after == before;
      } else {
        assert (before + after) + [ids[n]] == before + (after + [ids[n]]);
      }
    }
  }

  predicate BillableWithinTotal(rows: seq<ReportRow>) {
    0.0 <= Sum(rows, SheetBillable()) <= Sum(rows, SheetTotal())
  }

  /** How the aggregates of two lists of timesheets give those of both. */
  predicate Combine(w: Aggregates, a: Aggregates, b: Aggregates) {
    && w.totalHours == a.totalHours + b.totalHours
    && w.billableHours == a.billableHours + b.billableHours
    && w.nonBillableHours == a.nonBillableHours + b.nonBillableHours
    && w.timesheetCount == a.timesheetCount + b.timesheetCount
    && (a.totalHours > 0.0 && b.totalHours > 0.0 ==>
          Min(a.utilization, b.utilization) <= w.utilization <= Max(a.utilization, b.utilization))
    && (a.totalHours == 0.0 ==> w.utilization == b.utilization)
    && (b.totalHours == 0.0 ==> w.utilization == a.utilization)
  }

  lemma AggregatesCombine(early: seq<ReportRow>, late: seq<ReportRow>)
    requires BillableWithinTotal(early) && BillableWithinTotal(late)
    ensures Combine(Aggregate(late + early), Aggregate(early), Aggregate(late))
  {
    hide Sum, Utilization, Min, Max;
    SumConcat(late, early, SheetTotal());
    SumConcat(late, early, SheetBillable());
    UtilizationOfParts(Sum(early, SheetBillable()), Sum(early, SheetTotal()),
                       Sum(late, SheetBillable()), Sum(late, SheetTotal()));
  }

  /**
   Splitting the range of dates splits the report: the later part's timesheets are listed first,
   every total is the sum of the two totals, and the utilization lies between the two.
   */
  lemma ReportOverSplitRange(s: State, listing: seq<int>, f: Filters, c: Caller, cut: int)
    requires AddsUp(s.ledger) && IsListing(listing, s.ledger) && GenerateReport(s, listing, f, c).Report?
    requires f.dateFrom <= cut <= f.dateTo
    ensures var early := GenerateReport(s, listing, f.(dateTo := cut), c);
            var late := GenerateReport(s, listing, f.(dateFrom := cut + 1), c);
            var whole := GenerateReport(s, listing, f, c);
            && early.Report? && late.Report? && whole.rows == late.rows + early.rows
            && Combine(whole.aggregates, early.aggregates, late.aggregates)
  {
    var l := s.ledger;
    var fe, fl := f.(dateTo := cut), f.(dateFrom := cut + 1);
    hide AddsUp, IsListing, Selected, MakeRows, Aggregate, Combine, DirectReports;
    SelectedSplits(s, listing, f, c, cut);
    var se, sl := Selected(s, listing, fe, c), Selected(s, listing, fl, c);
    RowsBounded(l, fe, se);
    RowsBounded(l, fl, sl);
    MakeRowsSplits(l, f, fe, fl, se, sl);
    AggregatesCombine(MakeRows(l, fe, se), MakeRows(l, fl, sl));
  }

  lemma MakeRowsSplits(l: Ledger, f: Filters, fe: Filters, fl: Filters, early: seq<int>, late: seq<int>)
    requires forall t | t in early || t in late :: t in l.timesheets
    requires f.projectId == fe.projectId == fl.projectId
    ensures MakeRows(l, f, late + early) == MakeRows(l, fl, late) + MakeRows(l, fe, early)
  {
    forall t | t in l.timesheets ensures RowFor(l, fe, t) == RowFor(l, f, t) && RowFor(l, fl, t) == RowFor(l, f, t) {
      SameRow(l, f, fe, t);
      SameRow(l, f, fl, t);
    }
    hide RowFor;
  }

  lemma SameRow(l: Ledger, f: Filters, f': Filters, t: int)
    requires t in l.timesheets && f.projectId == f'.projectId
    ensures RowFor(l, f, t) == RowFor(l, f', t)
  {
    FilterSame(SheetRows(l.entries, t), OnFilterProject(f), OnFilterProject(f'));
  }

  /** The listing never goes back to a later week. */
  lemma LaterFirst(s: State, listing: seq<int>, f: Filters, c: Caller, cut: int, i: int, j: int)
    requires IsListing(listing, s.ledger) && 0 <= i <= j < |listing|
    ensures !(Matches(s, c, f.(dateTo := cut))(listing[i]) && Matches(s, c, f.(dateFrom := cut + 1))(listing[j]))
  {
    hide InScope, DirectReports;
    var sheets := s.ledger.timesheets;
    assert listing[i] in listing && listing[j] in listing;
    assert sheets[listing[i]].weekStart >= sheets[listing[j]].weekStart;
  }

  lemma SelectedSplits(s: State, listing: seq<int>, f: Filters, c: Caller, cut: int)
    requires IsListing(listing, s.ledger) && f.dateFrom <= cut <= f.dateTo
    ensures Selected(s, listing, f, c)
         == Selected(s, listing, f.(dateFrom := cut + 1), c) + Selected(s, listing, f.(dateTo := cut), c)
  {
    var whole, late, early :=
        Matches(s, c, f), Matches(s, c, f.(dateFrom := cut + 1)), Matches(s, c, f.(dateTo := cut));
    forall t ensures whole(t) == (late(t) || early(t)) {
      hide DirectReports;
    }
    forall i, j | 0 <= i <= j < |listing| ensures !(early(listing[i]) && late(listing[j])) {
      LaterFirst(s, listing, f, c, cut, i, j);
    }
    SplitListing(listing, whole, late, early);
  }

  // ---- The project filter ----

  function ListedHours(): ReportRow -> real {
    (r: ReportRow) => HoursOf(r.entries)
  }

  /** The project filter hides entries but leaves the totals as they are. */
  lemma ProjectFilterKeepsTotals(s: State, listing: seq<int>, f: Filters, c: Caller)
    requires GenerateReport(s, listing, f, c).Report?
    ensures var r, all := GenerateReport(s, listing, f, c), GenerateReport(s, listing, f.(projectId := None), c);
            all.Report? && all.aggregates == r.aggregates
  {
    var ids := Selected(s, listing, f, c);
    var g := f.(projectId := None);
    SelectedAnyProject(s, listing, f, c);
    SameSheets(s.ledger, f, g, ids);
    hide Selected, MakeRows;
  }

  lemma SelectedAnyProject(s: State, listing: seq<int>, f: Filters, c: Caller)
    ensures Selected(s, listing, f.(projectId := None), c) == Selected(s, listing, f, c)
  {
    hide DirectReports;
    var g := f.(projectId := None);
    forall t ensures Matches(s, c, f)(t) == Matches(s, c, g)(t) {
    }
    FilterSame(listing, Matches(s, c, f), Matches(s, c, g));
  }

  lemma {:induction false} SameSheets(l: Ledger, f: Filters, g: Filters, ids: seq<int>)
    requires forall t | t in ids :: t in l.timesheets
    ensures Sum(MakeRows(l, f, ids), SheetTotal()) == Sum(MakeRows(l, g, ids), SheetTotal())
    ensures Sum(MakeRows(l, f, ids), SheetBillable()) == Sum(MakeRows(l, g, ids), SheetBillable())
    decreases |ids|
  {
    if ids != [] {
      var n := |ids| - 1;
      SameSheets(l, f, g, ids[..n]);
      assert MakeRows(l, f, ids)[..n] == MakeRows(l, f, ids[..n]);
      assert MakeRows(l, g, ids)[..n] == MakeRows(l, g, ids[..n]);
    }
  }

  function OffProjectIn(ids: seq<int>, f: Filters): Entry -> bool {
    (e: Entry) => e.sheet in ids && !OnFilterProject(f)(e)
  }

  function OnProjectIn(ids: seq<int>, f: Filters): Entry -> bool {
    (e: Entry) => e.sheet in ids && OnFilterProject(f)(e)
  }

  function OnProjectInSheet(t: int, f: Filters): Entry -> bool {
    (e: Entry) => e.sheet == t && OnFilterProject(f)(e)
  }

  lemma {:induction false} ListedHoursOfSheets(l: Ledger, f: Filters, ids: seq<int>)
    requires Distinct(ids) && forall t | t in ids :: t in l.timesheets
    ensures Sum(MakeRows(l, f, ids), ListedHours()) == Sum(Filter(l.entries, OnProjectIn(ids, f)), Total())
    decreases |ids|
  {
    hide OnFilterProject;
    if ids == [] {
      FilterNone(l.entries, OnProjectIn(ids, f));
    } else {
      var n := |ids| - 1;
      var front, t := ids[..n], ids[n];
      ListedHoursOfSheets(l, f, front);
      assert ids == front + [t] && t !in front;
      SumSplit(l.entries, OnProjectIn(ids, f), OnProjectIn(front, f), OnProjectInSheet(t, f), Total());
      FilterTwice(l.entries, InSheet(t), OnProjectInSheet(t, f));
      FilterMembers(l.entries, InSheet(t));
      FilterSame(SheetRows(l.entries, t), OnFilterProject(f), OnProjectInSheet(t, f));
      NextRow(l, f, front, t);
      SumSnoc(MakeRows(l, f, front), RowFor(l, f, t), ListedHours());
    }
  }

  lemma {:induction false} ZeroSumExactly(rows: seq<Entry>)
    requires forall e | e in rows :: e.totalHours >= 0.0
    ensures Sum(rows, Total()) >= 0.0
    ensures Sum(rows, Total()) == 0.0 <==> forall e | e in rows :: e.totalHours == 0.0
  {
    if rows != [] {
      var n := |rows| - 1;
      ZeroSumExactly(rows[..n]);
      assert rows == rows[..n] + [rows[n]];
    }
  }

  lemma HoursNotNegative(l: Ledger, keep: Entry -> bool)
    requires AddsUp(l)
    ensures forall e | e in Filter(l.entries, keep) :: e.totalHours >= 0.0
  {
    FilterMembers(l.entries, keep);
    forall e | e in Filter(l.entries, keep) ensures e.totalHours >= 0.0 {
      assert EntryOk(l, e);
      ColumnSumBounds(e.hours);
    }
  }

  /**
   A report's total is the hours of the entries it lists exactly when no listed timesheet has an
   entry with hours off the filter's project.
   */
  lemma ListedHoursExactly(s: State, listing: seq<int>, f: Filters, c: Caller)
    requires AddsUp(s.ledger) && IsListing(listing, s.ledger) && GenerateReport(s, listing, f, c).Report?
    ensures var r := GenerateReport(s, listing, f, c);
            r.aggregates.totalHours == Sum(r.rows, ListedHours())
            <==> forall e | e in s.ledger.entries && e.sheet in RowIds(r.rows) && !Shown(f, e.sheet)(e) ::
                   e.totalHours == 0.0
  {
    var l, ids := s.ledger, Selected(s, listing, f, c);
    var hidden := Filter(l.entries, OffProjectIn(ids, f));
    ReportTotals(s, listing, f, c);
    IdsOfRows(l, f, ids);
    assert forall e :: OnFilterProject(f)(e) <==> Shown(f, e.sheet)(e);
    SelectedDistinct(s, listing, f, c);
    HoursNotNegative(l, OffProjectIn(ids, f));
    FilterMembers(l.entries, OffProjectIn(ids, f));
    hide AddsUp, Selected, IsListing, OnFilterProject, Shown, Filter;
    ListedHoursOfSheets(l, f, ids);
    SumSplit(l.entries, InSheets(ids), OnProjectIn(ids, f), OffProjectIn(ids, f), Total());
    hide Sum;
    ZeroSumExactly(hidden);
    assert forall e :: e in hidden <==> e in l.entries && e.sheet in ids && !OnFilterProject(f)(e);
  }
}
