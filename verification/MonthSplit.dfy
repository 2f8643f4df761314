/**
 Splitting weeks over months loses and duplicates nothing: the hours the monthly reports see on the
 days of consecutive months are the stored totals of the timesheets whose weeks lie in those months.
 */
module MonthSplit {
  import opened Calendar
  import opened Rows
  import opened Schema
  import opened LedgerLaws
  import opened MonthKeys
  import opened Monthly

  // ---- Sums over days, and over months of days ----

  function SumDays(f: int -> real, lo: int, hi: int): real
    decreases hi - lo
  {
    if lo >= hi then 0.0 else SumDays(f, lo, hi - 1) + f(hi - 1)
  }

  lemma {:induction false} SumDaysSplit(f: int -> real, lo: int, mid: int, hi: int)
    requires lo <= mid <= hi
    ensures SumDays(f, lo, hi) == SumDays(f, lo, mid) + SumDays(f, mid, hi)
    decreases hi - mid
  {
    if mid < hi {
      SumDaysSplit(f, lo, mid, hi - 1);
    }
  }

  lemma {:induction false} SumDaysZero(f: int -> real, lo: int, hi: int)
    requires forall n | lo <= n < hi :: f(n) == 0.0
    ensures SumDays(f, lo, hi) == 0.0
    decreases hi - lo
  {
    if lo < hi {
      SumDaysZero(f, lo, hi - 1);
    }
  }

  lemma {:induction false} SumDaysPlus(f: int -> real, g: int -> real, both: int -> real, lo: int, hi: int)
    requires forall n | lo <= n < hi :: both(n) == f(n) + g(n)
    ensures SumDays(both, lo, hi) == SumDays(f, lo, hi) + SumDays(g, lo, hi)
    decreases hi - lo
  {
    if lo < hi {
      SumDaysPlus(f, g, both, lo, hi - 1);
    }
  }

  lemma {:induction false} SumDaysShift(f: int -> real, g: int -> real, lo: int, hi: int, shift: int)
    requires forall n | lo <= n < hi :: f(n) == g(n + shift)
    ensures SumDays(f, lo, hi) == SumDays(g, lo + shift, hi + shift)
    decreases hi - lo
  {
    if lo < hi {
      SumDaysShift(f, g, lo, hi - 1, shift);
      assert hi + shift - 1 == hi - 1 + shift;
    }
  }

  /** Length of the `ix`-th month from January of year 0. */
  function DaysIn(ix: int): int {
    MonthLength(ix / 12, ix % 12)
  }

  function OnDay(f: int -> real, ix: int): int -> real {
    (d: int) => f(MonthStart(ix) + d - 1)
  }

  /** The sum over the days 1, 2, ... of a month. */
  function SumMonth(f: int -> real, ix: int): real {
    SumDays(OnDay(f, ix), 1, DaysIn(ix) + 1)
  }

  function SumMonths(f: int -> real, a: int, b: int): real
    decreases b - a
  {
    if a >= b then 0.0 else SumMonths(f, a, b - 1) + SumMonth(f, b - 1)
  }

  /** A month's days are the days from its first up to the first of the next month. */
  lemma MonthIsARange(f: int -> real, ix: int)
    ensures SumMonth(f, ix) == SumDays(f, MonthStart(ix), MonthStart(ix + 1))
  {
    hide MonthStart, SumDays, MonthLength;
    MonthsTile(ix);
    forall d ensures OnDay(f, ix)(d) == f(d + (MonthStart(ix) - 1)) {
      assert MonthStart(ix) + d - 1 == d + (MonthStart(ix) - 1);
    }
    SumDaysShift(OnDay(f, ix), f, 1, DaysIn(ix) + 1, MonthStart(ix) - 1);
  }

  /** Months, whatever their lengths, count every day once. */
  lemma {:induction false} MonthsAreARange(f: int -> real, a: int, b: int)
    requires a <= b
    ensures SumMonths(f, a, b) == SumDays(f, MonthStart(a), MonthStart(b))
    ensures MonthStart(a) <= MonthStart(b)
    decreases b - a
  {
    hide MonthStart, SumMonth;
    if a < b {
      MonthsAreARange(f, a, b - 1);
      MonthIsARange(f, b - 1);
      MonthsGrow(b - 1, b);
      SumDaysSplit(f, MonthStart(a), MonthStart(b - 1), MonthStart(b));
    }
  }

  // ---- One timesheet ----

  function SheetHoursOn(s: MonthSheet): int -> real {
    (n: int) => Sum(SheetHits(s, n), HitHours())
  }

  function EntryHours(): MonthEntry -> real {
    (e: MonthEntry) => ColumnSum(e.hours)
  }

  /** The first `k` columns of an entry. */
  function Columns(k: int): MonthEntry -> real {
    (e: MonthEntry) => if 0 <= k <= 7 then ColumnSum(e.hours[..k]) else 0.0
  }

  function Column(k: int): MonthEntry -> real {
    (e: MonthEntry) => if 0 <= k < 7 then e.hours[k] else 0.0
  }

  predicate NoNegativeHours(s: MonthSheet) {
    forall e, k | e in s.entries && 0 <= k < 7 :: e.hours[k] >= 0.0
  }

  /** Hits of one column, summed, are that column of the entries, summed. */
  lemma {:induction false} ColumnOfHits(entries: seq<MonthEntry>, hits: seq<Hit>, k: int)
    requires 0 <= k < 7 && |hits| == |entries|
    requires forall i | 0 <= i < |hits| :: hits[i] == Hit(entries[i], k) && entries[i].hours[k] >= 0.0
    ensures Sum(hits, HitHours()) == Sum(entries, Column(k))
    decreases |hits|
  {
    if hits != [] {
      var n := |hits| - 1;
      ColumnOfHits(entries[..n], hits[..n], k);
      assert HitHours()(hits[n]) == entries[n].hours[k];
    }
  }

  lemma SheetHoursLaw(s: MonthSheet, n: int)
    requires NoNegativeHours(s)
    ensures var k := n - Anchor(s.weekStart);
            SheetHoursOn(s)(n) == if 0 <= k < 7 then Sum(s.entries, Column(k)) else 0.0
  {
    KeyFromAnchor(n, s.weekStart);
    SheetHitsLaw(s, n);
    var k := n - Anchor(s.weekStart);
    hide DayKey, Anchor, SheetHits, Column, HitHours;
    if 0 <= k < 7 {
      ColumnOfHits(s.entries, SheetHits(s, n), k);
    }
  }

  lemma {:induction false} ColumnsAddUp(s: MonthSheet, k: int)
    requires NoNegativeHours(s) && 0 <= k <= 7
    ensures var w := Anchor(s.weekStart); SumDays(SheetHoursOn(s), w, w + k) == Sum(s.entries, Columns(k))
    decreases k
  {
    var w := Anchor(s.weekStart);
    hide Anchor, NoNegativeHours, SheetHoursOn;
    if k == 0 {
      SumZero(s.entries, Columns(0));
    } else {
      ColumnsAddUp(s, k - 1);
      SheetHoursLaw(s, w + (k - 1));
      assert w + k - 1 == w + (k - 1);
      forall e: MonthEntry ensures Columns(k)(e) == Columns(k - 1)(e) + Column(k - 1)(e) {
        assert e.hours[..k][..k - 1] == e.hours[..k - 1];
      }
      SumPlus(s.entries, Columns(k - 1), Column(k - 1), Columns(k));
    }
  }

  /** Over days that include its whole week, a timesheet adds the sum of its entries' columns. */
  lemma SheetOverDays(s: MonthSheet, lo: int, hi: int)
    requires NoNegativeHours(s) && lo <= Anchor(s.weekStart) && Anchor(s.weekStart) + 7 <= hi
    ensures SumDays(SheetHoursOn(s), lo, hi) == Sum(s.entries, EntryHours())
  {
    var w := Anchor(s.weekStart);
    forall e: MonthEntry ensures Columns(7)(e) == EntryHours()(e) {
      assert e.hours[..7] == e.hours;
    }
    hide Anchor, SheetHoursOn, EntryHours, Columns, NoNegativeHours;
    forall n | lo <= n < w || w + 7 <= n < hi ensures SheetHoursOn(s)(n) == 0.0 {
      SheetHoursLaw(s, n);
    }
    SumDaysZero(SheetHoursOn(s), lo, w);
    SumDaysZero(SheetHoursOn(s), w + 7, hi);
    ColumnsAddUp(s, 7);
    SumSame(s.entries, Columns(7), EntryHours());
    SumDaysSplit(SheetHoursOn(s), lo, w, w + 7);
    SumDaysSplit(SheetHoursOn(s), lo, w + 7, hi);
  }

  // ---- All timesheets of the report ----

  function AllHoursOn(sheets: seq<MonthSheet>): int -> real {
    (n: int) => HoursOn(sheets, n)
  }

  function SheetHours(): MonthSheet -> real {
    (s: MonthSheet) => Sum(s.entries, EntryHours())
  }

  predicate LiesIn(s: MonthSheet, lo: int, hi: int) {
    lo <= Anchor(s.weekStart) && Anchor(s.weekStart) + 7 <= hi && NoNegativeHours(s)
  }

  lemma {:induction false} SheetsOverDays(sheets: seq<MonthSheet>, lo: int, hi: int)
    requires forall s | s in sheets :: LiesIn(s, lo, hi)
    ensures SumDays(AllHoursOn(sheets), lo, hi) == Sum(sheets, SheetHours())
  {
    if sheets == [] {
      SumDaysZero(AllHoursOn(sheets), lo, hi);
    } else {
      var k := |sheets| - 1;
      assert LiesIn(sheets[k], lo, hi);
      SheetOverDays(sheets[k], lo, hi);
      SheetsOverDays(sheets[..k], lo, hi);
      forall n ensures AllHoursOn(sheets)(n) == AllHoursOn(sheets[..k])(n) + SheetHoursOn(sheets[k])(n) {
        hide SheetHits, HitHours;
        SumConcat(Hits(sheets[..k], n), SheetHits(sheets[k], n), HitHours());
      }
      hide AllHoursOn, SheetHoursOn;
      SumDaysPlus(AllHoursOn(sheets[..k]), SheetHoursOn(sheets[k]), AllHoursOn(sheets), lo, hi);
    }
  }

  // ---- The timesheets as the report reads them from the ledger ----

  function ReadEntry(l: Ledger, e: Entry): MonthEntry {
    if e.project in l.projects
    then MonthEntry(e.hours, e.timeOff, e.notes, l.projects[e.project].name, l.projects[e.project].code)
    else MonthEntry(e.hours, e.timeOff, e.notes, "", "")
  }

  function ReadSheet(l: Ledger, t: int): MonthSheet
    requires t in l.timesheets
  {
    var rows := SheetRows(l.entries, t);
    MonthSheet(Midnight(l.timesheets[t].weekStart), seq(|rows|, i requires 0 <= i < |rows| => ReadEntry(l, rows[i])))
  }

  function ReadSheets(l: Ledger, ids: seq<int>): seq<MonthSheet>
    requires forall t | t in ids :: t in l.timesheets
  {
    seq(|ids|, i requires 0 <= i < |ids| => ReadSheet(l, ids[i]))
  }

  function StoredHours(l: Ledger): int -> real {
    (t: int) => if t in l.timesheets then l.timesheets[t].totalHours else 0.0
  }

  lemma {:induction false} ReadHours(l: Ledger, rows: seq<Entry>, read: seq<MonthEntry>)
    requires |read| == |rows| && forall i | 0 <= i < |rows| :: read[i] == ReadEntry(l, rows[i])
    requires forall e | e in rows :: e.totalHours == ColumnSum(e.hours)
    ensures Sum(read, EntryHours()) == HoursOf(rows)
    decreases |rows|
  {
    if rows != [] {
      var n := |rows| - 1;
      ReadHours(l, rows[..n], read[..n]);
      hide ColumnSum;
      assert EntryHours()(read[n]) == Total()(rows[n]);
    }
  }

  /** What the report sums for a timesheet is the total the ledger stores for it. */
  lemma ReadIsStored(l: Ledger, t: int)
    requires AddsUp(l) && t in l.timesheets
    ensures NoNegativeHours(ReadSheet(l, t)) && SheetHours()(ReadSheet(l, t)) == l.timesheets[t].totalHours
    ensures Anchor(ReadSheet(l, t).weekStart) == l.timesheets[t].weekStart
  {
    var rows := SheetRows(l.entries, t);
    FilterMembers(l.entries, InSheet(t));
    assert SheetsOk(l);
    assert TotalsOk(l.timesheets[t], rows);
    hide SheetRows, ColumnSum, Anchor, Midnight;
    assert forall e | e in rows :: EntryOk(l, e);
    var read := ReadSheet(l, t).entries;
    forall m, k | m in read && 0 <= k < 7 ensures m.hours[k] >= 0.0 {
      var i :| 0 <= i < |read| && read[i] == m;
      assert rows[i] in rows && EntryOk(l, rows[i]);
    }
    ReadHours(l, rows, ReadSheet(l, t).entries);
    MidnightAnchor(l.timesheets[t].weekStart);
  }

  lemma {:induction false} ReadTotals(l: Ledger, ids: seq<int>)
    requires AddsUp(l) && forall t | t in ids :: t in l.timesheets
    ensures Sum(ReadSheets(l, ids), SheetHours()) == Sum(ids, StoredHours(l))
  {
    hide AddsUp, ReadSheet;
    if ids != [] {
      var n := |ids| - 1;
      ReadTotals(l, ids[..n]);
      assert ReadSheets(l, ids)[..n] == ReadSheets(l, ids[..n]);
      ReadIsStored(l, ids[n]);
    }
  }

  /**
   In every state of the ledger, for any timesheets and any run of months that holds their weeks:
   the hours seen on the days of the months are the stored totals. Weeks that straddle a month or a
   year end are split, never lost or counted twice.
   */
  lemma WeeksSplitOverMonths(l: Ledger, ids: seq<int>, a: int, b: int)
    requires AddsUp(l) && a <= b
    requires forall t | t in ids ::
               t in l.timesheets && MonthStart(a) <= l.timesheets[t].weekStart
                   && l.timesheets[t].weekStart + 7 <= MonthStart(b)
    ensures SumMonths(AllHoursOn(ReadSheets(l, ids)), a, b) == Sum(ids, StoredHours(l))
  {
    hide AddsUp, ReadSheet, MonthStart, NoNegativeHours, AllHoursOn, SumMonths, SumDays, Anchor, Sum, StoredHours,
         SheetHours;
    var sheets := ReadSheets(l, ids);
    forall s | s in sheets ensures LiesIn(s, MonthStart(a), MonthStart(b)) {
      var i :| 0 <= i < |sheets| && sheets[i] == s;
      assert ids[i] in ids;
      ReadIsStored(l, ids[i]);
    }
    MonthsAreARange(AllHoursOn(sheets), a, b);
    SheetsOverDays(sheets, MonthStart(a), MonthStart(b));
    ReadTotals(l, ids);
  }

  // ---- The reports of those months ----

  /** What the report is asked for: any year and month number, as GenerateMonthly takes them. */
  datatype MonthRequest = MonthRequest(year: int, month: int)

  function Month(q: MonthRequest): int {
    MonthIx(q.year, q.month)
  }

  /** A month's report, as GenerateMonthly guarantees it. */
  ghost predicate IsReport(r: MonthReport, q: MonthRequest, sheets: seq<MonthSheet>, holidays: seq<Holiday>) {
    && |r.days| == DaysInMonth(q.year, q.month)
    && (forall d | 1 <= d <= |r.days| :: r.days[d - 1] == RowOf(q.year, q.month, d, sheets, holidays))
    && CountersOf(r)
  }

  /** The day's hours if its row counts towards the totals (or if it does not). */
  function Share(sheets: seq<MonthSheet>, holidays: seq<Holiday>, q: MonthRequest, counted: bool): int -> real {
    (d: int) => if Counts(RowOf(q.year, q.month, d, sheets, holidays)) == counted
                then HoursOn(sheets, MonthDay(q.year, q.month, d)) else 0.0
  }

  /** Hours on weekends, holidays and leave days: they appear in no total. */
  function OffHours(sheets: seq<MonthSheet>, holidays: seq<Holiday>, q: MonthRequest): real {
    SumDays(Share(sheets, holidays, q, false), 1, DaysInMonth(q.year, q.month) + 1)
  }

  lemma {:induction false} RowsAreDays(rows: seq<DayRow>, column: DayRow -> real, f: int -> real)
    requires forall d | 1 <= d <= |rows| :: column(rows[d - 1]) == f(d)
    ensures Sum(rows, column) == SumDays(f, 1, |rows| + 1)
  {
    if rows != [] {
      var n := |rows| - 1;
      forall d | 1 <= d <= n ensures column(rows[..n][d - 1]) == f(d) {
        assert rows[..n][d - 1] == rows[d - 1];
      }
      RowsAreDays(rows[..n], column, f);
      assert column(rows[n + 1 - 1]) == f(n + 1);
    }
  }

  /** A month's totals and its hours off the totals are all the hours seen on its days. */
  lemma ReportSplitsItsMonth(r: MonthReport, q: MonthRequest, sheets: seq<MonthSheet>, holidays: seq<Holiday>)
    requires IsReport(r, q, sheets, holidays)
    ensures r.totalHours + r.totalOvertime + OffHours(sheets, holidays, q) == SumMonth(AllHoursOn(sheets), Month(q))
  {
    hide RowOf, HoursOn, MonthDay, MonthStart, DaysInMonth, MonthLength, MonthIx, Sum, SumDays, Counts;
    TotalsAreCountedHours(q.year, q.month, sheets, holidays, r.days);
    DaysInMonthLaw(q.year, q.month);
    var counted, off := Share(sheets, holidays, q, true), Share(sheets, holidays, q, false);
    var whole := OnDay(AllHoursOn(sheets), Month(q));
    forall d | 1 <= d <= |r.days| ensures CountedTotal()(r.days[d - 1]) == counted(d) {
      assert r.days[d - 1] == RowOf(q.year, q.month, d, sheets, holidays);
    }
    forall d ensures whole(d) == counted(d) + off(d) {
      MonthDays(q.year, q.month, d);
    }
    RowsAreDays(r.days, CountedTotal(), counted);
    SumDaysPlus(counted, off, whole, 1, |r.days| + 1);
  }

  function Reported(reports: seq<MonthReport>): real {
    if reports == [] then 0.0
    else
      var r := reports[|reports| - 1];
      Reported(reports[..|reports| - 1]) + r.totalHours + r.totalOvertime
  }

  function AllOffHours(sheets: seq<MonthSheet>, holidays: seq<Holiday>, requests: seq<MonthRequest>): real {
    if requests == [] then 0.0
    else
      var n := |requests| - 1;
      AllOffHours(sheets, holidays, requests[..n]) + OffHours(sheets, holidays, requests[n])
  }

  /** The requests name the months from the `a`-th on, one after the other. */
  predicate Consecutive(requests: seq<MonthRequest>, a: int) {
    forall i | 0 <= i < |requests| :: Month(requests[i]) == a + i
  }

  ghost predicate AreReports(
    reports: seq<MonthReport>, requests: seq<MonthRequest>, sheets: seq<MonthSheet>, holidays: seq<Holiday>)
  {
    |reports| == |requests| && forall i | 0 <= i < |reports| :: IsReport(reports[i], requests[i], sheets, holidays)
  }

  lemma {:induction false} ReportsSplitMonths(
    reports: seq<MonthReport>, requests: seq<MonthRequest>, a: int, sheets: seq<MonthSheet>, holidays: seq<Holiday>)
    requires AreReports(reports, requests, sheets, holidays) && Consecutive(requests, a)
    ensures Reported(reports) + AllOffHours(sheets, holidays, requests)
         == SumMonths(AllHoursOn(sheets), a, a + |reports|)
  {
    hide IsReport, OffHours, SumMonth, AllHoursOn, Month;
    if reports != [] {
      var n := |reports| - 1;
      ReportsSplitMonths(reports[..n], requests[..n], a, sheets, holidays);
      ReportSplitsItsMonth(reports[n], requests[n], sheets, holidays);
      assert a + |reports| - 1 == a + n;
    }
  }

  lemma SameCount(reports: seq<MonthReport>, requests: seq<MonthRequest>, sheets: seq<MonthSheet>,
      holidays: seq<Holiday>)
    requires AreReports(reports, requests, sheets, holidays)
    ensures |reports| == |requests|
  {
  }

  /**
   Conservation: over a run of months that holds their weeks, the totals and overtime the monthly
   reports show, with the hours they leave out for weekends, holidays and leave, are exactly the
   hours the ledger stores for the timesheets.
   */
  lemma ReportsConserveHours(
    l: Ledger, ids: seq<int>, holidays: seq<Holiday>, a: int, requests: seq<MonthRequest>, reports: seq<MonthReport>)
    requires AddsUp(l) && Consecutive(requests, a)
    requires forall t | t in ids ::
               && t in l.timesheets && MonthStart(a) <= l.timesheets[t].weekStart
               && l.timesheets[t].weekStart + 7 <= MonthStart(a + |requests|)
    requires AreReports(reports, requests, ReadSheets(l, ids), holidays)
    ensures Reported(reports) + AllOffHours(ReadSheets(l, ids), holidays, requests) == Sum(ids, StoredHours(l))
  {
    hide *;
    SameCount(reports, requests, ReadSheets(l, ids), holidays);
    ReportsSplitMonths(reports, requests, a, ReadSheets(l, ids), holidays);
    WeeksSplitOverMonths(l, ids, a, a + |reports|);
  }
}
