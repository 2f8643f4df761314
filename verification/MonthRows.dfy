/**
 A row of the monthly timesheet, and what it adds to the totals, said in terms of the timesheets'
 columns and the list of holidays alone.
 */
module MonthRows {
  import opened Common
  import opened Calendar
  import opened Rows
  import opened Schema
  import opened MonthKeys
  import opened Monthly
  import LedgerLaws
  import MonthSplit

  /** Midnight of day `n` is within half a day of the start of column `k` of a week stored with this start. */
  predicate Covers(weekStart: int, k: int, n: int) {
    0 <= k < 7 && -43200000 <= 86400000 * n - (weekStart + 86400000 * k) < 43200000
  }

  lemma CoversExactly(weekStart: int, k: int, n: int)
    ensures Covers(weekStart, k, n) <==> DayKey(Midnight(n), weekStart) == Some(k)
  {
    DayKeyExactly(Midnight(n), weekStart, k);
    hide DayKey;
  }

  // ---- What falls on a day ----

  lemma {:induction false} HitsExactly(sheets: seq<MonthSheet>, n: int, h: Hit)
    ensures h in Hits(sheets, n) <==>
              exists s | s in sheets :: h.entry in s.entries && Covers(s.weekStart, h.column, n)
  {
    if sheets != [] {
      var k := |sheets| - 1;
      assert sheets == sheets[..k] + [sheets[k]];
      HitsExactly(sheets[..k], n, h);
      SheetHitsExactly(sheets[k], n, h);
      hide Covers, SheetHits;
    }
  }

  lemma SheetHitsExactly(s: MonthSheet, n: int, h: Hit)
    ensures h in SheetHits(s, n) <==> h.entry in s.entries && Covers(s.weekStart, h.column, n)
  {
    CoversExactly(s.weekStart, h.column, n);
    SheetHitsLaw(s, n);
    hide Covers, SheetHits, DayKey;
    if h.entry in s.entries && Covers(s.weekStart, h.column, n) {
      var i :| 0 <= i < |s.entries| && s.entries[i] == h.entry;
      assert SheetHits(s, n)[i] == h;
    }
  }

  /** They are met in the order of the timesheets; those of one are met in the order of its entries. */
  lemma {:induction false} HitsInOrder(sheets: seq<MonthSheet>, n: int, i: nat)
    requires i <= |sheets|
    ensures Hits(sheets[..i], n) <= Hits(sheets, n)
    ensures i < |sheets| ==> Hits(sheets[..i + 1], n) == Hits(sheets[..i], n) + SheetHits(sheets[i], n)
    decreases |sheets|
  {
    hide SheetHits;
    var k := |sheets| - 1;
    if i < k {
      HitsInOrder(sheets[..k], n, i);
      assert sheets[..k][..i] == sheets[..i] && sheets[..k][..i + 1] == sheets[..i + 1];
    } else if i == k {
      assert sheets[..k + 1] == sheets;
    } else {
      assert sheets[..i] == sheets;
    }
  }

  // ---- Hours and time off of a day ----

  /** What of these columns, in a week stored with this start, falls on day `n`. */
  function OnDay(columns: seq<real>, weekStart: int, n: int): real {
    if columns == [] then 0.0
    else
      var k := |columns| - 1;
      OnDay(columns[..k], weekStart, n) + if Covers(weekStart, k, n) && columns[k] > 0.0 then columns[k] else 0.0
  }

  lemma {:induction false} OnDayIsOneColumn(w: Week, weekStart: int, n: int, j: nat)
    requires j <= 7
    ensures var key := DayKey(Midnight(n), weekStart);
            OnDay(w[..j], weekStart, n) == if key.Some? && key.value < j then Positive(w[key.value]) else 0.0
  {
    if j > 0 {
      OnDayIsOneColumn(w, weekStart, n, j - 1);
      CoversExactly(weekStart, j - 1, n);
      hide Covers, DayKey;
      assert w[..j][..j - 1] == w[..j - 1];
    }
  }

  function EntryHours(weekStart: int, n: int): MonthEntry -> real {
    (e: MonthEntry) => OnDay(e.hours, weekStart, n)
  }

  function EntryTimeOff(weekStart: int, n: int): MonthEntry -> real {
    (e: MonthEntry) => OnDay(e.timeOff, weekStart, n)
  }

  function SheetHours(n: int): MonthSheet -> real {
    (s: MonthSheet) => Sum(s.entries, EntryHours(s.weekStart, n))
  }

  function SheetTimeOff(n: int): MonthSheet -> real {
    (s: MonthSheet) => Sum(s.entries, EntryTimeOff(s.weekStart, n))
  }

  /** Summing over hits is summing over entries, if each hit counts what its entry does. */
  lemma {:induction false} SumOfHits(entries: seq<MonthEntry>, k: int, hits: seq<Hit>, of: Hit -> real,
      column: MonthEntry -> real)
    requires |hits| == |entries| && forall i | 0 <= i < |entries| :: hits[i] == Hit(entries[i], k)
    requires forall e | e in entries :: of(Hit(e, k)) == column(e)
    ensures Sum(hits, of) == Sum(entries, column)
    decreases |entries|
  {
    if entries != [] {
      var n := |entries| - 1;
      SumOfHits(entries[..n], k, hits[..n], of, column);
    }
  }

  lemma SheetSums(s: MonthSheet, n: int)
    ensures Sum(SheetHits(s, n), HitHours()) == SheetHours(n)(s)
    ensures Sum(SheetHits(s, n), HitTimeOff()) == SheetTimeOff(n)(s)
  {
    var key, hits := DayKey(Midnight(n), s.weekStart), SheetHits(s, n);
    SheetHitsLaw(s, n);
    forall e | e in s.entries
      ensures OnDay(e.hours, s.weekStart, n) == if key.Some? then Positive(e.hours[key.value]) else 0.0
      ensures OnDay(e.timeOff, s.weekStart, n) == if key.Some? then Positive(e.timeOff[key.value]) else 0.0
    {
      assert e.hours[..7] == e.hours && e.timeOff[..7] == e.timeOff;
      OnDayIsOneColumn(e.hours, s.weekStart, n, 7);
      OnDayIsOneColumn(e.timeOff, s.weekStart, n, 7);
    }
    hide SheetHits, DayKey, OnDay, Positive;
    if key.Some? {
      SumOfHits(s.entries, key.value, hits, HitHours(), EntryHours(s.weekStart, n));
      SumOfHits(s.entries, key.value, hits, HitTimeOff(), EntryTimeOff(s.weekStart, n));
    } else {
      SumZero(s.entries, EntryHours(s.weekStart, n));
      SumZero(s.entries, EntryTimeOff(s.weekStart, n));
    }
  }

  /** The hours and the time off of a day are the sums over all entries of all timesheets. */
  lemma {:induction false} DaySums(sheets: seq<MonthSheet>, n: int)
    ensures Sum(Hits(sheets, n), HitHours()) == Sum(sheets, SheetHours(n))
    ensures Sum(Hits(sheets, n), HitTimeOff()) == Sum(sheets, SheetTimeOff(n))
  {
    if sheets != [] {
      var k := |sheets| - 1;
      DaySums(sheets[..k], n);
      SheetSums(sheets[k], n);
      hide SheetHits, HitHours, HitTimeOff, SheetHours, SheetTimeOff;
      SumConcat(Hits(sheets[..k], n), SheetHits(sheets[k], n), HitHours());
      SumConcat(Hits(sheets[..k], n), SheetHits(sheets[k], n), HitTimeOff());
    }
  }

  // ---- Leave ----

  /** The letters l, e, a, v, e in capitals or not, from position `i` on. */
  predicate LeaveFrom(t: string, i: int) {
    && 0 <= i <= |t| - 5
    && t[i] in {'l', 'L'} && t[i + 1] in {'e', 'E'} && t[i + 2] in {'a', 'A'} && t[i + 3] in {'v', 'V'}
    && t[i + 4] in {'e', 'E'}
  }

  predicate NamesLeave(t: string) {
    exists i | 0 <= i < |t| :: LeaveFrom(t, i)
  }

  lemma NamesLeaveExactly(t: string)
    ensures Contains(Lower(t), "leave") <==> NamesLeave(t)
  {
    var w := Lower(t);
    forall i | 0 <= i <= |t| ensures IsAt(w, "leave", i) <==> LeaveFrom(t, i) {
      if i <= |t| - 5 {
        assert w[i..i + 5] == [w[i], w[i + 1], w[i + 2], w[i + 3], w[i + 4]];
        assert w[i..i + 5] == "leave" <==>
          w[i] == 'l' && w[i + 1] == 'e' && w[i + 2] == 'a' && w[i + 3] == 'v' && w[i + 4] == 'e';
      }
    }
    hide Lower, LeaveFrom, IsAt;
    if Contains(w, "leave") {
      var i :| 0 <= i <= |w| && IsAt(w, "leave", i);
      assert LeaveFrom(t, i);
      assert i < |t| by { LeaveFits(t, i); }
    }
  }

  lemma LeaveFits(t: string, i: int)
    requires LeaveFrom(t, i)
    ensures 0 <= i < |t|
  {
  }

  /** Time off in the column, or hours in it on a project whose name or code spells leave. */
  predicate LeaveIn(e: MonthEntry, k: int) {
    && 0 <= k < 7
    && (e.timeOff[k] > 0.0 || (e.hours[k] > 0.0 && (NamesLeave(e.projectName) || NamesLeave(e.projectCode))))
  }

  predicate LeaveOn(e: MonthEntry, weekStart: int, n: int) {
    exists k | 0 <= k < 7 :: Covers(weekStart, k, n) && LeaveIn(e, k)
  }

  predicate SheetLeave(s: MonthSheet, n: int) {
    exists e | e in s.entries :: LeaveOn(e, s.weekStart, n)
  }

  /** Some entry has leave in the column that falls on the day. */
  predicate LeaveDay(sheets: seq<MonthSheet>, n: int) {
    exists s | s in sheets :: SheetLeave(s, n)
  }

  lemma LeaveExactly(sheets: seq<MonthSheet>, n: int)
    ensures (exists h | h in Hits(sheets, n) :: IsLeaveHit(h)) <==> LeaveDay(sheets, n)
  {
    forall h: Hit ensures IsLeaveHit(h) <==> LeaveIn(h.entry, h.column) {
      NamesLeaveExactly(h.entry.projectName);
      NamesLeaveExactly(h.entry.projectCode);
      hide NamesLeave, Contains, Lower;
    }
    hide IsLeaveHit, LeaveIn, Hits;
    if h :| h in Hits(sheets, n) && IsLeaveHit(h) {
      HitsExactly(sheets, n, h);
      var s :| s in sheets && h.entry in s.entries && Covers(s.weekStart, h.column, n);
      assert LeaveIn(h.entry, h.column) && LeaveOn(h.entry, s.weekStart, n);
    }
    if LeaveDay(sheets, n) {
      var s :| s in sheets && SheetLeave(s, n);
      var e :| e in s.entries && LeaveOn(e, s.weekStart, n);
      var k :| 0 <= k < 7 && Covers(s.weekStart, k, n) && LeaveIn(e, k);
      HitsExactly(sheets, n, Hit(e, k));
      assert IsLeaveHit(Hit(e, k));
    }
  }

  /** The same on the stored rows: the project's name and code are those of the project table. */
  predicate LeaveStored(l: Ledger, e: Entry, k: int) {
    && 0 <= k < 7 && e.project in l.projects
    && var project := l.projects[e.project];
       e.timeOff[k] > 0.0 || (e.hours[k] > 0.0 && (NamesLeave(project.name) || NamesLeave(project.code)))
  }

  lemma ReadEntryLeave(l: Ledger, e: Entry, k: int)
    requires e.project in l.projects
    ensures LeaveIn(MonthSplit.ReadEntry(l, e), k) <==> LeaveStored(l, e, k)
  {
    hide NamesLeave;
  }

  lemma CoversStored(weekStart: int, k: int, n: int)
    requires 0 <= k < 7
    ensures Covers(Midnight(weekStart), k, n) <==> n == weekStart + k
  {
  }

  predicate LeaveStoredIn(l: Ledger, t: int, n: int) {
    && t in l.timesheets
    && exists e | e in l.entries :: e.sheet == t && LeaveStored(l, e, n - l.timesheets[t].weekStart)
  }

  lemma EntriesHaveProjects(l: Ledger)
    requires LedgerLaws.AddsUp(l)
    ensures forall e | e in l.entries :: e.project in l.projects
  {
    forall e | e in l.entries ensures e.project in l.projects {
      assert LedgerLaws.EntryOk(l, e);
    }
  }

  lemma SomeRow(read: seq<MonthEntry>, rows: seq<Entry>, l: Ledger, weekStart: int, n: int)
    requires |read| == |rows| && forall i | 0 <= i < |rows| :: read[i] == MonthSplit.ReadEntry(l, rows[i])
    requires forall e | e in rows :: e.project in l.projects
    ensures (exists e | e in read :: LeaveOn(e, Midnight(weekStart), n))
       <==> exists e | e in rows :: LeaveStored(l, e, n - weekStart)
  {
    forall i | 0 <= i < |rows|
      ensures LeaveOn(read[i], Midnight(weekStart), n) <==> LeaveStored(l, rows[i], n - weekStart)
    {
      assert rows[i] in rows;
      StoredLeaveOn(l, rows[i], weekStart, n);
    }
    hide LeaveOn, LeaveStored, Midnight, MonthSplit.ReadEntry;
    if e :| e in read && LeaveOn(e, Midnight(weekStart), n) {
      var i :| 0 <= i < |read| && read[i] == e;
      assert rows[i] in rows;
    }
    if e :| e in rows && LeaveStored(l, e, n - weekStart) {
      var i :| 0 <= i < |rows| && rows[i] == e;
      assert read[i] in read;
    }
  }

  lemma ReadLeave(l: Ledger, t: int, n: int)
    requires LedgerLaws.AddsUp(l) && t in l.timesheets
    ensures SheetLeave(MonthSplit.ReadSheet(l, t), n) <==> LeaveStoredIn(l, t, n)
  {
    var s, rows := MonthSplit.ReadSheet(l, t), SheetRows(l.entries, t);
    EntriesHaveProjects(l);
    FilterMembers(l.entries, InSheet(t));
    hide LedgerLaws.AddsUp, SheetRows, LeaveStored, LeaveOn, Midnight, MonthSplit.ReadEntry;
    SomeRow(s.entries, rows, l, l.timesheets[t].weekStart, n);
  }

  lemma StoredLeaveOn(l: Ledger, e: Entry, weekStart: int, n: int)
    requires e.project in l.projects
    ensures LeaveOn(MonthSplit.ReadEntry(l, e), Midnight(weekStart), n) <==> LeaveStored(l, e, n - weekStart)
  {
    var k := n - weekStart;
    ReadEntryLeave(l, e, k);
    if 0 <= k < 7 {
      CoversStored(weekStart, k, n);
    }
    forall j | 0 <= j < 7 ensures Covers(Midnight(weekStart), j, n) <==> j == k {
      CoversStored(weekStart, j, n);
    }
    hide Covers, MonthSplit.ReadEntry, LeaveIn, NamesLeave;
  }

  /** So a day is leave exactly if an entry of the timesheets read has leave on it in the tables. */
  lemma LeaveOnLedger(l: Ledger, ids: seq<int>, n: int)
    requires LedgerLaws.AddsUp(l) && forall t | t in ids :: t in l.timesheets
    ensures LeaveDay(MonthSplit.ReadSheets(l, ids), n) <==> exists t | t in ids :: LeaveStoredIn(l, t, n)
  {
    var sheets := MonthSplit.ReadSheets(l, ids);
    forall i | 0 <= i < |ids| ensures SheetLeave(sheets[i], n) <==> LeaveStoredIn(l, ids[i], n) {
      ReadLeave(l, ids[i], n);
    }
    hide LedgerLaws.AddsUp, LeaveStoredIn, SheetLeave, MonthSplit.ReadSheet;
    if s :| s in sheets && SheetLeave(s, n) {
      var i :| 0 <= i < |sheets| && sheets[i] == s;
      assert ids[i] in ids;
    }
    if t :| t in ids && LeaveStoredIn(l, t, n) {
      var i :| 0 <= i < |ids| && ids[i] == t;
      assert sheets[i] in sheets;
    }
  }

  // ---- The row ----

  /** The holiday is on day `d` of this month: of this year, or of every year. */
  predicate IsOn(h: Holiday, year: int, month: int, d: int) {
    && CivilFromDay(h.date).month == month - 1 && CivilFromDay(h.date).date == d
    && (h.recurring || CivilFromDay(h.date).year == year)
  }

  predicate HolidayDay(holidays: seq<Holiday>, year: int, month: int, d: int) {
    exists h | h in holidays :: IsOn(h, year, month, d)
  }

  /** The hours of a row: none of them regular on a day off, at most eight on any, and the rest overtime. */
  predicate HoursFit(r: DayRow, hours: real, off: bool) {
    && r.time == (if off then 0.0 else if hours > 8.0 then 8.0 else hours)
    && r.overtime == (if hours > 8.0 then hours - 8.0 else 0.0)
    && r.totalTime == (if off then 0.0 else hours)
  }

  /**
   The row of a day: its hours and time off are the sums over the columns that fall on it; it is leave
   exactly if some entry says so there, a holiday exactly if the list has one, and a weekend exactly if
   its name is Saturday or Sunday.
   */
  lemma RowExactly(year: int, month: int, d: int, sheets: seq<MonthSheet>, holidays: seq<Holiday>)
    ensures var r, n := RowOf(year, month, d, sheets, holidays), MonthDay(year, month, d);
            && (r.isLeave <==> LeaveDay(sheets, n))
            && (r.isHoliday <==> HolidayDay(holidays, year, month, d))
            && r.day == ["Sunday", "Monday", "Tuesday", "Wednesday", "Thursday", "Friday", "Saturday"][WeekDay(n)]
            && (r.isWeekend <==> r.day == "Saturday" || r.day == "Sunday")
            && HoursFit(r, Sum(sheets, SheetHours(n)), r.isHoliday || r.isLeave)
            && r.timeOffHours == Sum(sheets, SheetTimeOff(n))
  {
    var n := MonthDay(year, month, d);
    DaySums(sheets, n);
    LeaveExactly(sheets, n);
    HolidayExactly(holidays, year, month, d);
    hide Hits, HolidayOn, MonthDay, Pad2, JoinText, ProjectNames, TaskNotes, LeaveDay, HolidayDay, Sum, IsLeaveHit;
    hide MonthText;
  }

  lemma HolidayExactly(holidays: seq<Holiday>, year: int, month: int, d: int)
    ensures HolidayOn(holidays, year, month, d).Some? <==> HolidayDay(holidays, year, month, d)
    ensures forall i | 0 <= i < |holidays| ::
              IsOn(holidays[i], year, month, d) && (forall j | i < j < |holidays| :: !IsOn(holidays[j], year, month, d))
              ==> HolidayOn(holidays, year, month, d) == Some(holidays[i].name)
  {
    HolidayOnLaw(holidays, year, month, d);
    hide HolidayOn, CivilFromDay;
    assert forall h :: FallsOn(h, year, month, d) <==> IsOn(h, year, month, d);
  }

  /** A holiday's row is named after the last one in the list that is on the day. */
  lemma RowHolidayName(year: int, month: int, d: int, sheets: seq<MonthSheet>, holidays: seq<Holiday>, i: nat)
    requires i < |holidays| && IsOn(holidays[i], year, month, d)
    requires forall j | i < j < |holidays| :: !IsOn(holidays[j], year, month, d)
    ensures RowOf(year, month, d, sheets, holidays).holidayName == Some(holidays[i].name)
  {
    HolidayExactly(holidays, year, month, d);
    hide IsOn, HolidayOn, TallyOf, Pad2, MonthText, MonthDay, Hits;
  }

  lemma DatePieces(day: string, name: string)
    requires |day| == 2
    ensures var s := day + "-" + name; |s| >= 3 && s[..2] == day && s[2] == '-' && s[3..] == name
  {
  }

  /** The row's date is the day in two digits and the short name of the month. */
  lemma RowDate(year: int, month: int, d: int, sheets: seq<MonthSheet>, holidays: seq<Holiday>)
    requires 1 <= d <= DaysInMonth(year, month)
    ensures var text := RowOf(year, month, d, sheets, holidays).date;
            && |text| >= 3 && Value(text[..2]) == d && text[2] == '-'
            && (1 <= month <= 12 ==>
                  text[3..] == ["Jan", "Feb", "Mar", "Apr", "May", "Jun", "Jul", "Aug", "Sep", "Oct", "Nov", "Dec"]
                               [month - 1])
  {
    DaysInMonthLaw(year, month);
    ValueOfPad2(d);
    RowDateText(year, month, d, sheets, holidays);
    hide Pad2, Value, RowOf, DaysInMonth, MonthIx, MonthStart, MonthLength;
    DatePieces(Pad2(d), MonthText(month));
  }

  lemma RowDateText(year: int, month: int, d: int, sheets: seq<MonthSheet>, holidays: seq<Holiday>)
    ensures RowOf(year, month, d, sheets, holidays).date == Pad2(d) + "-" + MonthText(month)
  {
    hide Pad2, MonthText, HolidayOn, TallyOf, MonthDay, Hits, JoinText, WeekDay;
  }

  /** What a row adds to the month: its hours on a working day, and one to each counter it is flagged for. */
  lemma RowCountsExactly(year: int, month: int, d: int, sheets: seq<MonthSheet>, holidays: seq<Holiday>)
    ensures var r, n := RowOf(year, month, d, sheets, holidays), MonthDay(year, month, d);
            var hours := Sum(sheets, SheetHours(n));
            var working := !LeaveDay(sheets, n) && !HolidayDay(holidays, year, month, d) && 1 <= WeekDay(n) <= 5;
            && CountedTime()(r) == (if !working then 0.0 else if hours > 8.0 then 8.0 else hours)
            && CountedOvertime()(r) == (if working && hours > 8.0 then hours - 8.0 else 0.0)
            && (OnHoliday()(r) <==> HolidayDay(holidays, year, month, d))
            && (OnLeave()(r) <==> LeaveDay(sheets, n))
  {
    RowExactly(year, month, d, sheets, holidays);
    hide RowOf, LeaveDay, HolidayDay, MonthDay, Sum;
  }

  // ---- Its texts ----

  /** Some entry has hours in the column that falls on the day. */
  predicate WorkedOn(e: MonthEntry, weekStart: int, n: int, k: int) {
    0 <= k < 7 && Covers(weekStart, k, n) && e.hours[k] > 0.0
  }

  predicate ProjectOn(s: MonthSheet, n: int, name: string) {
    exists e | e in s.entries :: e.projectName == name && exists k | 0 <= k < 7 :: WorkedOn(e, s.weekStart, n, k)
  }

  predicate NoteOn(s: MonthSheet, n: int, note: string) {
    exists e | e in s.entries :: exists k | 0 <= k < 7 :: WorkedOn(e, s.weekStart, n, k) && e.notes[k] == Some(note)
  }

  /** A list of texts without blanks and repetitions. */
  predicate Tidy(list: seq<string>) {
    "" !in list && forall i, j | 0 <= i < |list| && 0 <= j < |list| && i != j :: list[i] != list[j]
  }

  /** Each note is listed once, and exactly the notes of worked columns are listed. */
  lemma {:induction false} TaskNotesLaw(hits: seq<Hit>)
    ensures Tidy(TaskNotes(hits))
    ensures forall x :: x in TaskNotes(hits) <==> x != "" && exists h | h in hits :: Worked(h) && NoteOf(h) == x
  {
    if hits != [] {
      var n := |hits| - 1;
      TaskNotesLaw(hits[..n]);
      hide Worked, NoteOf;
      assert hits == hits[..n] + [hits[n]];
      assert forall h :: h in hits <==> h in hits[..n] || h == hits[n];
    }
  }

  /** Hits read later only add to the lists, at their ends. */
  lemma {:induction false} TextsGrow(hits: seq<Hit>, k: nat)
    requires k <= |hits|
    ensures ProjectNames(hits[..k]) <= ProjectNames(hits) && TaskNotes(hits[..k]) <= TaskNotes(hits)
    decreases |hits|
  {
    var n := |hits| - 1;
    if k <= n {
      TextsGrow(hits[..n], k);
      assert hits[..n][..k] == hits[..k];
    } else {
      assert hits[..k] == hits;
    }
  }

  /** The joined text of a list grows by a comma and the next text. */
  lemma {:induction false} JoinNext(list: seq<string>, x: string)
    ensures JoinText([]) == "" && JoinText([x]) == x
    ensures list != [] ==> JoinText(list + [x]) == JoinText(list) + ", " + x
    decreases |list|
  {
    if |list| > 1 {
      JoinNext(list[1..], x);
      assert (list + [x])[1..] == list[1..] + [x];
    }
  }

  /** A row shows exactly the names of the projects worked on that day, and the notes made there, each once. */
  lemma RowTexts(year: int, month: int, d: int, sheets: seq<MonthSheet>, holidays: seq<Holiday>)
    returns (names: seq<string>, notes: seq<string>)
    ensures RowOf(year, month, d, sheets, holidays).project == JoinText(names) && Tidy(names)
    ensures RowOf(year, month, d, sheets, holidays).task == JoinText(notes) && Tidy(notes)
    ensures forall x :: x in names <==> x != "" && exists s | s in sheets :: ProjectOn(s, MonthDay(year, month, d), x)
    ensures forall x :: x in notes <==> x != "" && exists s | s in sheets :: NoteOn(s, MonthDay(year, month, d), x)
  {
    var n := MonthDay(year, month, d);
    var hits := Hits(sheets, n);
    names, notes := ProjectNames(hits), TaskNotes(hits);
    ProjectNamesLaw(hits);
    TaskNotesLaw(hits);
    ProjectNamesTidy(hits);
    hide Hits, HolidayOn, MonthDay, Pad2, JoinText, ProjectNames, TaskNotes, Tidy, Sum, MonthText;
    forall x ensures x in names <==> x != "" && exists s | s in sheets :: ProjectOn(s, n, x) {
      ProjectHits(sheets, n, x);
    }
    forall x ensures x in notes <==> x != "" && exists s | s in sheets :: NoteOn(s, n, x) {
      if x != "" {
        NoteHits(sheets, n, x);
      }
    }
  }

  lemma ProjectNamesTidy(hits: seq<Hit>)
    ensures Tidy(ProjectNames(hits))
  {
    ProjectNamesLaw(hits);
    hide ProjectNames;
    var names := ProjectNames(hits);
    assert "" !in names;
    forall i, j | 0 <= i < |names| && 0 <= j < |names| && i != j ensures names[i] != names[j] {
      if j < i {
        assert names[j] != names[i];
      }
    }
  }

  lemma ProjectHits(sheets: seq<MonthSheet>, n: int, x: string)
    ensures (exists h | h in Hits(sheets, n) :: Worked(h) && h.entry.projectName == x)
       <==> exists s | s in sheets :: ProjectOn(s, n, x)
  {
    hide Hits, Covers;
    if h :| h in Hits(sheets, n) && Worked(h) && h.entry.projectName == x {
      HitsExactly(sheets, n, h);
      var s :| s in sheets && h.entry in s.entries && Covers(s.weekStart, h.column, n);
      assert WorkedOn(h.entry, s.weekStart, n, h.column);
      assert ProjectOn(s, n, x);
    }
    if s :| s in sheets && ProjectOn(s, n, x) {
      var e :| e in s.entries && e.projectName == x && exists k | 0 <= k < 7 :: WorkedOn(e, s.weekStart, n, k);
      var k :| 0 <= k < 7 && WorkedOn(e, s.weekStart, n, k);
      HitsExactly(sheets, n, Hit(e, k));
      assert Worked(Hit(e, k));
    }
  }

  lemma NoteHits(sheets: seq<MonthSheet>, n: int, x: string)
    requires x != ""
    ensures (exists h | h in Hits(sheets, n) :: Worked(h) && NoteOf(h) == x)
       <==> exists s | s in sheets :: NoteOn(s, n, x)
  {
    hide Hits, Covers;
    if h :| h in Hits(sheets, n) && Worked(h) && NoteOf(h) == x {
      HitsExactly(sheets, n, h);
      var s :| s in sheets && h.entry in s.entries && Covers(s.weekStart, h.column, n);
      assert WorkedOn(h.entry, s.weekStart, n, h.column) && h.entry.notes[h.column] == Some(x);
      assert NoteOn(s, n, x);
    }
    if s :| s in sheets && NoteOn(s, n, x) {
      var e :| e in s.entries && exists k | 0 <= k < 7 :: WorkedOn(e, s.weekStart, n, k) && e.notes[k] == Some(x);
      var k :| 0 <= k < 7 && WorkedOn(e, s.weekStart, n, k) && e.notes[k] == Some(x);
      HitsExactly(sheets, n, Hit(e, k));
      assert Worked(Hit(e, k)) && NoteOf(Hit(e, k)) == x;
    }
  }
}
