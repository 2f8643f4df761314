/**
 generateCSV on a report: the texts of dates, counts, percentages and statuses, and what the printed
 file tells about the report. The text of a number of hours, JavaScript's Number.toString, is a parameter.
 */
module CsvReport {
  import opened Common
  import opened Calendar
  import opened Schema
  import opened Csv
  import Report

  /** A timesheet of the report with its user; the dates are day numbers. */
  datatype Line = Line(
    name: Option<string>, email: Option<string>, department: Option<string>,
    weekStart: int, weekEnd: int, totalHours: real, billableHours: real, status: Status)

  // ---- Dates ----

  function Zeros(k: nat): string {
    seq(k, i => '0')
  }

  /** `padStart(width, '0')` */
  function PadNat(n: nat, width: nat): (s: string)
    ensures |s| >= width && |s| >= 1
    ensures forall c | c in s :: '0' <= c <= '9'
  {
    var s := NatText(n);
    if |s| < width then Zeros(width - |s|) + s else s
  }

  /** The year of an ISO date: four digits, or a sign and six (section 21.4.1.15.1 of ECMA-262). */
  function YearText(y: int): (s: string)
    ensures |s| >= 4 && forall c | c in s :: c == '-' || c == '+' || '0' <= c <= '9'
  {
    if 0 <= y <= 9999 then PadNat(y, 4)
    else if y < 0 then "-" + PadNat(-y, 6)
    else "+" + PadNat(y, 6)
  }

  function TwoDigits(n: nat): (s: string)
    requires n < 100
    ensures |s| == 2 && forall c | c in s :: '0' <= c <= '9'
  {
    [Digit(n / 10), Digit(n % 10)]
  }

  /** toDateStr: `toISOString().split('T')[0]` of any instant of the day. */
  function ToDateStr(n: int): (s: string)
    ensures IsPlain(s)
  {
    DayToCivilToDay(n);
    var c := CivilFromDay(n);
    YearText(c.year) + "-" + TwoDigits(c.month + 1) + "-" + TwoDigits(c.date)
  }

  lemma {:induction false} ValueOfPadded(k: nat, s: string)
    ensures Value(Zeros(k) + s) == Value(s)
    decreases k + |s|
  {
    if s == "" {
      assert Zeros(k) + s == Zeros(k);
      ValueOfZeros(k);
    } else {
      ValueOfPadded(k, s[..|s| - 1]);
      assert (Zeros(k) + s)[..k + |s| - 1] == Zeros(k) + s[..|s| - 1];
    }
  }

  lemma {:induction false} ValueOfZeros(k: nat)
    ensures Value(Zeros(k)) == 0
  {
    if k > 0 {
      ValueOfZeros(k - 1);
      assert Zeros(k)[..k - 1] == Zeros(k - 1);
    }
  }

  lemma PadNatInjective(a: nat, b: nat, width: nat)
    requires PadNat(a, width) == PadNat(b, width)
    ensures a == b
  {
    ValueOfNat(a);
    ValueOfNat(b);
    ValueOfPadded(if |NatText(a)| < width then width - |NatText(a)| else 0, NatText(a));
    ValueOfPadded(if |NatText(b)| < width then width - |NatText(b)| else 0, NatText(b));
    hide NatText, Value;
  }

  lemma YearTextInjective(a: int, b: int)
    requires YearText(a) == YearText(b)
    ensures a == b
  {
    var s, t := YearText(a), YearText(b);
    SignOfYear(a);
    SignOfYear(b);
    if 0 <= a <= 9999 {
      PadNatInjective(a, b, 4);
    } else if a < 0 {
      assert s[1..] == PadNat(-a, 6) && t[1..] == PadNat(-b, 6);
      PadNatInjective(-a, -b, 6);
    } else {
      assert s[1..] == PadNat(a, 6) && t[1..] == PadNat(b, 6);
      PadNatInjective(a, b, 6);
    }
  }

  lemma SignOfYear(y: int)
    ensures YearText(y)[0] == '-' <==> y < 0
    ensures YearText(y)[0] == '+' <==> y > 9999
  {
    if 0 <= y <= 9999 {
      assert YearText(y)[0] in PadNat(y, 4);
    }
  }

  lemma TwoDigitsInjective(a: nat, b: nat)
    requires a < 100 && b < 100 && TwoDigits(a) == TwoDigits(b)
    ensures a == b
  {
    assert TwoDigits(a)[0] == TwoDigits(b)[0] && TwoDigits(a)[1] == TwoDigits(b)[1];
  }

  lemma DateParts(n: int)
    ensures var s, c := ToDateStr(n), CivilFromDay(n);
            && |s| >= 6 && 0 <= c.month < 12 && 1 <= c.date <= 31
            && s[..|s| - 6] == YearText(c.year)
            && s[|s| - 5..|s| - 3] == TwoDigits(c.month + 1) && s[|s| - 2..] == TwoDigits(c.date)
  {
    DayToCivilToDay(n);
    hide YearText, TwoDigits, CivilFromDay, MakeDay;
  }

  /** Different days have different date texts, in years of any length and sign. */
  lemma DateTextInjective(a: int, b: int)
    requires ToDateStr(a) == ToDateStr(b)
    ensures a == b
  {
    DateParts(a);
    DateParts(b);
    DayToCivilToDay(a);
    DayToCivilToDay(b);
    hide ToDateStr, CivilFromDay, YearText, TwoDigits, MakeDay;
    var c, d := CivilFromDay(a), CivilFromDay(b);
    YearTextInjective(c.year, d.year);
    TwoDigitsInjective(c.month + 1, d.month + 1);
    TwoDigitsInjective(c.date, d.date);
  }

  // ---- The report ----

  function StatusText(status: Status): (s: string)
    ensures IsPlain(s)
  {
    match status
    case DRAFT => "DRAFT"
    case SUBMITTED => "SUBMITTED"
    case APPROVED => "APPROVED"
    case REJECTED => "REJECTED"
  }

  function Percent(n: int): (s: string)
    ensures IsPlain(s)
  {
    IntText(n)
  }

  function Texts(line: Line, show: real -> Plain): TextRow {
    TextRow(line.name, line.email, line.department, ToDateStr(line.weekStart), ToDateStr(line.weekEnd),
            show(line.totalHours), show(line.billableHours), StatusText(line.status))
  }

  function SummaryTexts(g: Report.Aggregates, show: real -> Plain): Summary {
    Summary(show(g.totalHours), show(g.billableHours), show(g.nonBillableHours),
            Percent(g.utilization), Percent(g.timesheetCount))
  }

  function GenerateCSV(lines: seq<Line>, g: Report.Aggregates, show: real -> Plain): string {
    Print(Map((l: Line) => Texts(l, show), lines), SummaryTexts(g, show))
  }

  function LineCells(l: Line, show: real -> Plain): seq<string> {
    [OrEmpty(l.name), OrEmpty(l.email), OrEmpty(l.department), ToDateStr(l.weekStart), ToDateStr(l.weekEnd),
     show(l.totalHours), show(l.billableHours), StatusText(l.status)]
  }

  function SummaryCells(g: Report.Aggregates, show: real -> Plain): (cells: seq<seq<string>>)
    ensures |cells| == 7
  {
    [[""], ["Summary"], ["Total Hours", show(g.totalHours)], ["Billable Hours", show(g.billableHours)],
     ["Non-Billable Hours", show(g.nonBillableHours)], ["Utilization %", IntText(g.utilization) + "%"],
     ["Timesheet Count", IntText(g.timesheetCount)]]
  }

  /** The cells a reader of the file should find. */
  function ReportCells(lines: seq<Line>, g: Report.Aggregates, show: real -> Plain): seq<seq<string>> {
    [HEADER]
    + Map((l: Line) => LineCells(l, show), lines)
    + SummaryCells(g, show)
  }

  /** Reading the printed report gives exactly its header, data and summary cells. */
  lemma RoundTrip(lines: seq<Line>, g: Report.Aggregates, show: real -> Plain)
    ensures ParseCSV(GenerateCSV(lines, g, show)) == Some(ReportCells(lines, g, show))
  {
    var rows, summary := Map((l: Line) => Texts(l, show), lines), SummaryTexts(g, show);
    TextRoundTrip(rows, summary);
    SummaryAsRead(summary);
    hide ParseCSV, Print, ToDateStr, StatusText, HEADER, AsRead, SummaryRows;
    forall i | 0 <= i < |lines| ensures Map(RowCells, rows)[i] == ReportCells(lines, g, show)[1 + i] {
    }
    assert Cells(rows, summary) == ReportCells(lines, g, show);
  }

  lemma SummaryAsRead(s: Summary)
    ensures Map(AsRead, SummaryRows(s))
         == [[""], ["Summary"], ["Total Hours", s.total], ["Billable Hours", s.billable],
             ["Non-Billable Hours", s.nonBillable], ["Utilization %", s.utilization + "%"],
             ["Timesheet Count", s.count]]
  {
  }

  // ---- What the file says ----

  /** The text is that of day `n` in the form YYYY-MM-DD. */
  predicate IsDateText(s: string, n: int) {
    && |s| == 10 && s[4] == '-' && s[7] == '-'
    && Value(s[..4]) == CivilFromDay(n).year
    && Value(s[5..7]) == CivilFromDay(n).month + 1
    && Value(s[8..]) == CivilFromDay(n).date
  }

  lemma ValueOfTwoDigits(n: nat)
    requires n < 100
    ensures Value(TwoDigits(n)) == n
  {
    var s := TwoDigits(n);
    assert s[..1] == [Digit(n / 10)] && s[..1][..0] == "";
    assert Value(s[..1]) == n / 10;
  }

  lemma ValueOfYear(y: int)
    requires 0 <= y <= 9999
    ensures |YearText(y)| == 4 && Value(YearText(y)) == y
  {
    var s := NatText(y);
    ValueOfNat(y);
    ValueOfPadded(if |s| < 4 then 4 - |s| else 0, s);
    assert |s| <= 4 by {
      assert y >= 10 ==> |s| == |NatText(y / 10)| + 1;
      assert y >= 100 ==> |NatText(y / 10)| == |NatText(y / 10 / 10)| + 1;
      assert y >= 1000 ==> |NatText(y / 10 / 10)| == |NatText(y / 10 / 10 / 10)| + 1;
    }
    hide NatText, Value;
  }

  lemma DashedParts(y: string, m: string, d: string)
    requires |y| == 4 && |m| == 2 && |d| == 2
    ensures var s := y + "-" + m + "-" + d;
            |s| == 10 && s[4] == '-' && s[7] == '-' && s[..4] == y && s[5..7] == m && s[8..] == d
  {
  }

  /** Dates of four-digit years are printed in that form. */
  lemma DateTextExactly(n: int)
    requires 0 <= CivilFromDay(n).year <= 9999
    ensures IsDateText(ToDateStr(n), n)
  {
    var c := CivilFromDay(n);
    DateParts(n);
    hide YearText, TwoDigits, Value, CivilFromDay, RealDate, MakeDay;
    ValueOfYear(c.year);
    ValueOfTwoDigits(c.month + 1);
    ValueOfTwoDigits(c.date);
    DashedParts(YearText(c.year), TwoDigits(c.month + 1), TwoDigits(c.date));
  }

  /** The eight cells of a timesheet's line. */
  predicate IsLine(cells: seq<string>, l: Line, show: real -> Plain) {
    && |cells| == 8
    && (l.name == Some(cells[0]) || (l.name == None && cells[0] == ""))
    && (l.email == Some(cells[1]) || (l.email == None && cells[1] == ""))
    && (l.department == Some(cells[2]) || (l.department == None && cells[2] == ""))
    && (0 <= CivilFromDay(l.weekStart).year <= 9999 ==> IsDateText(cells[3], l.weekStart))
    && (0 <= CivilFromDay(l.weekEnd).year <= 9999 ==> IsDateText(cells[4], l.weekEnd))
    && cells[5] == show(l.totalHours) && cells[6] == show(l.billableHours)
    && (cells[7] == "DRAFT" <==> l.status == DRAFT) && (cells[7] == "SUBMITTED" <==> l.status == SUBMITTED)
    && (cells[7] == "APPROVED" <==> l.status == APPROVED) && (cells[7] == "REJECTED" <==> l.status == REJECTED)
  }

  lemma LineExactly(l: Line, show: real -> Plain)
    ensures IsLine(LineCells(l, show), l, show)
  {
    hide ToDateStr, CivilFromDay, IsDateText;
    if 0 <= CivilFromDay(l.weekStart).year <= 9999 {
      DateTextExactly(l.weekStart);
    }
    if 0 <= CivilFromDay(l.weekEnd).year <= 9999 {
      DateTextExactly(l.weekEnd);
    }
    StatusTextsApart(l.status);
  }

  lemma StatusTextsApart(s: Status)
    ensures var t := StatusText(s);
            && (t == "DRAFT" <==> s == DRAFT) && (t == "SUBMITTED" <==> s == SUBMITTED)
            && (t == "APPROVED" <==> s == APPROVED) && (t == "REJECTED" <==> s == REJECTED)
  {
    assert "DRAFT"[0] == 'D' && "SUBMITTED"[0] == 'S' && "APPROVED"[0] == 'A' && "REJECTED"[0] == 'R';
  }

  /**
   A reader of the file finds the eight column titles, then one line per timesheet with its names,
   dates, hours and status, then an empty line and the summary under its titles.
   */
  lemma FileExactly(lines: seq<Line>, g: Report.Aggregates, show: real -> Plain) returns (cells: seq<seq<string>>)
    ensures ParseCSV(GenerateCSV(lines, g, show)) == Some(cells) && |cells| == |lines| + 8
    ensures cells[0]
         == ["Employee", "Email", "Department", "Week Start", "Week End", "Total Hours", "Billable Hours", "Status"]
    ensures forall i | 0 <= i < |lines| :: IsLine(cells[1 + i], lines[i], show)
    ensures cells[|lines| + 1..|lines| + 6]
         == [[""], ["Summary"], ["Total Hours", show(g.totalHours)], ["Billable Hours", show(g.billableHours)],
             ["Non-Billable Hours", show(g.nonBillableHours)]]
    ensures var percent, count := cells[|lines| + 6], cells[|lines| + 7];
            && |percent| == 2 && percent[0] == "Utilization %" && |count| == 2 && count[0] == "Timesheet Count"
            && (g.utilization >= 0 ==>
                  |percent[1]| >= 1 && percent[1][|percent[1]| - 1] == '%'
                  && Value(percent[1][..|percent[1]| - 1]) == g.utilization)
            && (g.timesheetCount >= 0 ==> Value(count[1]) == g.timesheetCount)
  {
    RoundTrip(lines, g, show);
    cells := ReportCells(lines, g, show);
    hide ParseCSV, GenerateCSV, LineCells, IsLine, Value, IntText, Map;
    forall i | 0 <= i < |lines| ensures IsLine(cells[1 + i], lines[i], show) {
      LineExactly(lines[i], show);
      assert cells[1 + i] == LineCells(lines[i], show);
    }
    var summary := SummaryCells(g, show);
    assert cells[|lines| + 1..] == summary;
    assert cells[|lines| + 1..|lines| + 6] == summary[..5];
    assert cells[|lines| + 6] == summary[5] && cells[|lines| + 7] == summary[6];
    assert (IntText(g.utilization) + "%")[..|IntText(g.utilization)|] == IntText(g.utilization);
    ValueOfInt(g.utilization);
    ValueOfInt(g.timesheetCount);
  }

  lemma ValueOfInt(n: int)
    ensures n >= 0 ==> Value(IntText(n)) == n
  {
    if n >= 0 {
      ValueOfNat(n);
    }
  }

  /** What the file shows of a line. */
  predicate ShowTheSame(a: Line, b: Line, show: real -> Plain) {
    && OrEmpty(a.name) == OrEmpty(b.name) && OrEmpty(a.email) == OrEmpty(b.email)
    && OrEmpty(a.department) == OrEmpty(b.department)
    && a.weekStart == b.weekStart && a.weekEnd == b.weekEnd && a.status == b.status
    && show(a.totalHours) == show(b.totalHours) && show(a.billableHours) == show(b.billableHours)
  }

  /**
   Two reports that print the same file have the same timesheets in the same order, down to dates,
   statuses, names, and hours as far as number texts tell them apart, and the same summary.
   */
  lemma PrinterInjective(lines: seq<Line>, g: Report.Aggregates, lines': seq<Line>, g': Report.Aggregates,
      show: real -> Plain)
    requires GenerateCSV(lines, g, show) == GenerateCSV(lines', g', show)
    ensures |lines| == |lines'| && forall i | 0 <= i < |lines| :: ShowTheSame(lines[i], lines'[i], show)
    ensures g.utilization == g'.utilization && g.timesheetCount == g'.timesheetCount
    ensures show(g.totalHours) == show(g'.totalHours) && show(g.billableHours) == show(g'.billableHours)
    ensures show(g.nonBillableHours) == show(g'.nonBillableHours)
  {
    RoundTrip(lines, g, show);
    RoundTrip(lines', g', show);
    hide ParseCSV, GenerateCSV, HEADER, LineCells, SummaryCells, ShowTheSame, Map;
    var cells, cells' := ReportCells(lines, g, show), ReportCells(lines', g', show);
    var n := |lines|;
    assert cells == cells' && |cells| == n + 8 && |cells'| == |lines'| + 8;
    forall i | 0 <= i < n ensures ShowTheSame(lines[i], lines'[i], show) {
      assert cells[1 + i] == LineCells(lines[i], show) && cells'[1 + i] == LineCells(lines'[i], show);
      SameCells(lines[i], lines'[i], show);
    }
    assert cells[n + 1..] == SummaryCells(g, show) && cells'[n + 1..] == SummaryCells(g', show);
    SameSummary(g, g', show);
  }

  lemma SameSummary(g: Report.Aggregates, g': Report.Aggregates, show: real -> Plain)
    requires SummaryCells(g, show) == SummaryCells(g', show)
    ensures g.utilization == g'.utilization && g.timesheetCount == g'.timesheetCount
    ensures show(g.totalHours) == show(g'.totalHours) && show(g.billableHours) == show(g'.billableHours)
    ensures show(g.nonBillableHours) == show(g'.nonBillableHours)
  {
    hide IntText;
    var s, t := SummaryCells(g, show), SummaryCells(g', show);
    assert s[2][1] == t[2][1] && s[3][1] == t[3][1] && s[4][1] == t[4][1] && s[5][1] == t[5][1] && s[6][1] == t[6][1];
    var u, v := IntText(g.utilization), IntText(g'.utilization);
    assert (u + "%")[..|u|] == u && (v + "%")[..|v|] == v;
    IntTextInjective(g.utilization, g'.utilization);
    IntTextInjective(g.timesheetCount, g'.timesheetCount);
  }

  lemma SameCells(a: Line, b: Line, show: real -> Plain)
    requires LineCells(a, show) == LineCells(b, show)
    ensures ShowTheSame(a, b, show)
  {
    var s, t := LineCells(a, show), LineCells(b, show);
    assert s[0] == t[0] && s[1] == t[1] && s[2] == t[2] && s[3] == t[3];
    assert s[4] == t[4] && s[5] == t[5] && s[6] == t[6] && s[7] == t[7];
    hide ToDateStr, StatusText;
    DateTextInjective(a.weekStart, b.weekStart);
    DateTextInjective(a.weekEnd, b.weekEnd);
    StatusTextInjective(a.status, b.status);
  }

  lemma StatusTextInjective(a: Status, b: Status)
    requires StatusText(a) == StatusText(b)
    ensures a == b
  {
    assert StatusText(a)[0] == StatusText(b)[0];
  }
}
