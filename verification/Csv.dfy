/**
 The CSV printer on texts (escapeCsv and the joins of generateCSV) and its inverse: a reader written
 from section 2 of RFC 4180 that accepts LF or CRLF as the line break and treats a lone CR as data.
 */
module Csv {
  import opened Common

  // ---- Printer ----

  function DoubleQuotes(s: string): string {
    if s == "" then "" else (if s[0] == '"' then "\"\"" else [s[0]]) + DoubleQuotes(s[1..])
  }

  function EscapeCsv(val: string): string {
    if ',' in val || '"' in val || '\n' in val then "\"" + DoubleQuotes(val) + "\"" else val
  }

  /** `Array.prototype.join`. */
  function Join(parts: seq<string>, sep: char): string {
    if |parts| == 0 then ""
    else if |parts| == 1 then parts[0]
    else parts[0] + [sep] + Join(parts[1..], sep)
  }

  /** Text of a number, an ISO date or a status name: none of the characters CSV gives a meaning to. */
  predicate IsPlain(s: string) {
    forall c | c in s :: c != ',' && c != '"' && c != '\n' && c != '\r'
  }

  type Plain = s: string | IsPlain(s) witness ""

  datatype TextRow = TextRow(
    name: Option<string>, email: Option<string>, department: Option<string>,
    weekStart: Plain, weekEnd: Plain, totalHours: Plain, billableHours: Plain, status: Plain)

  datatype Summary = Summary(total: Plain, billable: Plain, nonBillable: Plain, utilization: Plain, count: Plain)

  const HEADER: seq<string> :=
    ["Employee", "Email", "Department", "Week Start", "Week End", "Total Hours", "Billable Hours", "Status"]

  function OrEmpty(o: Option<string>): string {
    if o.Some? then o.value else ""
  }

  /** The cells of one timesheet line, before escaping. */
  function RowCells(r: TextRow): seq<string> {
    [OrEmpty(r.name), OrEmpty(r.email), OrEmpty(r.department),
     r.weekStart, r.weekEnd, r.totalHours, r.billableHours, r.status]
  }

  /** The line as printed: only the first three cells pass through escapeCsv. */
  function PrintedRow(r: TextRow): seq<string> {
    [EscapeCsv(OrEmpty(r.name)), EscapeCsv(OrEmpty(r.email)), EscapeCsv(OrEmpty(r.department)),
     r.weekStart, r.weekEnd, r.totalHours, r.billableHours, r.status]
  }

  function SummaryRows(s: Summary): seq<seq<string>> {
    [[], ["Summary"], ["Total Hours", s.total], ["Billable Hours", s.billable],
     ["Non-Billable Hours", s.nonBillable], ["Utilization %", s.utilization + "%"], ["Timesheet Count", s.count]]
  }

  function Map<A, B>(f: A -> B, xs: seq<A>): (ys: seq<B>)
    ensures |ys| == |xs| && forall i | 0 <= i < |xs| :: ys[i] == f(xs[i])
  {
    seq(|xs|, i requires 0 <= i < |xs| => f(xs[i]))
  }

  function Lines(rows: seq<seq<string>>): (lines: seq<string>)
    ensures |lines| == |rows| && forall i | 0 <= i < |rows| :: lines[i] == Join(rows[i], ',')
  {
    Map((r: seq<string>) => Join(r, ','), rows)
  }

  function Print(rows: seq<TextRow>, summary: Summary): string {
    Join(Lines([HEADER]) + Lines(Map(PrintedRow, rows)) + Lines(SummaryRows(summary)), '\n')
  }

  // ---- Reader ----

  datatype Mode =
    | Start      // nothing of the field read
    | Bare       // inside a field without quotes
    | Quoted     // inside a quoted field
    | Closing    // just after a quote inside a quoted field
    | AfterCR    // after the CR of a CRLF that follows a quoted field
    | Malformed

  datatype Reader = Reader(mode: Mode, field: string, row: seq<string>, rows: seq<seq<string>>)

  const EMPTY := Reader(Start, "", [], [])

  function EndField(r: Reader, field: string): Reader {
    Reader(Start, "", r.row + [field], r.rows)
  }

  function EndRecord(r: Reader, field: string): Reader {
    Reader(Start, "", [], r.rows + [r.row + [field]])
  }

  /** A bare field's text at a line break: a final CR belongs to the line break. */
  function WithoutCR(field: string): string {
    if field != "" && field[|field| - 1] == '\r' then field[..|field| - 1] else field
  }

  function Feed(r: Reader, c: char): Reader {
    match r.mode
    case Start =>
      if c == '"' then r.(mode := Quoted)
      else if c == ',' then EndField(r, "")
      else if c == '\n' then EndRecord(r, "")
      else r.(mode := Bare, field := [c])
    case Bare =>
      if c == '"' then r.(mode := Malformed)
      else if c == ',' then EndField(r, r.field)
      else if c == '\n' then EndRecord(r, WithoutCR(r.field))
      else r.(field := r.field + [c])
    case Quoted =>
      if c == '"' then r.(mode := Closing) else r.(field := r.field + [c])
    case Closing =>
      if c == '"' then r.(mode := Quoted, field := r.field + [c])
      else if c == ',' then EndField(r, r.field)
      else if c == '\n' then EndRecord(r, r.field)
      else if c == '\r' then r.(mode := AfterCR)
      else r.(mode := Malformed)
    case AfterCR =>
      if c == '\n' then EndRecord(r, r.field) else r.(mode := Malformed)
    case Malformed => r
  }

  function FeedAll(r: Reader, s: string): Reader
    decreases |s|
  {
    if s == "" then r else FeedAll(Feed(r, s[0]), s[1..])
  }

  /** The records of a whole text; the last one may or may not end in a line break. */
  function ParseCSV(s: string): Option<seq<seq<string>>> {
    var r := FeedAll(EMPTY, s);
    match r.mode
    case Start => Some(if r.row == [] then r.rows else EndRecord(r, "").rows)
    case Bare => Some(EndRecord(r, r.field).rows)
    case Closing => Some(EndRecord(r, r.field).rows)
    case _ => None
  }

  // ---- Round trip ----

  lemma {:induction false} FeedConcat(r: Reader, s: string, t: string)
    ensures FeedAll(r, s + t) == FeedAll(FeedAll(r, s), t)
    decreases |s|
  {
    if s == "" {
      assert s + t == t;
    } else {
      assert (s + t)[0] == s[0] && (s + t)[1..] == s[1..] + t;
      FeedConcat(Feed(r, s[0]), s[1..], t);
    }
  }

  lemma FeedOne(r: Reader, c: char)
    ensures FeedAll(r, [c]) == Feed(r, c)
  {
    assert [c][1..] == "";
    assert FeedAll(Feed(r, c), "") == Feed(r, c);
  }

  /** Where the reader stands after a whole printed field: the next separator will deliver `val`. */
  predicate Holds(r: Reader, row: seq<string>, rows: seq<seq<string>>, val: string) {
    && r.row == row && r.rows == rows && r.field == val
    && (r.mode == Closing || (r.mode == Bare && val != "") || (r.mode == Start && val == ""))
  }

  lemma {:induction false} FeedBare(r: Reader, s: string)
    requires r.mode == Bare && forall c | c in s :: c != ',' && c != '"' && c != '\n'
    ensures FeedAll(r, s) == r.(field := r.field + s)
    decreases |s|
  {
    if s == "" {
      assert r.field + s == r.field;
    } else {
      assert s[0] in s && forall c | c in s[1..] :: c in s;
      FeedBare(Feed(r, s[0]), s[1..]);
      assert r.field + [s[0]] + s[1..] == r.field + s;
    }
  }

  lemma {:induction false} FeedQuoted(r: Reader, s: string)
    requires r.mode == Quoted
    ensures FeedAll(r, DoubleQuotes(s)) == r.(field := r.field + s)
    decreases |s|
  {
    if s == "" {
      assert r.field + s == r.field;
    } else {
      FeedQuotedOne(r, s[0]);
      FeedConcat(r, if s[0] == '"' then "\"\"" else [s[0]], DoubleQuotes(s[1..]));
      FeedQuoted(r.(field := r.field + [s[0]]), s[1..]);
      assert r.field + [s[0]] + s[1..] == r.field + s;
    }
  }

  lemma FeedQuotedOne(r: Reader, c: char)
    requires r.mode == Quoted
    ensures FeedAll(r, if c == '"' then "\"\"" else [c]) == r.(field := r.field + [c])
  {
    if c == '"' {
      FeedConcat(r, "\"", "\"");
      FeedOne(r, '"');
      FeedOne(Feed(r, '"'), '"');
      assert "\"\"" == "\"" + "\"";
    } else {
      FeedOne(r, c);
    }
  }

  /** Reading an escaped field, whatever it contains, gives the field back. */
  lemma FeedEscaped(row: seq<string>, rows: seq<seq<string>>, val: string)
    ensures Holds(FeedAll(Reader(Start, "", row, rows), EscapeCsv(val)), row, rows, val)
  {
    var r := Reader(Start, "", row, rows);
    if ',' in val || '"' in val || '\n' in val {
      var q := DoubleQuotes(val);
      assert EscapeCsv(val) == ("\"" + q) + "\"";
      FeedConcat(r, "\"" + q, "\"");
      FeedConcat(r, "\"", q);
      FeedOne(r, '"');
      FeedQuoted(r.(mode := Quoted), val);
      assert "" + val == val;
      FeedOne(r.(mode := Quoted, field := val), '"');
    } else {
      FeedUnescaped(row, rows, val);
    }
  }

  lemma FeedUnescaped(row: seq<string>, rows: seq<seq<string>>, val: string)
    requires forall c | c in val :: c != ',' && c != '"' && c != '\n'
    ensures Holds(FeedAll(Reader(Start, "", row, rows), val), row, rows, val)
  {
    var r := Reader(Start, "", row, rows);
    if val != "" {
      assert val[0] in val && forall c | c in val[1..] :: c in val;
      FeedBare(Feed(r, val[0]), val[1..]);
      assert [val[0]] + val[1..] == val;
    }
  }

  /** `printed` is a line break-safe print of the cells: escaped, or plain text. */
  predicate Prints(printed: seq<string>, cells: seq<string>) {
    && |printed| == |cells|
    && (forall i | 0 <= i < |cells| ::
          printed[i] == EscapeCsv(cells[i]) || (printed[i] == cells[i] && IsPlain(cells[i])))
    && (|cells| > 0 ==> IsPlain(cells[|cells| - 1]))
  }

  lemma FeedCell(row: seq<string>, rows: seq<seq<string>>, printed: string, val: string)
    requires printed == EscapeCsv(val) || (printed == val && IsPlain(val))
    ensures Holds(FeedAll(Reader(Start, "", row, rows), printed), row, rows, val)
  {
    if printed == EscapeCsv(val) {
      FeedEscaped(row, rows, val);
    } else {
      FeedUnescaped(row, rows, val);
    }
  }

  /** A join of no cells prints the empty line, which reads as one empty field. */
  function AsRead(cells: seq<string>): seq<string> {
    if cells == [] then [""] else cells
  }

  /** After a printed line the reader holds its last cell, and all earlier ones are in the row. */
  lemma {:induction false} FeedLine(row: seq<string>, rows: seq<seq<string>>, printed: seq<string>, cells: seq<string>)
    requires Prints(printed, cells) && cells != []
    ensures Holds(FeedAll(Reader(Start, "", row, rows), Join(printed, ',')),
                  row + cells[..|cells| - 1], rows, cells[|cells| - 1])
    decreases |cells|
  {
    var r := Reader(Start, "", row, rows);
    FeedCell(row, rows, printed[0], cells[0]);
    if |cells| == 1 {
      assert row + cells[..0] == row;
    } else {
      assert Prints(printed[1..], cells[1..]);
      hide FeedAll, Feed, EscapeCsv, Prints, IsPlain;
      var rest := Join(printed[1..], ',');
      assert Join(printed, ',') == (printed[0] + ",") + rest;
      FeedConcat(r, printed[0] + ",", rest);
      FeedConcat(r, printed[0], ",");
      var held := FeedAll(r, printed[0]);
      FeedOne(held, ',');
      FeedComma(held, row, rows, cells[0]);
      FeedLine(row + [cells[0]], rows, printed[1..], cells[1..]);
      RowShift(row, cells);
    }
  }

  lemma RowShift(row: seq<string>, cells: seq<string>)
    requires |cells| > 1
    ensures row + [cells[0]] + cells[1..][..|cells[1..]| - 1] == row + cells[..|cells| - 1]
    ensures cells[1..][|cells[1..]| - 1] == cells[|cells| - 1]
  {
  }

  lemma FeedComma(r: Reader, row: seq<string>, rows: seq<seq<string>>, val: string)
    requires Holds(r, row, rows, val)
    ensures Feed(r, ',') == Reader(Start, "", row + [val], rows)
  {
  }

  lemma FeedBreak(r: Reader, row: seq<string>, rows: seq<seq<string>>, val: string)
    requires Holds(r, row, rows, val) && IsPlain(val)
    ensures Feed(r, '\n') == Reader(Start, "", [], rows + [row + [val]])
  {
    if val != "" {
      assert val[|val| - 1] in val;
    }
  }

  predicate AllPrint(printed: seq<seq<string>>, records: seq<seq<string>>) {
    |printed| == |records| && forall i | 0 <= i < |records| :: Prints(printed[i], records[i])
  }

  /** Lines each followed by a line break. */
  function Text(lines: seq<string>): string {
    if lines == [] then "" else Text(lines[..|lines| - 1]) + (lines[|lines| - 1] + "\n")
  }

  lemma {:induction false} TextFromFront(lines: seq<string>)
    requires lines != []
    ensures Text(lines) == (lines[0] + "\n") + Text(lines[1..])
    decreases |lines|
  {
    var n := |lines| - 1;
    if n > 0 {
      TextFromFront(lines[..n]);
      assert lines[..n][1..] == lines[1..][..n - 1] && lines[1..][n - 1] == lines[n];
    }
  }

  lemma {:induction false} JoinIsText(lines: seq<string>)
    requires lines != []
    ensures Join(lines, '\n') == Text(lines[..|lines| - 1]) + lines[|lines| - 1]
    decreases |lines|
  {
    var n := |lines| - 1;
    if n > 0 {
      JoinIsText(lines[1..]);
      TextFromFront(lines[..n]);
      assert lines[1..][..n - 1] == lines[..n][1..];
    }
  }

  /** Terminated lines are read as complete records, one for one. */
  lemma {:induction false} FeedText(printed: seq<seq<string>>, records: seq<seq<string>>)
    requires AllPrint(printed, records)
    ensures FeedAll(EMPTY, Text(Lines(printed))) == Reader(Start, "", [], Map(AsRead, records))
    decreases |records|
  {
    if records != [] {
      hide Map, Lines, FeedAll, Feed, Join, AsRead, Prints;
      var n := |records| - 1;
      var line := Join(printed[n], ',');
      FeedText(printed[..n], records[..n]);
      assert Lines(printed)[..n] == Lines(printed[..n]);
      FeedConcat(EMPTY, Text(Lines(printed[..n])), line + "\n");
      var r := Reader(Start, "", [], Map(AsRead, records[..n]));
      FeedConcat(r, line, "\n");
      FeedOne(FeedAll(r, line), '\n');
      LineBreak(r.rows, printed[n], records[n]);
      assert Map(AsRead, records) == Map(AsRead, records[..n]) + [AsRead(records[n])];
    }
  }

  /** A text whose last line is not blank parses to its records, with or without a final line break. */
  lemma ParseLines(printed: seq<seq<string>>, records: seq<seq<string>>)
    requires AllPrint(printed, records) && records != [] && AsRead(records[|records| - 1]) != [""]
    ensures ParseCSV(Join(Lines(printed), '\n')) == Some(Map(AsRead, records))
    ensures ParseCSV(Text(Lines(printed))) == Some(Map(AsRead, records))
  {
    hide Map, Lines, FeedAll, Feed, Join, Text, Prints;
    var n := |records| - 1;
    FeedText(printed, records);
    FeedText(printed[..n], records[..n]);
    JoinIsText(Lines(printed));
    assert Lines(printed)[..n] == Lines(printed[..n]);
    FeedConcat(EMPTY, Text(Lines(printed[..n])), Join(printed[n], ','));
    var last := records[n];
    FeedLine([], Map(AsRead, records[..n]), printed[n], last);
    assert [] + last[..|last| - 1] + [last[|last| - 1]] == last;
    assert Map(AsRead, records) == Map(AsRead, records[..n]) + [last];
  }

  lemma LineBreak(rows: seq<seq<string>>, printed: seq<string>, cells: seq<string>)
    requires Prints(printed, cells)
    ensures Feed(FeedAll(Reader(Start, "", [], rows), Join(printed, ',')), '\n')
         == Reader(Start, "", [], rows + [AsRead(cells)])
  {
    var start := Reader(Start, "", [], rows);
    if cells == [] {
      assert Join(printed, ',') == "";
      assert [] + [""] == AsRead(cells);
    } else {
      FeedLine([], rows, printed, cells);
      var r := FeedAll(start, Join(printed, ','));
      var n := |cells| - 1;
      assert [] + cells[..n] == cells[..n];
      FeedBreak(r, cells[..n], rows, cells[n]);
      assert cells[..n] + [cells[n]] == cells;
    }
  }

  /** The cells of the whole report, the blank line being a record of one empty field. */
  function Cells(rows: seq<TextRow>, summary: Summary): seq<seq<string>> {
    [HEADER] + Map(RowCells, rows) + Map(AsRead, SummaryRows(summary))
  }

  lemma RowPrints(r: TextRow)
    ensures Prints(PrintedRow(r), RowCells(r))
  {
    assert IsPlain(r.status);
  }

  lemma PlainPrints(cells: seq<string>)
    requires forall i | 0 <= i < |cells| :: IsPlain(cells[i])
    ensures Prints(cells, cells)
  {
  }

  lemma PairPrints(title: string, value: string)
    requires IsPlain(title) && IsPlain(value)
    ensures Prints([title, value], [title, value])
  {
    PlainPrints([title, value]);
  }

  lemma SummaryPrints(s: Summary)
    ensures AllPrint(SummaryRows(s), SummaryRows(s))
  {
    hide Prints;
    PlainPrints([]);
    PlainPrints(["Summary"]);
    PairPrints("Total Hours", s.total);
    PairPrints("Billable Hours", s.billable);
    PairPrints("Non-Billable Hours", s.nonBillable);
    PairPrints("Utilization %", s.utilization + "%");
    PairPrints("Timesheet Count", s.count);
  }

  lemma AllPrintConcat(p: seq<seq<string>>, r: seq<seq<string>>, p': seq<seq<string>>, r': seq<seq<string>>)
    requires AllPrint(p, r) && AllPrint(p', r')
    ensures AllPrint(p + p', r + r')
  {
  }

  lemma ReportPrints(rows: seq<TextRow>, summary: Summary)
    ensures AllPrint([HEADER] + Map(PrintedRow, rows) + SummaryRows(summary),
                     [HEADER] + Map(RowCells, rows) + SummaryRows(summary))
  {
    forall i | 0 <= i < |rows| ensures Prints(Map(PrintedRow, rows)[i], Map(RowCells, rows)[i]) {
      RowPrints(rows[i]);
    }
    PlainPrints(HEADER);
    hide HEADER, SummaryRows, Prints;
    SummaryPrints(summary);
    AllPrintConcat([HEADER], [HEADER], Map(PrintedRow, rows), Map(RowCells, rows));
    AllPrintConcat([HEADER] + Map(PrintedRow, rows), [HEADER] + Map(RowCells, rows), SummaryRows(summary),
        SummaryRows(summary));
  }

  /** Reading what is printed gives back exactly the header, data and summary cells. */
  lemma TextRoundTrip(rows: seq<TextRow>, summary: Summary)
    ensures ParseCSV(Print(rows, summary)) == Some(Cells(rows, summary))
  {
    var end := SummaryRows(summary);
    var printed := [HEADER] + Map(PrintedRow, rows) + end;
    var records := [HEADER] + Map(RowCells, rows) + end;
    assert end != [] && AsRead(end[|end| - 1]) != [""];
    hide HEADER, SummaryRows, ParseCSV, Join, Map, Lines, PrintedRow, RowCells, AsRead, AllPrint;
    ReportPrints(rows, summary);
    LinesConcat([HEADER], Map(PrintedRow, rows), end);
    assert records[|records| - 1] == end[|end| - 1];
    ParseLines(printed, records);
    ReadConcat(rows, end);
  }

  lemma LinesConcat(a: seq<seq<string>>, b: seq<seq<string>>, c: seq<seq<string>>)
    ensures Lines(a + b + c) == Lines(a) + Lines(b) + Lines(c)
  {
  }

  lemma ReadConcat(rows: seq<TextRow>, end: seq<seq<string>>)
    ensures Map(AsRead, [HEADER] + Map(RowCells, rows) + end) == [HEADER] + Map(RowCells, rows) + Map(AsRead, end)
  {
    assert AsRead(HEADER) == HEADER;
    forall i | 0 <= i < |rows| ensures AsRead(Map(RowCells, rows)[i]) == Map(RowCells, rows)[i] {
      NonBlank(rows[i]);
    }
    hide HEADER, RowCells, AsRead;
    assert Map(AsRead, Map(RowCells, rows)) == Map(RowCells, rows);
    MapConcat([HEADER], Map(RowCells, rows), end);
  }

  lemma MapConcat(a: seq<seq<string>>, b: seq<seq<string>>, c: seq<seq<string>>)
    ensures Map(AsRead, a + b + c) == Map(AsRead, a) + Map(AsRead, b) + Map(AsRead, c)
  {
  }

  lemma NonBlank(r: TextRow)
    ensures AsRead(RowCells(r)) == RowCells(r)
  {
  }
}
