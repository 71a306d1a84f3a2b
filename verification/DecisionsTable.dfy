/** The decision table of a DECISIONS.md file, where a row is the record. */
module DecisionsTable {
  import opened Wrappers
  import opened Text

  datatype Row = Row(statusRaw: Option<string>, epitome: string)

  function CountChar(s: string, c: char): nat {
    if s == "" then 0 else (if s[0] == c then 1 else 0) + CountChar(s[1..], c)
  }

  function TrimAll(cells: seq<string>): seq<string> {
    seq(|cells|, i requires 0 <= i < |cells| => Trim(cells[i]))
  }

  /** `split_table_row`; never empty, since splitting gives at least one part. */
  function SplitRow(line: string): seq<string> {
    TrimAll(Split(TrimRightChar(TrimLeftChar(Trim(line), '|'), '|'), '|'))
  }

  predicate IsHeaderRow(line: string) {
    var t := Trim(line);
    StartsWith(t, "|") && EndsWith(t, "|") && CountChar(t, '|') >= 3
  }

  predicate IsSeparator(line: string) {
    var t := Trim(line);
    StartsWith(t, "|") && '-' in t && forall c | c in t :: c in {'|', '-', ':', ' ', '\t'}
  }

  predicate IsRow(line: string) {
    StartsWith(Trim(line), "|")
  }

  // ---- Columns ------------------------------------------------------------

  /** The first cell whose trimmed lower-case text is one of the names, or the width. */
  function Column(header: seq<string>, names: set<string>): (i: nat)
    ensures i <= |header|
    ensures i < |header| ==> AsciiLower(Trim(header[i])) in names
    ensures forall k | 0 <= k < i :: AsciiLower(Trim(header[k])) !in names
  {
    if header == [] then 0
    else if AsciiLower(Trim(header[0])) in names then 0
    else 1 + Column(header[1..], names)
  }

  function CellText(cells: seq<string>, column: nat): string {
    if column < |cells| then Trim(cells[column]) else ""
  }

  /** A column a table does not have gives no text, even when a row is wider than the header. */
  function Cell(header: seq<string>, cells: seq<string>, names: set<string>): string {
    var i := Column(header, names);
    if i < |header| then CellText(cells, i) else ""
  }

  const STATUS_COLUMN: set<string> := {"status"}
  const DECISION_COLUMN: set<string> := {"decision", "title", "summary"}
  const DATE_COLUMN: set<string> := {"date"}

  /** One record: the decision cell, or the date where that is missing or empty. */
  function RowOf(header: seq<string>, cells: seq<string>): Row {
    var status := Cell(header, cells, STATUS_COLUMN);
    var decision := Cell(header, cells, DECISION_COLUMN);
    Row(if status == "" then None else Some(status),
        if decision != "" then decision else Cell(header, cells, DATE_COLUMN))
  }

  /** The records of a table, rows without an epitome left out. */
  function Records(header: seq<string>, rows: seq<seq<string>>): seq<Row> {
    if rows == [] then []
    else
      var row := RowOf(header, rows[0]);
      (if row.epitome == "" then [] else [row]) + Records(header, rows[1..])
  }

  function RowsFrom(lines: seq<string>): seq<seq<string>> {
    if lines == [] || !IsRow(lines[0]) then [] else [SplitRow(lines[0])] + RowsFrom(lines[1..])
  }

  /** The records of a table that starts at the first line; none when it does not. */
  function TableAt(lines: seq<string>): seq<Row> {
    if |lines| >= 2 && IsHeaderRow(lines[0]) && IsSeparator(lines[1])
    then Records(SplitRow(Trim(lines[0])), RowsFrom(lines[2..]))
    else []
  }

  function Table(lines: seq<string>): Option<seq<Row>> {
    if lines == [] then None
    else if TableAt(lines) != [] then Some(TableAt(lines))
    else Table(lines[1..])
  }

  lemma RowsStep(header: seq<string>, lines: seq<string>, j: nat, rows: seq<Row>)
    requires j < |lines|
    ensures !IsRow(lines[j]) ==> rows + Records(header, RowsFrom(lines[j..])) == rows
    ensures IsRow(lines[j]) ==>
      var row := RowOf(header, SplitRow(lines[j]));
      rows + Records(header, RowsFrom(lines[j..]))
      == (if row.epitome == "" then rows else rows + [row]) + Records(header, RowsFrom(lines[j + 1..]))
  {
    assert lines[j..][0] == lines[j] && lines[j..][1..] == lines[j + 1..];
    if IsRow(lines[j]) {
      var cells, rest := SplitRow(lines[j]), RowsFrom(lines[j + 1..]);
      assert RowsFrom(lines[j..]) == [cells] + rest;
      RecordsCons(header, cells, rest, rows);
    } else {
      assert rows + [] == rows;
    }
  }

  lemma RecordsCons(header: seq<string>, cells: seq<string>, rest: seq<seq<string>>, rows: seq<Row>)
    ensures var row := RowOf(header, cells);
      rows + Records(header, [cells] + rest)
      == (if row.epitome == "" then rows else rows + [row]) + Records(header, rest)
  {
    assert ([cells] + rest)[1..] == rest;
    var row, more := RowOf(header, cells), Records(header, rest);
    assert [] + more == more && rows + ([row] + more) == rows + [row] + more;
  }

  /** The inner loop over the rows of a table. */
  method ReadRows(header: seq<string>, lines: seq<string>, start: nat) returns (rows: seq<Row>)
    requires start <= |lines|
    ensures rows == Records(header, RowsFrom(lines[start..]))
  {
    rows := [];
    var j := start;
    ghost var goal := Records(header, RowsFrom(lines[start..]));
    assert rows + goal == goal;
    while j < |lines|
      invariant start <= j <= |lines|
      invariant goal == rows + Records(header, RowsFrom(lines[j..]))
      decreases |lines| - j
    {
      RowsStep(header, lines, j, rows);
      if !IsRow(lines[j]) { return; }
      var row := RowOf(header, SplitRow(lines[j]));
      if row.epitome != "" {
        rows := rows + [row];
      }
      j := j + 1;
    }
    assert lines[j..] == [];
    assert rows + [] == rows;
  }

  lemma TableStep(lines: seq<string>, i: nat)
    requires i < |lines|
    ensures Table(lines[i..]) == if TableAt(lines[i..]) != [] then Some(TableAt(lines[i..])) else Table(lines[i + 1..])
  {
    assert lines[i..][1..] == lines[i + 1..];
  }

  /** The records of a table that starts at a line. */
  method ReadTable(lines: seq<string>, i: nat) returns (rows: seq<Row>)
    requires i < |lines|
    ensures rows == TableAt(lines[i..])
  {
    rows := [];
    if IsHeaderRow(lines[i]) {
      var header := SplitRow(Trim(lines[i]));
      if i + 1 < |lines| && IsSeparator(lines[i + 1]) {
        assert lines[i..][1] == lines[i + 1] && lines[i..][2..] == lines[i + 2..];
        rows := ReadRows(header, lines, i + 2);
      }
    }
  }

  /** `parse_decisions_table` */
  method ParseDecisionsTable(content: string) returns (r: Option<seq<Row>>)
    ensures r == Table(Lines(content))
  {
    var lines := Lines(content);
    var i := 0;
    ghost var goal := Table(lines);
    assert lines[0..] == lines;
    while i < |lines|
      invariant i <= |lines|
      invariant goal == Table(lines[i..])
      decreases |lines| - i
    {
      TableStep(lines, i);
      var rows := ReadTable(lines, i);
      if rows != [] { return Some(rows); }
      i := i + 1;
    }
    return None;
  }

  // ---- Rendering and reading back ------------------------------------------------------

  /** A cell text a table can carry: trimmed and without a bar. */
  predicate CellValue(s: string) {
    Trimmed(s) && '|' !in s
  }

  predicate CellValues(cells: seq<string>) {
    cells != [] && forall s | s in cells :: CellValue(s)
  }

  /** The cells between bars, the outer bars left out. */
  function Inner(cells: seq<string>): string {
    if cells == [] then ""
    else if |cells| == 1 then " " + cells[0] + " " else " " + cells[0] + " |" + Inner(cells[1..])
  }

  function RenderRow(cells: seq<string>): string {
    "|" + Inner(cells) + "|"
  }

  lemma {:induction false} InnerEnds(cells: seq<string>)
    requires cells != []
    ensures |Inner(cells)| >= 2 && Inner(cells)[0] == ' ' && Inner(cells)[|Inner(cells)| - 1] == ' '
  {
    if |cells| > 1 {
      InnerEnds(cells[1..]);
    }
  }

  lemma PaddedCell(s: string)
    requires CellValue(s)
    ensures Trim(" " + s + " ") == s && '|' !in " " + s + " "
  {
    TrimCore(" ", s, " ");
  }

  lemma TrimAllCons(first: string, rest: seq<string>)
    ensures TrimAll([first] + rest) == [Trim(first)] + TrimAll(rest)
  {
  }

  lemma {:induction false} InnerStep(cells: seq<string>)
    requires |cells| > 1 && CellValue(cells[0])
    ensures TrimAll(Split(Inner(cells), '|')) == [cells[0]] + TrimAll(Split(Inner(cells[1..]), '|'))
  {
    var padded, rest := " " + cells[0] + " ", Inner(cells[1..]);
    PaddedCell(cells[0]);
    assert Inner(cells) == padded + ['|'] + rest;
    SplitOnce(padded, rest, '|');
    TrimAllCons(padded, Split(rest, '|'));
  }

  lemma {:induction false} InnerSplits(cells: seq<string>)
    requires CellValues(cells)
    ensures TrimAll(Split(Inner(cells), '|')) == cells
  {
    var padded, rest := " " + cells[0] + " ", cells[1..];
    assert CellValue(cells[0]);
    PaddedCell(cells[0]);
    assert cells == [cells[0]] + rest;
    if rest == [] {
      SplitNone(padded, '|');
      TrimAllCons(padded, []);
      assert TrimAll([]) == [];
    } else {
      assert CellValues(rest);
      InnerSplits(rest);
      InnerStep(cells);
    }
  }

  lemma RenderTrimmed(cells: seq<string>)
    requires cells != []
    ensures Trim(RenderRow(cells)) == RenderRow(cells)
  {
    var line := RenderRow(cells);
    TrimFixed(line);
  }

  lemma RenderUnbarred(cells: seq<string>)
    requires cells != []
    ensures TrimRightChar(TrimLeftChar(RenderRow(cells), '|'), '|') == Inner(cells)
  {
    var inner, line := Inner(cells), RenderRow(cells);
    InnerEnds(cells);
    assert line[1..] == inner + "|";
    assert TrimLeftChar(inner + "|", '|') == inner + "|";
    assert (inner + "|")[..|inner|] == inner;
    assert TrimRightChar(inner, '|') == inner;
  }

  /** Splitting a rendered row gives its cells back. */
  lemma {:induction false} RowRoundTrip(cells: seq<string>)
    requires CellValues(cells)
    ensures SplitRow(RenderRow(cells)) == cells
  {
    RenderTrimmed(cells);
    RenderUnbarred(cells);
    InnerSplits(cells);
  }

  lemma {:induction false} CountConcat(a: string, b: string, c: char)
    ensures CountChar(a + b, c) == CountChar(a, c) + CountChar(b, c)
  {
    if a == "" {
      assert a + b == b;
    } else {
      assert (a + b)[1..] == a[1..] + b;
      CountConcat(a[1..], b, c);
    }
  }

  lemma {:induction false} InnerBars(cells: seq<string>)
    requires cells != []
    ensures CountChar(Inner(cells), '|') >= |cells| - 1
  {
    if |cells| > 1 {
      var a := " " + cells[0] + " ";
      assert Inner(cells) == a + ("|" + Inner(cells[1..]));
      CountConcat(a, "|" + Inner(cells[1..]), '|');
      assert ("|" + Inner(cells[1..]))[1..] == Inner(cells[1..]);
      InnerBars(cells[1..]);
    }
  }

  lemma HeaderRecognised(cells: seq<string>)
    requires |cells| >= 2
    ensures IsHeaderRow(RenderRow(cells))
  {
    var inner, line := Inner(cells), RenderRow(cells);
    RenderTrimmed(cells);
    InnerBars(cells);
    CountConcat("|" + inner, "|", '|');
    assert CountChar("|", '|') == 1 + CountChar("|"[1..], '|');
    assert ("|" + inner)[1..] == inner;
    assert line[|line| - 1..] == "|";
  }

  function RenderRows(rows: seq<seq<string>>): seq<string> {
    seq(|rows|, i requires 0 <= i < |rows| => RenderRow(rows[i]))
  }

  lemma RowAndRest(row: seq<string>, rest: seq<string>)
    requires CellValues(row)
    ensures RowsFrom([RenderRow(row)] + rest) == [row] + RowsFrom(rest)
  {
    RowRoundTrip(row);
    RenderTrimmed(row);
    assert ([RenderRow(row)] + rest)[1..] == rest;
  }

  lemma RenderRowsCons(row: seq<string>, rest: seq<seq<string>>, post: seq<string>)
    ensures RenderRows([row] + rest) + post == [RenderRow(row)] + (RenderRows(rest) + post)
  {
  }

  lemma {:induction false} RowsRoundTrip(rows: seq<seq<string>>, post: seq<string>)
    requires forall r | r in rows :: CellValues(r)
    requires post == [] || !IsRow(post[0])
    ensures RowsFrom(RenderRows(rows) + post) == rows
  {
    if rows == [] {
      assert RenderRows(rows) + post == post;
    } else {
      var first, rest := rows[0], rows[1..];
      assert first in rows && rows == [first] + rest;
      RowsRoundTrip(rest, post);
      RenderRowsCons(first, rest, post);
      RowAndRest(first, RenderRows(rest) + post);
    }
  }

  lemma {:induction false} SkipToTable(pre: seq<string>, rest: seq<string>)
    requires forall l | l in pre :: !IsRow(l)
    ensures Table(pre + rest) == Table(rest)
  {
    if pre == [] {
      assert pre + rest == rest;
    } else {
      assert pre[0] in pre;
      assert (pre + rest)[0] == pre[0] && (pre + rest)[1..] == pre[1..] + rest;
      SkipToTable(pre[1..], rest);
    }
  }

  /**
   A rendered table reads back as the records its cells describe, in row order,
   whatever text stands around it.
   */
  lemma {:induction false} TableRoundTrip(
      pre: seq<string>, header: seq<string>, separator: string, rows: seq<seq<string>>, post: seq<string>)
    requires forall l | l in pre :: !IsRow(l)
    requires CellValues(header) && |header| >= 2 && IsSeparator(separator)
    requires forall r | r in rows :: CellValues(r)
    requires post == [] || !IsRow(post[0])
    requires Records(header, rows) != []
    ensures Table(pre + ([RenderRow(header), separator] + (RenderRows(rows) + post))) == Some(Records(header, rows))
  {
    var body := RenderRows(rows) + post;
    var rest := [RenderRow(header), separator] + body;
    SkipToTable(pre, rest);
    HeaderRecognised(header);
    RenderTrimmed(header);
    RowRoundTrip(header);
    assert rest[2..] == body;
    RowsRoundTrip(rows, post);
  }
}
