/** Markdown tables flattened for chat channels (internal/channels/base.go), after the table rules of
    GitHub Flavored Markdown, section 4.10. */
module Tables {
  import opened Text

  // ---------------------------------------------------------------- rows

  /** An unescaped pipe. */
  predicate BarAt(s: string, i: nat) {
    i < |s| && s[i] == '|' && (i == 0 || s[i - 1] != '\\')
  }

  predicate HasBar(s: string) {
    exists i :: 0 <= i < |s| && BarAt(s, i)
  }

  predicate TableRow(line: string) {
    var t := Trim(line);
    |t| >= 3 && t[0] == '|' && t[|t| - 1] == '|' && HasBar(t[1..|t| - 1])
  }

  method IsMarkdownTableRow(line: string) returns (row: bool)
    ensures row <==> TableRow(line)
  {
    var trimmed := Trim(line);
    if |trimmed| < 3 || trimmed[0] != '|' || trimmed[|trimmed| - 1] != '|' {
      return false;
    }
    var interior := trimmed[1..|trimmed| - 1];
    for i := 0 to |interior|
      invariant forall k :: 0 <= k < i ==> !BarAt(interior, k)
    {
      if interior[i] == '|' && (i == 0 || interior[i - 1] != '\\') {
        assert BarAt(interior, i);
        return true;
      }
    }
    return false;
  }

  /** The line without outer white space and without one pipe at each end. */
  function Interior(line: string): string {
    var t := Trim(line);
    var u := if t != "" && t[0] == '|' then t[1..] else t;
    if u != "" && u[|u| - 1] == '|' then u[..|u| - 1] else u
  }

  /** The cells of `s`, the first one begun with `cur`. */
  function Cells(s: string, cur: string): (cells: seq<string>)
    ensures cells != []
    decreases |s|
  {
    if s == "" then [Trim(cur)]
    else if |s| > 1 && s[0] == '\\' && s[1] == '|' then Cells(s[2..], cur + "|")
    else if s[0] == '|' then [Trim(cur)] + Cells(s[1..], "")
    else Cells(s[1..], cur + [s[0]])
  }

  function ParsedRow(line: string): seq<string> {
    Cells(Interior(line), "")
  }

  method ParseMarkdownTableRow(line: string) returns (cells: seq<string>)
    ensures cells == ParsedRow(line)
  {
    var trimmed := Trim(line);
    if trimmed != "" && trimmed[0] == '|' {
      trimmed := trimmed[1..];
    }
    if trimmed != "" && trimmed[|trimmed| - 1] == '|' {
      trimmed := trimmed[..|trimmed| - 1];
    }
    cells := ScanCells(trimmed);
  }

  lemma ScanStep(s: string, i: nat, cur: string)
    requires i < |s|
    ensures Cells(s[i..], cur) ==
            if s[i] == '\\' && i + 1 < |s| && s[i + 1] == '|' then Cells(s[i + 2..], cur + "|")
            else if s[i] == '|' then [Trim(cur)] + Cells(s[i + 1..], "")
            else Cells(s[i + 1..], cur + [s[i]])
  {
    assert s[i..][1..] == s[i + 1..];
    if i + 1 < |s| {
      assert s[i..][2..] == s[i + 2..];
    }
  }

  method ScanCells(s: string) returns (cells: seq<string>)
    ensures cells == Cells(s, "")
  {
    cells := [];
    var cur, i := "", 0;
    while i < |s|
      invariant 0 <= i <= |s|
      invariant cells + Cells(s[i..], cur) == Cells(s, "")
    {
      ScanStep(s, i, cur);
      var c := s[i];
      if c == '\\' && i + 1 < |s| && s[i + 1] == '|' {
        cur := cur + "|";
        i := i + 2;
        continue;
      }
      if c == '|' {
        cells := cells + [Trim(cur)];
        cur := "";
        i := i + 1;
        continue;
      }
      cur := cur + [c];
      i := i + 1;
    }
    cells := cells + [Trim(cur)];
  }

  /** Number of unescaped pipes; `esc` tells whether a backslash stands before `s`. */
  function Bars(s: string, esc: bool): nat {
    if s == "" then 0
    else (if s[0] == '|' && !esc then 1 else 0) + Bars(s[1..], s[0] == '\\')
  }

  /** The scanner cuts exactly at the unescaped pipes. */
  lemma {:induction false} CellsPerBar(s: string, cur: string)
    ensures |Cells(s, cur)| == 1 + Bars(s, false)
    decreases |s|
  {
    if s == "" {
    } else if |s| > 1 && s[0] == '\\' && s[1] == '|' {
      CellsPerBar(s[2..], cur + "|");
      assert s[1..][1..] == s[2..];
    } else if s[0] == '|' {
      CellsPerBar(s[1..], "");
    } else {
      CellsPerBar(s[1..], cur + [s[0]]);
    }
  }

  predicate BarIn(s: string, esc: bool, i: nat) {
    i < |s| && s[i] == '|' && if i == 0 then !esc else s[i - 1] != '\\'
  }

  lemma {:induction false} BarsFound(s: string, esc: bool)
    ensures Bars(s, esc) > 0 <==> exists i :: 0 <= i < |s| && BarIn(s, esc, i)
  {
    if s != "" {
      var more := s[0] == '\\';
      BarsFound(s[1..], more);
      assert s[0] == '|' && !esc ==> BarIn(s, esc, 0);
      forall i | 0 < i < |s| ensures BarIn(s, esc, i) <==> BarIn(s[1..], more, i - 1) {
      }
      if i :| 0 <= i < |s[1..]| && BarIn(s[1..], more, i) {
        assert BarIn(s, esc, i + 1);
      }
    }
  }

  lemma BarsIff(s: string)
    ensures HasBar(s) <==> Bars(s, false) > 0
  {
    BarsFound(s, false);
    assert forall i :: 0 <= i < |s| ==> (BarIn(s, false, i) <==> BarAt(s, i));
  }

  /** A line between outer pipes is accepted as a row exactly when it parses to two cells or more. */
  lemma AcceptedIffTwoCells(line: string)
    ensures var t := Trim(line);
            TableRow(line) <==> |t| >= 3 && t[0] == '|' && t[|t| - 1] == '|' && |ParsedRow(line)| >= 2
  {
    var t := Trim(line);
    if |t| >= 3 && t[0] == '|' && t[|t| - 1] == '|' {
      assert Interior(line) == t[1..|t| - 1];
      CellsPerBar(Interior(line), "");
      BarsIff(Interior(line));
    }
  }

  // ---------------------------------------------------------------- parsing inverts escaping

  /** A cell's text with its pipes escaped. */
  function Escaped(c: string): string {
    if c == "" then "" else (if c[0] == '|' then "\\|" else [c[0]]) + Escaped(c[1..])
  }

  /** `cell | cell | ... |`: the row after its first pipe. */
  function RowTail(cells: seq<string>): string {
    if cells == [] then "" else " " + Escaped(cells[0]) + " |" + RowTail(cells[1..])
  }

  function GfmRow(cells: seq<string>): string {
    "|" + RowTail(cells)
  }

  /** Scanning an escaped text followed by a space adds the plain text to the current cell. */
  lemma {:induction false} ScanEscaped(c: string, rest: string, cur: string)
    requires rest == "" || rest[0] != '|'
    ensures Cells(Escaped(c) + rest, cur) == Cells(rest, cur + c)
  {
    var s := Escaped(c) + rest;
    if c == "" {
      assert s == rest && cur + c == cur;
    } else if c[0] == '|' {
      assert s[2..] == Escaped(c[1..]) + rest;
      ScanEscaped(c[1..], rest, cur + "|");
      assert cur + "|" + c[1..] == cur + c;
    } else {
      EscapedHead(c[1..], rest);
      assert s[1..] == Escaped(c[1..]) + rest;
      ScanEscaped(c[1..], rest, cur + [c[0]]);
      assert cur + [c[0]] + c[1..] == cur + c;
    }
  }

  lemma EscapedHead(c: string, rest: string)
    requires rest == "" || rest[0] != '|'
    ensures Escaped(c) + rest == "" || (Escaped(c) + rest)[0] != '|'
  {
  }

  /** Everything but the last pipe of a row's tail parses to its cells. */
  lemma {:induction false} ParseTail(cells: seq<string>)
    requires cells != [] && forall k :: 0 <= k < |cells| ==> Trimmed(cells[k])
    ensures |RowTail(cells)| > 0 && RowTail(cells)[|RowTail(cells)| - 1] == '|'
    ensures Cells(RowTail(cells)[..|RowTail(cells)| - 1], "") == cells
  {
    var c, more := cells[0], RowTail(cells[1..]);
    var tail := RowTail(cells);
    TrimPadded(" ", c, " ");
    if |cells| == 1 {
      assert more == "";
      OneCell(c, tail);
      assert cells == [c];
    } else {
      ParseTail(cells[1..]);
      var body := more[..|more| - 1];
      assert tail[..|tail| - 1] == " " + Escaped(c) + " |" + body;
      ManyCells(c, body);
      assert cells == [c] + cells[1..];
    }
  }

  lemma CellOpens(c: string, rest: string)
    requires rest == "" || rest[0] == '|'
    ensures Cells(" " + Escaped(c) + " " + rest, "") == Cells(rest, " " + c + " ")
  {
    var s := " " + Escaped(c) + " " + rest;
    assert s[1..] == Escaped(c) + (" " + rest);
    assert "" + [s[0]] == " ";
    ScanEscaped(c, " " + rest, " ");
    assert (" " + rest)[1..] == rest;
  }

  lemma OneCell(c: string, tail: string)
    requires tail == " " + Escaped(c) + " |" + "" && Trim(" " + c + " ") == c
    ensures |tail| > 0 && tail[|tail| - 1] == '|' && Cells(tail[..|tail| - 1], "") == [c]
  {
    assert tail[..|tail| - 1] == " " + Escaped(c) + " " + "";
    CellOpens(c, "");
  }

  lemma ManyCells(c: string, body: string)
    requires Trim(" " + c + " ") == c
    ensures Cells(" " + Escaped(c) + " |" + body, "") == [c] + Cells(body, "")
  {
    CellOpens(c, "|" + body);
    assert " " + Escaped(c) + " |" + body == " " + Escaped(c) + " " + ("|" + body);
    assert ("|" + body)[1..] == body;
  }

  lemma PipedLine(tail: string)
    requires tail != "" && tail[|tail| - 1] == '|'
    ensures Trim("|" + tail) == "|" + tail && Interior("|" + tail) == tail[..|tail| - 1]
  {
    TrimTrimmed("|" + tail);
    assert ("|" + tail)[1..] == tail;
  }

  /** Parsing a row written by the rules of GFM gives back its cells, whatever they contain; and such a
      row is accepted exactly when it has two cells or more. */
  lemma ParseInvertsEscape(cells: seq<string>)
    requires cells != [] && forall k :: 0 <= k < |cells| ==> Trimmed(cells[k])
    ensures ParsedRow(GfmRow(cells)) == cells
    ensures TableRow(GfmRow(cells)) <==> |cells| >= 2
  {
    ParseTail(cells);
    PipedLine(RowTail(cells));
    AcceptedIffTwoCells(GfmRow(cells));
  }

  // ---------------------------------------------------------------- separators

  /** The cell without a colon at either end. */
  function Uncoloned(c: string): string {
    var u := if c != "" && c[0] == ':' then c[1..] else c;
    if u != "" && u[|u| - 1] == ':' then u[..|u| - 1] else u
  }

  /** Dashes with an optional colon at each end, or nothing at all. */
  predicate DashCell(cell: string) {
    var c := Trim(cell);
    c == "" || (Uncoloned(c) != "" && forall i :: 0 <= i < |Uncoloned(c)| ==> Uncoloned(c)[i] == '-')
  }

  /** A separator cell written out: maybe a colon, `n` dashes, maybe a colon. */
  function DashText(left: bool, n: nat, right: bool): string {
    (if left then ":" else "") + seq(n, _ => '-') + (if right then ":" else "")
  }

  /** What counts as a separator cell: white space, or at least one dash with an optional colon at each end. */
  lemma DashCellMeans(cell: string)
    ensures DashCell(cell) <==>
            Trim(cell) == "" || exists left: bool, n: nat, right: bool :: n > 0 && Trim(cell) == DashText(left, n, right)
  {
    var c := Trim(cell);
    if DashCell(cell) && c != "" {
      var left, right, n := c[0] == ':', c[|c| - 1] == ':', |Uncoloned(c)|;
      assert c == DashText(left, n, right);
    }
    forall left: bool, n: nat, right: bool | n > 0 && c == DashText(left, n, right) ensures DashCell(cell) {
      DashTextUncoloned(left, n, right);
    }
  }

  lemma DashTextUncoloned(left: bool, n: nat, right: bool)
    requires n > 0
    ensures Uncoloned(DashText(left, n, right)) == seq(n, _ => '-')
  {
    var c, dashes := DashText(left, n, right), seq(n, _ => '-');
    var u := if left then c[1..] else c;
    assert u == dashes + (if right then ":" else "");
    assert dashes[0] == '-' && dashes[n - 1] == '-';
    assert right ==> u[..|u| - 1] == dashes;
  }

  predicate Separator(line: string) {
    TableRow(line) && forall k :: 0 <= k < |ParsedRow(line)| ==> DashCell(ParsedRow(line)[k])
  }

  method IsMarkdownTableSeparator(line: string) returns (sep: bool)
    ensures sep <==> Separator(line)
  {
    var row := IsMarkdownTableRow(line);
    if !row {
      return false;
    }
    var cells := ParseMarkdownTableRow(line);
    if |cells| == 0 {
      return false;
    }
    for k := 0 to |cells|
      invariant forall j :: 0 <= j < k ==> DashCell(cells[j])
    {
      var c := Trim(cells[k]);
      if c == "" {
        continue;
      }
      c := Uncoloned(c);
      if c == "" {
        return false;
      }
      for i := 0 to |c|
        invariant forall j :: 0 <= j < i ==> c[j] == '-'
      {
        if c[i] != '-' {
          return false;
        }
      }
    }
    return true;
  }

  // ---------------------------------------------------------------- rendering

  function Widest(rows: seq<seq<string>>): nat {
    if rows == [] then 0
    else
      var w := Widest(rows[..|rows| - 1]);
      if |rows[|rows| - 1]| > w then |rows[|rows| - 1]| else w
  }

  function Padded(r: seq<string>, cols: nat): seq<string>
    decreases cols - |r|
  {
    if |r| < cols then Padded(r + [""], cols) else r
  }

  const DOT := " \U{B7} "

  /** The text line a row becomes in a table of `cols` columns. */
  function RowText(r: seq<string>, cols: nat): string {
    if cols == 2 then (if |r| > 0 then r[0] else "") + ": " + (if |r| > 1 then r[1] else "")
    else Join(Padded(r, cols), DOT)
  }

  function RowTexts(rows: seq<seq<string>>, cols: nat): seq<string> {
    seq(|rows|, k requires 0 <= k < |rows| => RowText(rows[k], cols))
  }

  method RenderFlatTable(rows: seq<seq<string>>) returns (b: string)
    ensures b == Join(RowTexts(rows, Widest(rows)), "\n")
  {
    if |rows| == 0 {
      return "";
    }
    var cols := 0;
    for i := 0 to |rows|
      invariant cols == Widest(rows[..i])
    {
      assert rows[..i + 1][..i] == rows[..i];
      if |rows[i]| > cols {
        cols := |rows[i]|;
      }
    }
    assert rows[..|rows|] == rows;
    b := "";
    for i := 0 to |rows|
      invariant b == Join(RowTexts(rows, cols)[..i], "\n")
    {
      ghost var texts := RowTexts(rows, cols);
      if i > 0 {
        JoinConcat(texts[..i], [texts[i]], "\n");
        b := b + "\n";
      }
      assert texts[..i + 1] == texts[..i] + [texts[i]];
      var line := RenderRow(rows[i], cols);
      b := b + line;
    }
    assert RowTexts(rows, cols)[..|rows|] == RowTexts(rows, cols);
  }

  method RenderRow(r: seq<string>, cols: nat) returns (line: string)
    ensures line == RowText(r, cols)
  {
    if cols == 2 {
      var left, right := "", "";
      if |r| > 0 {
        left := r[0];
      }
      if |r| > 1 {
        right := r[1];
      }
      return left + ": " + right;
    }
    var padded := r;
    while |padded| < cols
      invariant Padded(padded, cols) == Padded(r, cols)
    {
      padded := padded + [""];
    }
    return Join(padded, DOT);
  }

  /** The width of a table is that of its longest row. */
  lemma {:induction false} WidestMeans(rows: seq<seq<string>>)
    ensures forall k :: 0 <= k < |rows| ==> |rows[k]| <= Widest(rows)
    ensures rows != [] ==> exists k :: 0 <= k < |rows| && |rows[k]| == Widest(rows)
  {
    if rows != [] {
      var front := rows[..|rows| - 1];
      WidestMeans(front);
      if Widest(rows) != |rows[|rows| - 1]| {
        assert |front| == 0 ==> front == [] && Widest(front) == 0;
        var k :| 0 <= k < |front| && |front[k]| == Widest(front);
        assert rows[k] == front[k];
      }
      forall k | 0 <= k < |rows| ensures |rows[k]| <= Widest(rows) {
        assert k < |front| ==> rows[k] == front[k];
      }
    }
  }

  lemma {:induction false} PaddedMeans(r: seq<string>, cols: nat)
    ensures |Padded(r, cols)| == if |r| < cols then cols else |r|
    ensures Padded(r, cols)[..|r|] == r && forall k :: |r| <= k < |Padded(r, cols)| ==> Padded(r, cols)[k] == ""
    decreases cols - |r|
  {
    if |r| < cols {
      PaddedMeans(r + [""], cols);
      var p := Padded(r, cols);
      assert p[..|r| + 1] == r + [""] && p[..|r|] == p[..|r| + 1][..|r|];
    } else {
      assert r[..|r|] == r;
    }
  }

  /** Cell c of a row, or nothing if the row is shorter. */
  function CellOr(r: seq<string>, c: nat): string {
    if c < |r| then r[c] else ""
  }

  /** The text of a row that fits: in two columns key and value, else its cells and a blank for each one missing,
      between dots. */
  lemma RowTextMeans(r: seq<string>, cols: nat)
    requires |r| <= cols
    ensures RowText(r, cols) == if cols == 2 then CellOr(r, 0) + ": " + CellOr(r, 1)
                                else Join(seq(cols, c requires 0 <= c < cols => CellOr(r, c)), " \U{B7} ")
  {
    PaddedMeans(r, cols);
    assert forall c :: 0 <= c < |r| ==> Padded(r, cols)[c] == Padded(r, cols)[..|r|][c];
    assert Padded(r, cols) == seq(cols, c requires 0 <= c < cols => CellOr(r, c));
  }

  // ---------------------------------------------------------------- flattening

  predicate TableStart(lines: seq<string>) {
    |lines| > 1 && TableRow(lines[0]) && Separator(lines[1])
  }

  /** Number of rows a list of lines starts with. */
  function RowRun(lines: seq<string>): (n: nat)
    ensures n <= |lines|
    ensures forall k :: 0 <= k < n ==> TableRow(lines[k])
    ensures n < |lines| ==> !TableRow(lines[n])
  {
    if lines == [] || !TableRow(lines[0]) then 0 else 1 + RowRun(lines[1..])
  }

  function ParsedRows(lines: seq<string>): seq<seq<string>> {
    seq(|lines|, k requires 0 <= k < |lines| => ParsedRow(lines[k]))
  }

  /** The rows of the table a list of lines starts with, header first. */
  function TableRows(lines: seq<string>): seq<seq<string>>
    requires TableStart(lines)
  {
    [ParsedRow(lines[0])] + ParsedRows(lines[2..2 + RowRun(lines[2..])])
  }

  function TableTexts(lines: seq<string>): (texts: seq<string>)
    requires TableStart(lines)
    ensures |texts| == 1 + RowRun(lines[2..])
  {
    RowTexts(TableRows(lines), Widest(TableRows(lines)))
  }

  /** Line by line: each table gives way to its rows' texts, every other line stays. */
  function FlatLines(lines: seq<string>): seq<string>
    decreases |lines|
  {
    if lines == [] then []
    else if TableStart(lines) then TableTexts(lines) + FlatLines(lines[2 + RowRun(lines[2..])..])
    else [lines[0]] + FlatLines(lines[1..])
  }

  function Flattened(text: string): string {
    Join(FlatLines(Split(text, "\n")), "\n")
  }

  lemma NextRow(lines: seq<string>, from: nat, i: nat)
    requires from <= i < |lines|
    ensures ParsedRows(lines[from..i + 1]) == ParsedRows(lines[from..i]) + [ParsedRow(lines[i])]
    ensures RowRun(lines[i..]) == if TableRow(lines[i]) then 1 + RowRun(lines[i + 1..]) else 0
  {
    assert lines[i..][1..] == lines[i + 1..];
  }

  method ReadRows(lines: seq<string>, from: nat) returns (rows: seq<seq<string>>, i: nat)
    requires from <= |lines|
    ensures i == from + RowRun(lines[from..]) && i <= |lines|
    ensures rows == ParsedRows(lines[from..i])
  {
    rows, i := [], from;
    while i < |lines|
      invariant from <= i <= |lines|
      invariant rows == ParsedRows(lines[from..i])
      invariant i + RowRun(lines[i..]) == from + RowRun(lines[from..])
    {
      NextRow(lines, from, i);
      var row := IsMarkdownTableRow(lines[i]);
      if !row {
        return;
      }
      var cells := ParseMarkdownTableRow(lines[i]);
      rows := rows + [cells];
      i := i + 1;
    }
  }

  /** `out`, each entry one or several lines, reads the same as the single lines `flat`. */
  ghost predicate SameText(out: seq<string>, flat: seq<string>) {
    (out == [] <==> flat == []) && Join(out, "\n") == Join(flat, "\n")
  }

  lemma SameTextMore(out: seq<string>, flat: seq<string>, block: string, more: seq<string>)
    requires SameText(out, flat) && more != [] && block == Join(more, "\n")
    ensures SameText(out + [block], flat + more)
  {
    if out != [] {
      JoinConcat(out, [block], "\n");
      JoinConcat(flat, more, "\n");
    } else {
      assert out + [block] == [block] && flat + more == more;
    }
  }

  lemma Regroup(a: seq<string>, b: seq<string>, c: seq<string>)
    ensures a + b + c == a + (b + c) && a + [] == a
  {
  }

  method FlattenMarkdownTables(text: string) returns (r: string)
    ensures r == Flattened(text)
  {
    if '|' !in text {
      NoPipeNoTable(text);
      return text;
    }
    var lines := Split(text, "\n");
    var out: seq<string>, i := [], 0;
    ghost var flat: seq<string> := [];
    while i < |lines|
      invariant 0 <= i <= |lines|
      invariant SameText(out, flat) && flat + FlatLines(lines[i..]) == FlatLines(lines)
    {
      var block, next;
      ghost var more;
      block, next, more := NextBlock(lines, i);
      SameTextMore(out, flat, block, more);
      Regroup(flat, more, FlatLines(lines[next..]));
      i := next;
      out := out + [block];
      flat := flat + more;
    }
    Regroup(flat, [], []);
    return Join(out, "\n");
  }

  /** The table at line `from` rendered, or that line itself. */
  method NextBlock(lines: seq<string>, from: nat) returns (block: string, i: nat, ghost more: seq<string>)
    requires from < |lines|
    ensures from < i <= |lines| && more != [] && block == Join(more, "\n")
    ensures FlatLines(lines[from..]) == more + FlatLines(lines[i..])
  {
    var rest := lines[from..];
    var starts := false;
    if from + 1 < |lines| {
      starts := IsMarkdownTableRow(lines[from]);
      if starts {
        starts := IsMarkdownTableSeparator(lines[from + 1]);
      }
    }
    assert starts == TableStart(rest);
    if starts {
      var header := ParseMarkdownTableRow(lines[from]);
      var rows, j := ReadRows(lines, from + 2);
      assert rest[2..] == lines[from + 2..];
      assert rest[2..2 + RowRun(rest[2..])] == lines[from + 2..j];
      assert rest[2 + RowRun(rest[2..])..] == lines[j..];
      block := RenderFlatTable([header] + rows);
      i, more := j, TableTexts(rest);
    } else {
      assert rest[1..] == lines[from + 1..];
      block, i, more := lines[from], from + 1, [lines[from]];
    }
  }

  // ---------------------------------------------------------------- what flattening keeps and changes

  /** Number of tables begun before line `k`. */
  function TablesBefore(lines: seq<string>, k: nat): nat
    requires k <= |lines|
    decreases k
  {
    if k == 0 then 0
    else if TableStart(lines) then
      var n := 2 + RowRun(lines[2..]);
      1 + if k <= n then 0 else TablesBefore(lines[n..], k - n)
    else TablesBefore(lines[1..], k - 1)
  }

  /** Line `k` belongs to no table. */
  predicate Outside(lines: seq<string>, k: nat)
    requires k < |lines|
    decreases k
  {
    if TableStart(lines) then
      var n := 2 + RowRun(lines[2..]);
      k >= n && Outside(lines[n..], k - n)
    else k == 0 || Outside(lines[1..], k - 1)
  }

  function TableEnd(lines: seq<string>): (n: nat)
    requires TableStart(lines)
    ensures 2 <= n <= |lines|
  {
    2 + RowRun(lines[2..])
  }

  lemma FlatTable(lines: seq<string>)
    requires TableStart(lines)
    ensures FlatLines(lines) == TableTexts(lines) + FlatLines(lines[TableEnd(lines)..])
    ensures |TableTexts(lines)| == TableEnd(lines) - 1
  {
  }

  lemma TablesAfter(lines: seq<string>, k: nat)
    requires TableStart(lines) && TableEnd(lines) <= k <= |lines|
    ensures TablesBefore(lines, k) == 1 + TablesBefore(lines[TableEnd(lines)..], k - TableEnd(lines))
  {
  }

  lemma LineAndRest(lines: seq<string>)
    requires lines != [] && !TableStart(lines)
    ensures |FlatLines(lines)| == 1 + |FlatLines(lines[1..])|
    ensures TablesBefore(lines, |lines|) == TablesBefore(lines[1..], |lines| - 1)
  {
  }

  /** A table of k lines becomes k - 1 lines, whatever stands around it. */
  lemma {:induction false} OneLineLessPerTable(lines: seq<string>)
    ensures |FlatLines(lines)| == |lines| - TablesBefore(lines, |lines|)
    decreases |lines|
  {
    if lines == [] {
    } else if TableStart(lines) {
      FlatTable(lines);
      TablesAfter(lines, |lines|);
      OneLineLessPerTable(lines[TableEnd(lines)..]);
    } else {
      LineAndRest(lines);
      OneLineLessPerTable(lines[1..]);
    }
  }

  /** A line outside tables stays as it is; it moves up by one line per table before it. */
  lemma {:induction false} LineStays(lines: seq<string>, k: nat)
    requires k < |lines| && Outside(lines, k)
    ensures TablesBefore(lines, k) <= k && k - TablesBefore(lines, k) < |FlatLines(lines)|
    ensures FlatLines(lines)[k - TablesBefore(lines, k)] == lines[k]
    decreases |lines|
  {
    if TableStart(lines) {
      LineStays(lines[TableEnd(lines)..], k - TableEnd(lines));
      FlatTable(lines);
      TablesAfter(lines, k);
    } else if k > 0 {
      LineStays(lines[1..], k - 1);
    }
  }

  predicate AnyTable(lines: seq<string>) {
    exists i :: 0 <= i < |lines| && TableStart(lines[i..])
  }

  lemma AnyTableTail(lines: seq<string>)
    requires lines != [] && !TableStart(lines)
    ensures AnyTable(lines) <==> AnyTable(lines[1..])
  {
    if i :| 0 <= i < |lines| && TableStart(lines[i..]) {
      assert lines[0..] == lines;
      assert lines[1..][i - 1..] == lines[i..];
    }
    if i :| 0 <= i < |lines[1..]| && TableStart(lines[1..][i..]) {
      assert lines[1..][i..] == lines[i + 1..];
    }
  }

  lemma {:induction false} TablesFound(lines: seq<string>)
    ensures AnyTable(lines) <==> TablesBefore(lines, |lines|) > 0
    decreases |lines|
  {
    if lines != [] {
      assert lines[0..] == lines;
      if !TableStart(lines) {
        AnyTableTail(lines);
        TablesFound(lines[1..]);
      }
    }
  }

  lemma {:induction false} NoTableStays(lines: seq<string>)
    requires !AnyTable(lines)
    ensures FlatLines(lines) == lines
    decreases |lines|
  {
    if lines != [] {
      assert lines[0..] == lines;
      AnyTableTail(lines);
      NoTableStays(lines[1..]);
    }
  }

  /** Flattening changes a list of lines exactly when a table starts somewhere in it. */
  lemma FlatFixedIff(lines: seq<string>)
    ensures FlatLines(lines) == lines <==> !AnyTable(lines)
  {
    if AnyTable(lines) {
      TablesFound(lines);
      OneLineLessPerTable(lines);
    } else {
      NoTableStays(lines);
    }
  }

  // ---------------------------------------------------------------- characters

  /** None of the texts holds the character. */
  predicate Free(texts: seq<string>, c: char) {
    forall k :: 0 <= k < |texts| ==> c !in texts[k]
  }

  lemma TrimFree(s: string, c: char)
    requires c !in s
    ensures c !in Trim(s)
  {
    var lo := TrimMeans(s);
  }

  lemma {:induction false} SplitFree(text: string, sep: string, c: char)
    requires sep != "" && c !in text
    ensures Free(Split(text, sep), c)
    decreases |text|
  {
    var k := IndexOf(text, sep);
    if k >= 0 {
      SplitFree(text[k + |sep|..], sep, c);
    }
  }

  lemma {:induction false} JoinFree(parts: seq<string>, sep: string, c: char)
    requires Free(parts, c) && c !in sep
    ensures c !in Join(parts, sep)
  {
    if |parts| > 1 {
      JoinFree(parts[1..], sep, c);
    }
  }

  /** A character that is not in the scanned text gets into no cell; the pipe can, but only escaped. */
  lemma {:induction false} CellsFree(s: string, cur: string, c: char)
    requires c !in cur
    requires if c == '|' then !Contains(s, "\\|") else c !in s
    ensures Free(Cells(s, cur), c)
    decreases |s|
  {
    TrimFree(cur, c);
    if s == "" {
    } else if |s| > 1 && s[0] == '\\' && s[1] == '|' {
      assert s[0..2] == "\\|";
      assert OccursAt(s, "\\|", 0);
      CellsFree(s[2..], cur + "|", c);
    } else {
      TailFree(s);
      CellsFree(s[1..], if s[0] == '|' then "" else cur + [s[0]], c);
    }
  }

  lemma TailFree(s: string)
    requires s != ""
    ensures !Contains(s, "\\|") ==> !Contains(s[1..], "\\|")
  {
    if i: nat :| OccursAt(s[1..], "\\|", i) {
      assert s[i + 1..i + 3] == s[1..][i..i + 2];
      assert OccursAt(s, "\\|", i + 1);
    }
  }

  lemma NoPipeNoTable(text: string)
    requires '|' !in text
    ensures Flattened(text) == text
  {
    var lines := Split(text, "\n");
    SplitFree(text, "\n", '|');
    if i :| 0 <= i < |lines| && TableStart(lines[i..]) {
      assert lines[i..][0] == lines[i];
      TrimFree(lines[i], '|');
      assert false;
    }
    NoTableStays(lines);
    JoinSplit(text, "\n");
  }

  /** What keeps a character out of a row's cells. */
  ghost predicate Clean(line: string, c: char) {
    if c == '|' then !Contains(line, "\\|") else c !in line
  }

  lemma InteriorSlice(line: string) returns (lo: nat)
    ensures lo + |Interior(line)| <= |line| && Interior(line) == line[lo..lo + |Interior(line)|]
  {
    lo := TrimMeans(line);
    var t := Trim(line);
    if t != "" && t[0] == '|' {
      lo := lo + 1;
    }
  }

  lemma InteriorClean(line: string, c: char)
    requires Clean(line, c)
    ensures Clean(Interior(line), c)
  {
    var lo := InteriorSlice(line);
    var s := Interior(line);
    if i: nat :| OccursAt(s, "\\|", i) {
      OccursInside(line, lo, lo + |s|, "\\|", i);
      assert OccursAt(line, "\\|", lo + i);
    }
  }

  lemma ParsedRowFree(line: string, c: char)
    requires Clean(line, c)
    ensures Free(ParsedRow(line), c)
  {
    InteriorClean(line, c);
    CellsFree(Interior(line), "", c);
  }

  lemma {:induction false} PaddedFree(r: seq<string>, cols: nat, c: char)
    requires Free(r, c)
    ensures Free(Padded(r, cols), c)
    decreases cols - |r|
  {
    if |r| < cols {
      PaddedFree(r + [""], cols, c);
    }
  }

  lemma RowTextFree(r: seq<string>, cols: nat, c: char)
    requires Free(r, c) && c !in ": " && c !in DOT
    ensures c !in RowText(r, cols)
  {
    if cols != 2 {
      PaddedFree(r, cols, c);
      JoinFree(Padded(r, cols), DOT, c);
    }
  }

  /** The lines a table consists of. */
  ghost predicate CleanRows(lines: seq<string>, c: char) {
    forall k :: 0 <= k < |lines| && TableRow(lines[k]) ==> Clean(lines[k], c)
  }

  lemma TableTextsFree(lines: seq<string>, c: char)
    requires TableStart(lines) && CleanRows(lines[..TableEnd(lines)], c) && c !in ": " && c !in DOT
    ensures Free(TableTexts(lines), c)
  {
    var rows := TableRows(lines);
    forall k | 0 <= k < |rows| ensures c !in RowText(rows[k], Widest(rows)) {
      var at := RowAt(lines, k);
      assert lines[..TableEnd(lines)][at] == lines[at];
      ParsedRowFree(lines[at], c);
      RowTextFree(rows[k], Widest(rows), c);
    }
  }

  /** Where the k-th row of a table stands: the separator is skipped. */
  lemma RowAt(lines: seq<string>, k: nat) returns (at: nat)
    requires TableStart(lines) && k < |TableRows(lines)|
    ensures at < TableEnd(lines) && TableRow(lines[at]) && TableRows(lines)[k] == ParsedRow(lines[at])
    ensures at == if k == 0 then 0 else k + 1
  {
    if k == 0 {
      at := 0;
    } else {
      at := k + 1;
      assert lines[2..][k - 1] == lines[at];
      assert lines[2..TableEnd(lines)][k - 1] == lines[at];
    }
  }

  /** Line k of a flattened table: from the header or the k-th row below the separator, key and value in a
      table of two columns, else its cells, a blank for each missing one, between dots. */
  lemma TableLineBecomes(lines: seq<string>, k: nat)
    requires TableStart(lines) && k < |TableTexts(lines)|
    ensures var cols, at := Widest(TableRows(lines)), if k == 0 then 0 else k + 1;
            && at < |lines| && |ParsedRow(lines[at])| <= cols
            && var r := ParsedRow(lines[at]);
               TableTexts(lines)[k] == if cols == 2 then CellOr(r, 0) + ": " + CellOr(r, 1)
                                       else Join(seq(cols, c requires 0 <= c < cols => CellOr(r, c)), " \U{B7} ")
  {
    var at := RowAt(lines, k);
    WidestMeans(TableRows(lines));
    RowTextMeans(ParsedRow(lines[at]), Widest(TableRows(lines)));
  }

  lemma {:induction false} FlatNewlineFree(lines: seq<string>)
    requires Free(lines, '\n')
    ensures Free(FlatLines(lines), '\n')
    decreases |lines|
  {
    if lines == [] {
    } else if TableStart(lines) {
      TableTextsFree(lines, '\n');
      FlatNewlineFree(lines[TableEnd(lines)..]);
    } else {
      FlatNewlineFree(lines[1..]);
    }
  }

  lemma NewlineFree(p: string)
    ensures Contains(p, "\n") <==> '\n' in p
  {
    if i: nat :| OccursAt(p, "\n", i) {
      assert p[i..i + 1][0] == p[i];
    }
    if i :| 0 <= i < |p| && p[i] == '\n' {
      assert p[i..i + 1] == "\n";
      assert OccursAt(p, "\n", i);
    }
  }

  /** The lines of the flattened text are the flattened lines: no rendered row breaks over lines. */
  lemma LinesOfFlattened(text: string)
    ensures Split(Flattened(text), "\n") == FlatLines(Split(text, "\n"))
  {
    var lines := Split(text, "\n");
    PiecesFree(text, "\n");
    forall k | 0 <= k < |lines| ensures '\n' !in lines[k] {
      assert lines[k] in lines;
      NewlineFree(lines[k]);
    }
    FlatNewlineFree(lines);
    forall p | p in FlatLines(lines) ensures !Contains(p, "\n") {
      NewlineFree(p);
    }
    FlatNotEmpty(lines);
    SplitJoin(FlatLines(lines), "\n");
  }

  lemma FlatNotEmpty(lines: seq<string>)
    requires lines != []
    ensures FlatLines(lines) != []
  {
  }

  // ---------------------------------------------------------------- flattening twice

  lemma NoPipeNoRow(line: string)
    requires '|' !in line
    ensures !TableRow(line)
  {
    TrimFree(line, '|');
  }

  /** Lines i and i + 1 look like a header and its separator. */
  predicate PairAt(lines: seq<string>, i: nat) {
    i + 1 < |lines| && TableRow(lines[i]) && Separator(lines[i + 1])
  }

  predicate AnyPair(lines: seq<string>) {
    exists i :: 0 <= i < |lines| && PairAt(lines, i)
  }

  lemma TablesArePairs(lines: seq<string>)
    ensures AnyTable(lines) <==> AnyPair(lines)
  {
    assert forall i :: 0 <= i < |lines| ==> (TableStart(lines[i..]) <==> PairAt(lines, i));
  }

  lemma PairConcat(a: seq<string>, b: seq<string>)
    ensures AnyPair(a + b) <==> AnyPair(a) || AnyPair(b) || (a != [] && b != [] && TableRow(a[|a| - 1]) && Separator(b[0]))
  {
    var c := a + b;
    assert forall i :: 0 <= i < |a| - 1 ==> PairAt(c, i) == PairAt(a, i);
    forall i | 0 <= i < |b| ensures PairAt(c, |a| + i) == PairAt(b, i) {
    }
    if a != [] && b != [] && TableRow(a[|a| - 1]) && Separator(b[0]) {
      assert PairAt(c, |a| - 1);
    }
    if i :| 0 <= i < |c| && PairAt(c, i) && i >= |a| {
      assert PairAt(b, i - |a|);
    }
  }

  /** Outside the characters a separator is made of nothing may appear but white space. */
  lemma OddNoSeparator(line: string, c: char)
    requires c in line && !IsSpace(c) && c !in "|-:\\"
    ensures !Separator(line)
  {
    InteriorHas(line, c);
    var k := CellsHave(Interior(line), "", c);
    TrimHas(ParsedRow(line)[k], c);
    var t := Trim(ParsedRow(line)[k]);
    assert c in Uncoloned(t);
  }

  lemma TrimHas(s: string, c: char)
    requires c in s && !IsSpace(c)
    ensures c in Trim(s)
  {
    var lo := TrimMeans(s);
    var hi := lo + |Trim(s)|;
    var i :| 0 <= i < |s| && s[i] == c;
    assert forall k :: 0 <= k < lo ==> s[..lo][k] == s[k];
    assert forall k :: hi <= k < |s| ==> s[hi..][k - hi] == s[k];
    assert s[lo..hi][i - lo] == s[i];
  }

  lemma InteriorHas(line: string, c: char)
    requires c in line && !IsSpace(c) && c != '|'
    ensures c in Interior(line)
  {
    TrimHas(line, c);
    var t := Trim(line);
    var u := if t != "" && t[0] == '|' then t[1..] else t;
    assert t == [t[0]] + t[1..];
    assert c in u;
    if u[|u| - 1] == '|' {
      assert u == u[..|u| - 1] + [u[|u| - 1]];
    }
  }

  lemma {:induction false} CellsHave(s: string, cur: string, c: char) returns (k: nat)
    requires (c in s || c in cur) && !IsSpace(c) && c !in "|\\"
    ensures k < |Cells(s, cur)| && c in Cells(s, cur)[k]
    decreases |s|
  {
    k := 0;
    if s == "" {
      TrimHas(cur, c);
    } else if |s| > 1 && s[0] == '\\' && s[1] == '|' {
      assert s == [s[0], s[1]] + s[2..];
      k := CellsHave(s[2..], cur + "|", c);
    } else if s[0] == '|' {
      assert s == [s[0]] + s[1..];
      if c in cur {
        TrimHas(cur, c);
      } else {
        k := CellsHave(s[1..], "", c);
        k := k + 1;
      }
    } else {
      assert s == [s[0]] + s[1..];
      k := CellsHave(s[1..], cur + [s[0]], c);
    }
  }

  lemma {:induction false} PaddedFills(r: seq<string>, cols: nat)
    ensures |Padded(r, cols)| >= cols
    decreases cols - |r|
  {
    if |r| < cols {
      PaddedFills(r + [""], cols);
    }
  }

  /** The dots of a wide table's rows keep them from looking like separators. */
  lemma WideNoSeparator(r: seq<string>, cols: nat)
    requires cols > 2
    ensures !Separator(RowText(r, cols))
  {
    PaddedFills(r, cols);
    var p := Padded(r, cols);
    assert Join(p, DOT) == p[0] + DOT + Join(p[1..], DOT);
    assert RowText(r, cols)[|p[0]| + 1] == DOT[1];
    OddNoSeparator(RowText(r, cols), DOT[1]);
  }

  /** A table begins at line i, as the scan goes. */
  predicate StartsAt(lines: seq<string>, i: nat): (b: bool)
    requires i < |lines|
    ensures b ==> TableStart(lines[i..])
    decreases |lines|
  {
    if TableStart(lines) then
      var n := TableEnd(lines);
      assert i >= n ==> lines[n..][i - n..] == lines[i..];
      assert lines[0..] == lines;
      i == 0 || (i >= n && StartsAt(lines[n..], i - n))
    else
      assert i > 0 ==> lines[1..][i - 1..] == lines[i..];
      i > 0 && StartsAt(lines[1..], i - 1)
  }

  /** Read in two columns, row k looks like a separator, and the line before it like a header: the row
      before it, or for the first row the line `prev`. */
  predicate SeparatorBelow(prev: string, rows: seq<seq<string>>, k: nat)
    requires k < |rows|
  {
    Separator(RowText(rows[k], 2)) && TableRow(if k == 0 then prev else RowText(rows[k - 1], 2))
  }

  /** The table that `lines` begin with has two columns and such a row; `prev` is the line before it. */
  predicate ComesAgain(prev: string, lines: seq<string>)
    requires TableStart(lines)
  {
    var rows := TableRows(lines);
    Widest(rows) == 2 && exists k :: 0 <= k < |rows| && SeparatorBelow(prev, rows, k)
  }

  /** A table begins at line i and comes again; `prev` stands for the line before the first. */
  predicate AgainAt(prev: string, lines: seq<string>, i: nat)
    requires i < |lines|
  {
    StartsAt(lines, i) && ComesAgain(if i == 0 then prev else lines[i - 1], lines[i..])
  }

  /** Some table of the text comes again after flattening. */
  predicate Reemerges(lines: seq<string>) {
    exists i :: 0 <= i < |lines| && AgainAt("", lines, i)
  }

  /** The same along the scan, `prev` being the last line copied, or blank. */
  predicate ReemergesAfter(prev: string, lines: seq<string>)
    decreases |lines|
  {
    if lines == [] then false
    else if TableStart(lines) then ComesAgain(prev, lines) || ReemergesAfter("", lines[TableEnd(lines)..])
    else ReemergesAfter(lines[0], lines[1..])
  }

  lemma StartsInTable(lines: seq<string>, i: nat)
    requires TableStart(lines) && i < |lines|
    ensures StartsAt(lines, i) == (i == 0 || (i >= TableEnd(lines) && StartsAt(lines[TableEnd(lines)..], i - TableEnd(lines))))
    ensures i == TableEnd(lines) ==> !StartsAt(lines, i)
  {
    if i == TableEnd(lines) {
      NoTableAfterTable(lines);
      assert lines[i..][0..] == lines[i..];
    }
  }

  lemma AgainInTable(prev: string, lines: seq<string>, i: nat)
    requires TableStart(lines) && i < |lines|
    ensures var n := TableEnd(lines);
            AgainAt(prev, lines, i) ==
            if i == 0 then ComesAgain(prev, lines) else i >= n && AgainAt("", lines[n..], i - n)
  {
    StartsInTable(lines, i);
    if i == 0 {
      assert lines[0..] == lines;
    } else if i >= TableEnd(lines) {
      SameSuffix(lines, TableEnd(lines), i);
    }
  }

  lemma SameSuffix(lines: seq<string>, n: nat, i: nat)
    requires n <= i <= |lines|
    ensures lines[n..][i - n..] == lines[i..]
    ensures i > n ==> lines[n..][i - n - 1] == lines[i - 1]
  {
  }

  lemma AgainInLine(prev: string, lines: seq<string>, i: nat)
    requires !TableStart(lines) && i < |lines|
    ensures AgainAt(prev, lines, i) == (i > 0 && AgainAt(lines[0], lines[1..], i - 1))
  {
    if i > 0 {
      assert lines[1..][i - 1..] == lines[i..];
      assert i > 1 ==> lines[1..][i - 2] == lines[i - 1];
    } else {
      assert lines[0..] == lines;
    }
  }

  ghost predicate AnyAgain(prev: string, lines: seq<string>) {
    exists i :: 0 <= i < |lines| && AgainAt(prev, lines, i)
  }

  lemma AnyAgainTable(prev: string, lines: seq<string>, n: nat, rest: seq<string>)
    requires TableStart(lines) && n == TableEnd(lines) && rest == lines[n..]
    ensures AnyAgain(prev, lines) <==> ComesAgain(prev, lines) || AnyAgain("", rest)
  {
    AgainInTable(prev, lines, 0);
    AgainUp(prev, lines, n, rest);
    AgainDown(prev, lines, n, rest);
  }

  lemma AgainUp(prev: string, lines: seq<string>, n: nat, rest: seq<string>)
    requires TableStart(lines) && n == TableEnd(lines) && rest == lines[n..]
    ensures AnyAgain("", rest) ==> AnyAgain(prev, lines)
  {
    if AnyAgain("", rest) {
      var i :| 0 <= i < |rest| && AgainAt("", rest, i);
      AgainInTable(prev, lines, i + n);
    }
  }

  lemma AgainDown(prev: string, lines: seq<string>, n: nat, rest: seq<string>)
    requires TableStart(lines) && n == TableEnd(lines) && rest == lines[n..]
    ensures AnyAgain(prev, lines) ==> ComesAgain(prev, lines) || AnyAgain("", rest)
  {
    if AnyAgain(prev, lines) {
      var i :| 0 <= i < |lines| && AgainAt(prev, lines, i);
      AgainInTable(prev, lines, i);
    }
  }

  lemma AnyAgainLine(prev: string, lines: seq<string>, rest: seq<string>)
    requires lines != [] && !TableStart(lines) && rest == lines[1..]
    ensures AnyAgain(prev, lines) <==> AnyAgain(lines[0], rest)
  {
    if AnyAgain(prev, lines) {
      var i :| 0 <= i < |lines| && AgainAt(prev, lines, i);
      AgainInLine(prev, lines, i);
      assert AgainAt(lines[0], rest, i - 1);
    }
    if AnyAgain(lines[0], rest) {
      var i :| 0 <= i < |rest| && AgainAt(lines[0], rest, i);
      AgainInLine(prev, lines, i + 1);
    }
  }

  lemma {:induction false} ReemergesMeans(prev: string, lines: seq<string>)
    ensures ReemergesAfter(prev, lines) <==> AnyAgain(prev, lines)
    decreases |lines|
  {
    if lines == [] {
    } else if TableStart(lines) {
      AnyAgainTable(prev, lines, TableEnd(lines), lines[TableEnd(lines)..]);
      ReemergesMeans("", lines[TableEnd(lines)..]);
    } else {
      AnyAgainLine(prev, lines, lines[1..]);
      ReemergesMeans(lines[0], lines[1..]);
    }
  }

  /** The line after a table is no row, so it is copied and starts nothing. */
  lemma NoTableAfterTable(lines: seq<string>)
    requires TableStart(lines)
    ensures var rest := lines[TableEnd(lines)..];
            rest != [] ==> !TableRow(rest[0]) && !TableStart(rest) && FlatLines(rest)[0] == rest[0]
  {
  }

  /** The texts of a table, after the line `prev`. */
  lemma TextsPair(prev: string, lines: seq<string>)
    requires TableStart(lines)
    ensures AnyPair([prev] + TableTexts(lines)) <==> ComesAgain(prev, lines)
  {
    var rows := TableRows(lines);
    WidestTwo(lines);
    if Widest(rows) == 2 {
      NarrowPair(prev, rows);
    } else {
      WidePair(prev, rows, Widest(rows));
    }
  }

  lemma NarrowPair(prev: string, rows: seq<seq<string>>)
    ensures AnyPair([prev] + RowTexts(rows, 2)) <==> exists k :: 0 <= k < |rows| && SeparatorBelow(prev, rows, k)
  {
    var all := [prev] + RowTexts(rows, 2);
    forall k | 0 <= k < |rows| ensures PairAt(all, k) <==> SeparatorBelow(prev, rows, k) {
      assert all[k + 1] == RowText(rows[k], 2);
    }
  }

  lemma WidePair(prev: string, rows: seq<seq<string>>, w: nat)
    requires w > 2
    ensures !AnyPair([prev] + RowTexts(rows, w))
  {
    var all := [prev] + RowTexts(rows, w);
    forall k | 0 <= k < |rows| ensures !PairAt(all, k) {
      assert all[k + 1] == RowText(rows[k], w);
      WideNoSeparator(rows[k], w);
    }
  }

  lemma WidestTwo(lines: seq<string>)
    requires TableStart(lines)
    ensures Widest(TableRows(lines)) >= 2
  {
    AcceptedIffTwoCells(lines[0]);
    WidestAtLeast(TableRows(lines), 0);
  }

  lemma {:induction false} WidestAtLeast(rows: seq<seq<string>>, k: nat)
    requires k < |rows|
    ensures Widest(rows) >= |rows[k]|
  {
    if k < |rows| - 1 {
      WidestAtLeast(rows[..|rows| - 1], k);
    }
  }

  /** Flattened lines hold a table exactly when a table of the input comes again. */
  lemma {:induction false} FlatPairs(prev: string, lines: seq<string>)
    requires lines != [] && TableRow(prev) ==> !Separator(lines[0])
    ensures AnyPair([prev] + FlatLines(lines)) <==> ReemergesAfter(prev, lines)
    decreases |lines|
  {
    if lines == [] {
    } else if TableStart(lines) {
      TablePairs(prev, lines);
      NoPipeNoRow("");
      FlatPairs("", lines[TableEnd(lines)..]);
    } else {
      var rest := lines[1..];
      FlatPairs(lines[0], rest);
      PairConcat([prev], [lines[0]] + FlatLines(rest));
    }
  }

  lemma TablePairs(prev: string, lines: seq<string>)
    requires TableStart(lines)
    ensures AnyPair([prev] + FlatLines(lines)) <==>
            ComesAgain(prev, lines) || AnyPair([""] + FlatLines(lines[TableEnd(lines)..]))
  {
    var texts, after := TableTexts(lines), FlatLines(lines[TableEnd(lines)..]);
    FlatTable(lines);
    NoTableAfterTable(lines);
    TextsPair(prev, lines);
    PairConcat([prev] + texts, after);
    PairConcat([""], after);
    NoPipeNoRow("");
    Regroup([prev], texts, after);
  }

  /** No row of any table of the text has an escaped pipe. */
  ghost predicate PlainTables(lines: seq<string>) {
    forall i :: 0 <= i < |lines| && StartsAt(lines, i) ==> CleanRows(lines[i..][..TableEnd(lines[i..])], '|')
  }

  lemma PlainTablesDoNot(lines: seq<string>)
    requires PlainTables(lines)
    ensures !Reemerges(lines)
  {
    forall i | 0 <= i < |lines| && StartsAt(lines, i)
      ensures !AgainAt("", lines, i)
    {
      PlainComesNot(if i == 0 then "" else lines[i - 1], lines[i..]);
    }
  }

  lemma PlainComesNot(prev: string, lines: seq<string>)
    requires TableStart(lines) && CleanRows(lines[..TableEnd(lines)], '|')
    ensures !ComesAgain(prev, lines)
  {
    TableTextsFree(lines, '|');
    var rows := TableRows(lines);
    forall k | 0 <= k < |rows| && Widest(rows) == 2 ensures !Separator(RowText(rows[k], 2)) {
      assert TableTexts(lines)[k] == RowText(rows[k], 2);
      NoPipeNoRow(RowText(rows[k], 2));
    }
  }

  /** Flattening is idempotent on a text exactly when no two-column table of it has a row that reads like
      a separator below a line that reads like a row; in particular when no row of a table has an escaped pipe. */
  lemma FlattenTwice(text: string)
    ensures Flattened(Flattened(text)) == Flattened(text) <==> !Reemerges(Split(text, "\n"))
    ensures PlainTables(Split(text, "\n")) ==> Flattened(Flattened(text)) == Flattened(text)
  {
    var lines := Split(text, "\n");
    var flat := FlatLines(lines);
    LinesOfFlattened(text);
    LinesOfFlattened(Flattened(text));
    FlatFixedIff(flat);
    FlatReemerges(lines);
    JoinFlat(flat, text);
    if PlainTables(lines) {
      PlainTablesDoNot(lines);
    }
  }

  lemma FlatReemerges(lines: seq<string>)
    ensures AnyTable(FlatLines(lines)) <==> Reemerges(lines)
  {
    NoPipeNoRow("");
    FlatPairs("", lines);
    PairConcat([""], FlatLines(lines));
    TablesArePairs(FlatLines(lines));
    ReemergesMeans("", lines);
  }

  lemma JoinFlat(flat: seq<string>, text: string)
    requires Split(Flattened(text), "\n") == flat
    ensures Join(FlatLines(flat), "\n") == Flattened(text) <==> FlatLines(flat) == flat
  {
    JoinSplit(Flattened(text), "\n");
    LinesOfFlattened(Flattened(text));
  }

  lemma {:induction false} AllRowsRun(lines: seq<string>)
    requires forall k :: 0 <= k < |lines| ==> TableRow(lines[k])
    ensures RowRun(lines) == |lines|
  {
    if lines != [] {
      AllRowsRun(lines[1..]);
    }
  }

  lemma {:induction false} WidestIs(rows: seq<seq<string>>, w: nat)
    requires rows != [] && forall k :: 0 <= k < |rows| ==> |rows[k]| == w
    ensures Widest(rows) == w
  {
    if |rows| > 1 {
      WidestIs(rows[..|rows| - 1], w);
    } else {
      assert rows[..0] == [];
    }
  }

  /** A table written by the rules of GFM, header first. */
  function GfmTable(rows: seq<seq<string>>, sep: string): seq<string>
    requires rows != []
  {
    [GfmRow(rows[0]), sep] + seq(|rows| - 1, k requires 0 <= k < |rows| - 1 => GfmRow(rows[k + 1]))
  }

  ghost predicate GfmCells(rows: seq<seq<string>>, w: nat) {
    && rows != [] && w > 1
    && (forall k :: 0 <= k < |rows| ==> |rows[k]| == w)
    && (forall k, c :: 0 <= k < |rows| && 0 <= c < |rows[k]| ==> Trimmed(rows[k][c]))
  }

  lemma GfmRowParses(rows: seq<seq<string>>, w: nat, k: nat)
    requires GfmCells(rows, w) && k < |rows|
    ensures ParsedRow(GfmRow(rows[k])) == rows[k] && TableRow(GfmRow(rows[k]))
  {
    ParseInvertsEscape(rows[k]);
  }

  lemma GfmDataAt(rows: seq<seq<string>>, sep: string, k: nat)
    requires k + 1 < |rows|
    ensures |GfmTable(rows, sep)[2..]| == |rows| - 1 && GfmTable(rows, sep)[2..][k] == GfmRow(rows[k + 1])
  {
  }

  lemma GfmDataParses(rows: seq<seq<string>>, w: nat, sep: string)
    requires GfmCells(rows, w)
    ensures var data := GfmTable(rows, sep)[2..];
            |data| == |rows| - 1 && forall k :: 0 <= k < |data| ==> TableRow(data[k]) && ParsedRow(data[k]) == rows[k + 1]
  {
    var data := GfmTable(rows, sep)[2..];
    forall k | 0 <= k < |data| ensures TableRow(data[k]) && ParsedRow(data[k]) == rows[k + 1] {
      GfmRowParses(rows, w, k + 1);
      GfmDataAt(rows, sep, k);
    }
  }

  lemma GfmTableRows(rows: seq<seq<string>>, w: nat, sep: string)
    requires GfmCells(rows, w) && Separator(sep)
    ensures var lines := GfmTable(rows, sep);
            TableStart(lines) && RowRun(lines[2..]) == |rows| - 1 && TableRows(lines) == rows
  {
    var lines := GfmTable(rows, sep);
    GfmRowParses(rows, w, 0);
    GfmDataParses(rows, w, sep);
    AllRowsRun(lines[2..]);
    SameRows(lines, lines[2..], rows);
  }

  lemma SameRows(lines: seq<string>, data: seq<string>, rows: seq<seq<string>>)
    requires TableStart(lines) && data == lines[2..] && RowRun(data) == |data| == |rows| - 1
    requires ParsedRow(lines[0]) == rows[0]
    requires forall k :: 0 <= k < |data| ==> ParsedRow(data[k]) == rows[k + 1]
    ensures TableRows(lines) == rows
  {
    assert lines[2..2 + RowRun(data)] == data;
    ParsedAre(data, rows);
  }

  lemma ParsedAre(data: seq<string>, rows: seq<seq<string>>)
    requires |data| == |rows| - 1
    requires forall k :: 0 <= k < |data| ==> ParsedRow(data[k]) == rows[k + 1]
    ensures [rows[0]] + ParsedRows(data) == rows
  {
  }

  lemma WholeTable(lines: seq<string>)
    requires TableStart(lines) && 2 + RowRun(lines[2..]) == |lines|
    ensures FlatLines(lines) == TableTexts(lines)
  {
    assert lines[|lines|..] == [];
    Regroup(TableTexts(lines), [], []);
  }

  /** A table of equally long rows, whatever its cells contain, comes out as exactly its rows' texts. */
  lemma GfmTableFlattens(rows: seq<seq<string>>, w: nat, sep: string)
    requires GfmCells(rows, w) && Separator(sep)
    ensures FlatLines(GfmTable(rows, sep)) == RowTexts(rows, w)
  {
    GfmTableRows(rows, w, sep);
    WidestIs(rows, w);
    WholeTable(GfmTable(rows, sep));
  }

  /** A key-value table reads "key: value", line by line, literal pipes included. */
  lemma KeyValueTable(rows: seq<seq<string>>, sep: string)
    requires GfmCells(rows, 2) && Separator(sep)
    ensures FlatLines(GfmTable(rows, sep)) ==
            seq(|rows|, k requires 0 <= k < |rows| => rows[k][0] + ": " + rows[k][1])
  {
    GfmTableFlattens(rows, 2, sep);
  }

  lemma DashSeparator() returns (sep: string)
    ensures Separator(sep) && '\n' !in sep
  {
    sep := GfmRow(["-", "-"]);
    ParseInvertsEscape(["-", "-"]);
    GfmRowFree(["-", "-"], '\n');
    assert DashCell("-");
  }

  lemma FlattensAgain(flat: seq<string>)
    requires |flat| == 2 && TableRow(flat[0]) && Separator(flat[1])
    ensures FlatLines(flat) != flat
  {
    assert flat[0..] == flat;
    FlatFixedIff(flat);
  }

  lemma {:induction false} GfmRowFree(cells: seq<string>, c: char)
    requires Free(cells, c) && c !in "| \\"
    ensures c !in RowTail(cells) && c !in GfmRow(cells)
  {
    if cells != [] {
      EscapedFree(cells[0], c);
      GfmRowFree(cells[1..], c);
    }
  }

  lemma {:induction false} EscapedFree(s: string, c: char)
    requires c !in s && c !in "|\\"
    ensures c !in Escaped(s)
  {
    if s != "" {
      EscapedFree(s[1..], c);
    }
  }

  /** A table without line breaks in its cells is the lines of a text. */
  lemma TableText(rows: seq<seq<string>>, sep: string) returns (text: string)
    requires rows != [] && '\n' !in sep && forall k :: 0 <= k < |rows| ==> Free(rows[k], '\n')
    ensures Split(text, "\n") == GfmTable(rows, sep)
  {
    var lines := GfmTable(rows, sep);
    text := Join(lines, "\n");
    forall i | 0 <= i < |lines| ensures !Contains(lines[i], "\n") {
      if i != 1 {
        GfmRowFree(rows[if i == 0 then 0 else i - 1], '\n');
      }
      NewlineFree(lines[i]);
    }
    SplitJoin(lines, "\n");
  }

  lemma FlattensToTable(text: string)
    requires var flat := FlatLines(Split(text, "\n")); |flat| == 2 && TableRow(flat[0]) && Separator(flat[1])
    ensures Flattened(Flattened(text)) != Flattened(text)
  {
    var flat := FlatLines(Split(text, "\n"));
    LinesOfFlattened(text);
    FlattensAgain(flat);
    JoinFlat(flat, text);
  }

  /** A two-row table whose output lines look like a header and a separator is flattened again. */
  lemma OutputTable(a: string, b: string, c: string, d: string, sep: string) returns (text: string)
    requires Trimmed(a) && Trimmed(b) && Trimmed(c) && Trimmed(d) && Separator(sep)
    requires '\n' !in a && '\n' !in b && '\n' !in c && '\n' !in d && '\n' !in sep
    requires TableRow(a + ": " + b) && Separator(c + ": " + d)
    ensures Split(text, "\n") == GfmTable([[a, b], [c, d]], sep)
    ensures Flattened(Flattened(text)) != Flattened(text)
  {
    var rows := [[a, b], [c, d]];
    text := TableText(rows, sep);
    KeyValueTable(rows, sep);
    FlattensToTable(text);
  }

  /** A text whose flattening is not idempotent: the cells of its table hold literal pipes, and the two
      lines it comes out as look like a header and a separator. */
  lemma EscapedPipesBreakIt(a: string, b: string, c: string, d: string) returns (text: string, sep: string)
    requires a == "|a|b" && b == "|" && c == "|-|-" && d == "|"
    ensures Separator(sep) && Split(text, "\n") == GfmTable([[a, b], [c, d]], sep)
    ensures Flattened(Flattened(text)) != Flattened(text)
  {
    PipedTexts(a, b, c, d);
    sep := DashSeparator();
    text := OutputTable(a, b, c, d, sep);
  }

  lemma PipedTexts(a: string, b: string, c: string, d: string)
    requires a == "|a|b" && b == "|" && c == "|-|-" && d == "|"
    ensures TableRow(a + ": " + b) && Separator(c + ": " + d)
  {
    LooksLikeHeader();
    LooksLikeSeparator();
    assert a + ": " + b == "|a|b: |" && c + ": " + d == "|-|-: |";
  }

  lemma LooksLikeHeader()
    ensures TableRow("|a|b: |")
  {
    var s := "|a|b: |";
    TrimTrimmed(s);
    assert BarAt(s[1..6], 1);
  }

  lemma Scan(c: char, rest: string, cur: string)
    requires c != '|' && c != '\\'
    ensures Cells([c] + rest, cur) == Cells(rest, cur + [c])
  {
    assert ([c] + rest)[1..] == rest;
  }

  lemma ScansColon()
    ensures Cells("-: ", "") == ["-:"]
  {
    Scan('-', ": ", "");
    Scan(':', " ", "-");
    Scan(' ', "", "-:");
    assert ['-'] + ": " == "-: " && [':'] + " " == ": " && [' '] + "" == " ";
    assert "" + ['-'] == "-" && "-" + [':'] == "-:" && "-:" + [' '] == "" + "-:" + " ";
    TrimPadded("", "-:", " ");
  }

  lemma ScansToDashes()
    ensures Cells("-|-: ", "") == ["-", "-:"]
  {
    ScansColon();
    Scan('-', "|-: ", "");
    assert "|-: "[1..] == "-: " && ['-'] + "|-: " == "-|-: " && "" + ['-'] == "-";
    TrimTrimmed("-");
  }

  lemma LooksLikeSeparator()
    ensures Separator("|-|-: |")
  {
    var s := "|-|-: |";
    TrimTrimmed(s);
    assert BarAt(s[1..6], 1);
    ScansToDashes();
    assert Interior(s) == "-|-: ";
    assert DashCell("-") && DashCell("-:");
  }
}
