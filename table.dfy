/** server.py `format_md_table`: re-emits one pipe table with every column padded to the
    display width of its widest cell and the separator row redrawn as runs of hyphens. */
module TableFormatter {
  import opened Text
  import opened Width
  import opened Patterns

  datatype Option<T> = None | Some(value: T)

  /** `[c.strip() for c in pieces]`. */
  function StripEach(pieces: seq<string>): (r: seq<string>)
    ensures |r| == |pieces|
    ensures forall k :: 0 <= k < |r| ==> r[k] == Strip(pieces[k])
    decreases |pieces|
  {
    if pieces == [] then []
    else
      var rest := StripEach(pieces[1..]);
      assert forall k :: 0 < k < |pieces| ==> pieces[1..][k - 1] == pieces[k];
      [Strip(pieces[0])] + rest
  }

  /** The cells of one line: `[c.strip() for c in line.strip().strip("|").split("|")]`.
      `strip("|")` removes every leading and trailing '|', not just one. */
  function ParseCells(line: string): (cells: seq<string>)
    ensures |cells| >= 1
    ensures forall k :: 0 <= k < |cells| ==> IsStripped(cells[k]) && '|' !in cells[k]
  {
    var pieces := Split(StripChars(Strip(line), Only({'|'})), '|');
    var cells := StripEach(pieces);
    assert forall k :: 0 <= k < |cells| ==> IsStripped(cells[k]) && '|' !in cells[k] by {
      forall k | 0 <= k < |cells| ensures IsStripped(cells[k]) && '|' !in cells[k] {
        StripIsStripped(pieces[k]);
        StripCharsAvoids(pieces[k], AnyWhitespace, '|');
      }
    }
    cells
  }

  /** The line the search loop stops at: its stripped form is a separator. */
  predicate IsSeparatorLine(line: string) {
    IsSeparator(Strip(line))
  }

  /** The index of the first line at or after `from` that is a separator line, if any. */
  function FirstSeparatorFrom(lines: seq<string>, from: nat): (r: Option<nat>)
    requires from <= |lines|
    ensures r.Some? ==> from <= r.value < |lines| && IsSeparatorLine(lines[r.value])
    ensures r.Some? ==> forall i :: from <= i < r.value ==> !IsSeparatorLine(lines[i])
    ensures r.None? ==> forall i :: from <= i < |lines| ==> !IsSeparatorLine(lines[i])
    decreases |lines| - from
  {
    if from == |lines| then None
    else if IsSeparatorLine(lines[from]) then Some(from)
    else FirstSeparatorFrom(lines, from + 1)
  }

  /** The index of the first separator line, if any. */
  function FirstSeparator(lines: seq<string>): Option<nat> {
    FirstSeparatorFrom(lines, 0)
  }

  /** `parsed_rows`: the separator line as the empty row, every other line as its cells. */
  function ParseRows(lines: seq<string>, sep: nat): seq<seq<string>> {
    seq(|lines|, i requires 0 <= i < |lines| => if i == sep then [] else ParseCells(lines[i]))
  }

  /** The rows of three lines whose first line is the separator. */
  lemma RowsSeparatorFirst(lines: seq<string>, r1: seq<string>, r2: seq<string>)
    requires |lines| == 3 && r1 == ParseCells(lines[1]) && r2 == ParseCells(lines[2])
    ensures ParseRows(lines, 0) == [[], r1, r2]
  {
    var rows: seq<seq<string>> := [[], r1, r2];
    forall i | 0 <= i < 3
      ensures rows[i] == if i == 0 then [] else ParseCells(lines[i])
    {
      if i == 1 {
        assert rows[i] == r1;
      } else if i == 2 {
        assert rows[i] == r2;
      }
    }
    RowsOf(lines, 0, rows);
  }

  /** The rows of three lines whose second line is the separator. */
  lemma RowsSeparatorSecond(lines: seq<string>, r0: seq<string>, r2: seq<string>)
    requires |lines| == 3 && r0 == ParseCells(lines[0]) && r2 == ParseCells(lines[2])
    ensures ParseRows(lines, 1) == [r0, [], r2]
  {
    var rows: seq<seq<string>> := [r0, [], r2];
    forall i | 0 <= i < 3
      ensures rows[i] == if i == 1 then [] else ParseCells(lines[i])
    {
      if i == 0 {
        assert rows[i] == r0;
      } else if i == 2 {
        assert rows[i] == r2;
      }
    }
    RowsOf(lines, 1, rows);
  }

  /** Rows that agree with the parsed lines index by index are the parsed rows. */
  lemma RowsOf(lines: seq<string>, sep: nat, rows: seq<seq<string>>)
    requires |rows| == |lines|
    requires forall i :: 0 <= i < |lines| ==> rows[i] == if i == sep then [] else ParseCells(lines[i])
    ensures ParseRows(lines, sep) == rows
  {
  }

  /** `num_cols`: the largest number of cells in a row. */
  function MaxCellCount(rows: seq<seq<string>>): (n: nat)
    ensures forall i :: 0 <= i < |rows| ==> |rows[i]| <= n
    ensures rows != [] ==> exists i :: 0 <= i < |rows| && |rows[i]| == n
    ensures rows == [] ==> n == 0
    decreases |rows|
  {
    if rows == [] then 0
    else
      var n := MaxCellCount(rows[..|rows| - 1]);
      var last := |rows[|rows| - 1]|;
      assert forall i :: 0 <= i < |rows| - 1 ==> rows[..|rows| - 1][i] == rows[i];
      if last > n then last else n
  }

  function Max(a: nat, b: nat): nat {
    if a >= b then a else b
  }

  /** `col_widths[j]` once the first `upTo` rows are measured: the largest display width of
      a cell in column `j`; rows without a cell `j` add nothing, and a column without cells
      is 0 wide. */
  function ColumnWidth(eaw: Classifier, rows: seq<seq<string>>, upTo: nat, j: nat): (w: nat)
    requires upTo <= |rows|
    ensures forall i :: 0 <= i < upTo && j < |rows[i]| ==> DisplayWidth(eaw, rows[i][j]) <= w
    ensures w == 0 || exists i :: 0 <= i < upTo && j < |rows[i]| && DisplayWidth(eaw, rows[i][j]) == w
    decreases upTo
  {
    if upTo == 0 then 0
    else
      var last := rows[upTo - 1];
      Max(ColumnWidth(eaw, rows, upTo - 1, j), if j < |last| then DisplayWidth(eaw, last[j]) else 0)
  }

  function ColumnWidths(eaw: Classifier, rows: seq<seq<string>>, n: nat): seq<nat> {
    seq(n, j requires 0 <= j < n => ColumnWidth(eaw, rows, |rows|, j))
  }

  /** `"| " + " | ".join(parts) + " |"`. */
  function Bracket(parts: seq<string>): string {
    "| " + Join(parts, " | ") + " |"
  }

  /** The cell a row shows in column `j`: its own, or "" past its end. */
  function CellAt(row: seq<string>, j: nat): string {
    if j < |row| then row[j] else ""
  }

  /** `padded`: every column's cell padded to the column's width. */
  function PaddedCells(eaw: Classifier, row: seq<string>, widths: seq<nat>): seq<string> {
    seq(|widths|, j requires 0 <= j < |widths| => Pad(eaw, CellAt(row, j), widths[j]))
  }

  /** `parts`: one run of hyphens per column, as long as the column is wide. */
  function Dashes(widths: seq<nat>): seq<string> {
    seq(|widths|, j requires 0 <= j < |widths| => Repeat('-', widths[j]))
  }

  function RenderRow(eaw: Classifier, row: seq<string>, widths: seq<nat>): string {
    Bracket(PaddedCells(eaw, row, widths))
  }

  function RenderSeparator(widths: seq<nat>): string {
    Bracket(Dashes(widths))
  }

  /** `result_lines`. */
  function RenderTable(eaw: Classifier, rows: seq<seq<string>>, sep: nat, widths: seq<nat>): seq<string> {
    seq(|rows|, i requires 0 <= i < |rows| =>
      if i == sep then RenderSeparator(widths) else RenderRow(eaw, rows[i], widths))
  }

  /** `text.strip().splitlines()`. */
  function TableLines(text: string): seq<string> {
    SplitLines(Strip(text))
  }

  /** The input is reformatted rather than returned as it is: it has at least two lines and
      one of them is a separator. */
  predicate IsTable(text: string) {
    |TableLines(text)| >= 2 && FirstSeparator(TableLines(text)).Some?
  }

  function SeparatorIndex(text: string): nat
    requires IsTable(text)
  {
    FirstSeparator(TableLines(text)).value
  }

  function TableRows(text: string): seq<seq<string>>
    requires IsTable(text)
  {
    ParseRows(TableLines(text), SeparatorIndex(text))
  }

  function TableWidths(eaw: Classifier, text: string): seq<nat>
    requires IsTable(text)
  {
    var rows := TableRows(text);
    ColumnWidths(eaw, rows, MaxCellCount(rows))
  }

  function FormattedLines(eaw: Classifier, text: string): seq<string>
    requires IsTable(text)
  {
    RenderTable(eaw, TableRows(text), SeparatorIndex(text), TableWidths(eaw, text))
  }

  /** `format_md_table(text)`: the formatted lines joined by "\n", or `text` itself, not
      stripped, when it is not a table. */
  function FormatTable(eaw: Classifier, text: string): string {
    if IsTable(text) then Join(FormattedLines(eaw, text), "\n") else text
  }

  /** The search loop of `format_md_table`: the first line that is a separator. */
  method FindSeparator(lines: seq<string>) returns (separatorIdx: Option<nat>)
    ensures separatorIdx == FirstSeparator(lines)
  {
    separatorIdx := None;
    var i := 0;
    while i < |lines|
      invariant 0 <= i <= |lines|
      invariant separatorIdx == None
      invariant FirstSeparator(lines) == FirstSeparatorFrom(lines, i)
    {
      if IsSeparator(Strip(lines[i])) {
        separatorIdx := Some(i);
        break;
      }
      i := i + 1;
    }
  }

  /** The loop that fills `parsed_rows`. */
  method ParseAllRows(lines: seq<string>, sep: nat) returns (parsedRows: seq<seq<string>>)
    ensures parsedRows == ParseRows(lines, sep)
  {
    parsedRows := [];
    for r := 0 to |lines|
      invariant |parsedRows| == r
      invariant forall k :: 0 <= k < r ==> parsedRows[k] == if k == sep then [] else ParseCells(lines[k])
    {
      if r == sep {
        parsedRows := parsedRows + [[]];
      } else {
        var cells := ParseCells(lines[r]);
        parsedRows := parsedRows + [cells];
      }
    }
  }

  /** The inner loop over one row's cells: `col_widths[j]` rises to the width of cell `j`. */
  method WidenColumns(eaw: Classifier, colWidths: array<nat>, row: seq<string>)
    requires |row| <= colWidths.Length
    modifies colWidths
    ensures forall c :: 0 <= c < colWidths.Length ==>
      colWidths[c] == Max(old(colWidths[c]), if c < |row| then DisplayWidth(eaw, row[c]) else 0)
  {
    for j := 0 to |row|
      invariant forall c :: 0 <= c < j ==>
        colWidths[c] == Max(old(colWidths[c]), DisplayWidth(eaw, row[c]))
      invariant forall c :: j <= c < colWidths.Length ==> colWidths[c] == old(colWidths[c])
    {
      var w := MeasureWidth(eaw, row[j]);
      colWidths[j] := Max(colWidths[j], w);
    }
  }

  /** The nested loops that raise `col_widths[j]` in place, row by row. */
  method ComputeColumnWidths(eaw: Classifier, rows: seq<seq<string>>, numCols: nat) returns (widths: seq<nat>)
    requires forall i :: 0 <= i < |rows| ==> |rows[i]| <= numCols
    ensures widths == ColumnWidths(eaw, rows, numCols)
  {
    var colWidths := new nat[numCols](_ => 0);
    for r := 0 to |rows|
      invariant forall c :: 0 <= c < numCols ==> colWidths[c] == ColumnWidth(eaw, rows, r, c)
    {
      WidenColumns(eaw, colWidths, rows[r]);
    }
    widths := colWidths[..];
  }

  /** The loop that builds `padded` for one row. */
  method PadRow(eaw: Classifier, row: seq<string>, widths: seq<nat>) returns (padded: seq<string>)
    ensures padded == PaddedCells(eaw, row, widths)
  {
    padded := [];
    for j := 0 to |widths|
      invariant |padded| == j
      invariant forall k :: 0 <= k < j ==> padded[k] == Pad(eaw, CellAt(row, k), widths[k])
    {
      var cell := if j < |row| then row[j] else "";
      padded := padded + [Pad(eaw, cell, widths[j])];
    }
  }

  /** The loop that fills `result_lines`. */
  method RenderAllRows(eaw: Classifier, rows: seq<seq<string>>, sep: nat, widths: seq<nat>)
    returns (resultLines: seq<string>)
    ensures resultLines == RenderTable(eaw, rows, sep, widths)
  {
    resultLines := [];
    for r := 0 to |rows|
      invariant |resultLines| == r
      invariant forall k :: 0 <= k < r ==>
        resultLines[k] == if k == sep then RenderSeparator(widths) else RenderRow(eaw, rows[k], widths)
    {
      if r == sep {
        var parts := seq(|widths|, k requires 0 <= k < |widths| => Repeat('-', widths[k]));
        resultLines := resultLines + ["| " + Join(parts, " | ") + " |"];
      } else {
        var padded := PadRow(eaw, rows[r], widths);
        resultLines := resultLines + ["| " + Join(padded, " | ") + " |"];
      }
    }
  }

  /** `format_md_table` as the source computes it, one step per loop of the source. */
  method FormatMdTable(eaw: Classifier, text: string) returns (out: string)
    ensures out == FormatTable(eaw, text)
  {
    var lines := SplitLines(Strip(text));
    if |lines| < 2 {
      return text;
    }
    var separatorIdx := FindSeparator(lines);
    if separatorIdx == None {
      return text;
    }
    var sep := separatorIdx.value;
    var parsedRows := ParseAllRows(lines, sep);
    var numCols := MaxCellCount(parsedRows);
    var colWidths := ComputeColumnWidths(eaw, parsedRows, numCols);
    var resultLines := RenderAllRows(eaw, parsedRows, sep, colWidths);
    out := Join(resultLines, "\n");
  }
}
