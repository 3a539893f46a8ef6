/** What `format_md_table` promises about its output: the input comes back as it is when it
    is not a table; otherwise every line is bracketed by pipes, the separator stays where it
    was, every column has one display width in every row, and reparsing a rendered row gives
    back its cells. */
module TableProperties {
  import opened Text
  import opened Width
  import opened Patterns
  import opened TableFormatter

  // ----- Input that is not a table -----

  /** Text without a line break is never a table, so it comes back as it is. */
  lemma SingleLineUnchanged(eaw: Classifier, text: string)
    requires '\n' !in text
    ensures !IsTable(text)
    ensures FormatTable(eaw, text) == text
  {
    var s := Strip(text);
    StripCharsAvoids(text, AnyWhitespace, '\n');
    if s != [] {
      SplitWithout(s, '\n');
      assert s[|s| - 1] in s;
    }
  }

  /** The source's test: "This is not a table" is returned as it is. */
  lemma NotATableExample(eaw: Classifier, text: string)
    requires text == "This is not a table"
    ensures FormatTable(eaw, text) == text
  {
    assert forall k :: 0 <= k < |text| ==> text[k] != '\n';
    SingleLineUnchanged(eaw, text);
  }

  /** Without a separator line the text comes back as it is, not even stripped. */
  lemma NoSeparatorUnchanged(eaw: Classifier, text: string)
    requires forall i :: 0 <= i < |TableLines(text)| ==> !IsSeparatorLine(TableLines(text)[i])
    ensures FormatTable(eaw, text) == text
  {
  }

  // ----- Bracketed lines -----

  /** A rendered line: "| ", the parts joined by " | ", then " |". */
  lemma BracketShape(parts: seq<string>)
    ensures var line := Bracket(parts);
      |line| >= 4 && StartsWith(line, "| ") && EndsWith(line, " |")
      && line[0] == '|' && line[|line| - 1] == '|'
  {
    var line := Bracket(parts);
    var j := Join(parts, " | ");
    assert line == "| " + j + " |";
    assert line[..2] == "| ";
    assert line[|line| - 2..] == " |";
  }

  /** A bracketed line is its own `strip()`. */
  lemma BracketStripped(parts: seq<string>)
    ensures Strip(Bracket(parts)) == Bracket(parts)
  {
    var line := Bracket(parts);
    BracketShape(parts);
    assert [] + line + [] == line;
    StripCharsFramed([], line, [], AnyWhitespace);
  }

  /** A character in no part, and not a ' ' or '|', is not in the bracketed line. */
  lemma BracketAvoids(parts: seq<string>, c: char)
    requires c != ' ' && c != '|'
    requires forall k :: 0 <= k < |parts| ==> c !in parts[k]
    ensures c !in Bracket(parts)
  {
    JoinAvoids(parts, " | ", c);
  }

  /** Every character of a part is in the bracketed line. */
  lemma BracketMember(parts: seq<string>, k: nat, c: char)
    requires k < |parts| && c in parts[k]
    ensures c in Bracket(parts)
  {
    JoinMember(parts, " | ", k, c);
  }

  // ----- Line breaks -----

  /** A character that is not in a line is in none of its cells. */
  lemma ParseCellsAvoids(line: string, c: char)
    requires c !in line
    ensures forall k :: 0 <= k < |ParseCells(line)| ==> c !in ParseCells(line)[k]
  {
    var s := StripChars(Strip(line), Only({'|'}));
    StripCharsAvoids(line, AnyWhitespace, c);
    StripCharsAvoids(Strip(line), Only({'|'}), c);
    var pieces := Split(s, '|');
    forall k | 0 <= k < |pieces|
      ensures c !in Strip(pieces[k])
    {
      if c in pieces[k] {
        JoinMember(pieces, ['|'], k, c);
      }
      StripCharsAvoids(pieces[k], AnyWhitespace, c);
    }
  }

  /** Padding adds only spaces. */
  lemma PadAvoids(eaw: Classifier, s: string, width: int, c: char)
    requires c != ' ' && c !in s
    ensures c !in Pad(eaw, s, width)
  {
  }

  /** A rendered row holds no line break when its cells hold none. */
  lemma RenderRowAvoids(eaw: Classifier, row: seq<string>, widths: seq<nat>, c: char)
    requires c != ' ' && c != '|'
    requires forall k :: 0 <= k < |row| ==> c !in row[k]
    ensures c !in RenderRow(eaw, row, widths)
  {
    var padded := PaddedCells(eaw, row, widths);
    forall j | 0 <= j < |padded|
      ensures c !in padded[j]
    {
      PadAvoids(eaw, CellAt(row, j), widths[j], c);
    }
    BracketAvoids(padded, c);
  }

  /** The redrawn separator is made of '|', ' ' and '-' only. */
  lemma RenderSeparatorAvoids(widths: seq<nat>, c: char)
    requires c != ' ' && c != '|' && c != '-'
    ensures c !in RenderSeparator(widths)
  {
    BracketAvoids(Dashes(widths), c);
  }

  /** No formatted line holds a line break. */
  lemma FormattedLinesUnbroken(eaw: Classifier, text: string)
    requires IsTable(text)
    ensures forall i :: 0 <= i < |FormattedLines(eaw, text)| ==> '\n' !in FormattedLines(eaw, text)[i]
  {
    var lines := TableLines(text);
    var sep := SeparatorIndex(text);
    var rows := TableRows(text);
    var widths := TableWidths(eaw, text);
    var out := FormattedLines(eaw, text);
    forall i | 0 <= i < |out|
      ensures '\n' !in out[i]
    {
      if i == sep {
        RenderSeparatorAvoids(widths, '\n');
      } else {
        ParseCellsAvoids(lines[i], '\n');
        RenderRowAvoids(eaw, rows[i], widths, '\n');
      }
    }
  }

  // ----- Shape of the output -----

  /** Rendered line `i` opens with "| " and closes with " |". */
  lemma RenderedLineBracketed(eaw: Classifier, rows: seq<seq<string>>, sep: nat, widths: seq<nat>, i: nat)
    requires i < |rows|
    ensures StartsWith(RenderTable(eaw, rows, sep, widths)[i], "| ")
    ensures EndsWith(RenderTable(eaw, rows, sep, widths)[i], " |")
  {
    if i == sep {
      assert RenderTable(eaw, rows, sep, widths)[i] == RenderSeparator(widths);
      BracketShape(Dashes(widths));
    } else {
      assert RenderTable(eaw, rows, sep, widths)[i] == RenderRow(eaw, rows[i], widths);
      BracketShape(PaddedCells(eaw, rows[i], widths));
    }
  }

  /** Every formatted line opens with "| " and closes with " |". */
  lemma FormattedLinesBracketed(eaw: Classifier, text: string)
    requires IsTable(text)
    ensures forall i :: 0 <= i < |FormattedLines(eaw, text)| ==>
      StartsWith(FormattedLines(eaw, text)[i], "| ") && EndsWith(FormattedLines(eaw, text)[i], " |")
  {
    forall i | 0 <= i < |FormattedLines(eaw, text)|
      ensures StartsWith(FormattedLines(eaw, text)[i], "| ") && EndsWith(FormattedLines(eaw, text)[i], " |")
    {
      RenderedLineBracketed(eaw, TableRows(text), SeparatorIndex(text), TableWidths(eaw, text), i);
    }
  }

  /** `splitlines()` of the output gives back the formatted lines: the output is those lines
      joined by "\n", with no line break at the end. */
  lemma FormattedSplitLines(eaw: Classifier, text: string)
    requires IsTable(text)
    ensures SplitLines(FormatTable(eaw, text)) == FormattedLines(eaw, text)
  {
    FormattedLinesUnbroken(eaw, text);
    FormattedLinesBracketed(eaw, text);
    SplitLinesJoin(FormattedLines(eaw, text));
  }

  /** A table is reformatted line for line: as many lines as the stripped input, with the
      redrawn separator where the separator was and every other line rendered from its own
      cells. */
  lemma FormattedShape(eaw: Classifier, text: string)
    requires IsTable(text)
    ensures var out := FormattedLines(eaw, text);
      |out| == |TableLines(text)|
      && out[SeparatorIndex(text)] == RenderSeparator(TableWidths(eaw, text))
      && (forall i :: 0 <= i < |out| && i != SeparatorIndex(text) ==>
            out[i] == RenderRow(eaw, ParseCells(TableLines(text)[i]), TableWidths(eaw, text)))
  {
    var lines, sep := TableLines(text), SeparatorIndex(text);
    var rows, widths := ParseRows(lines, sep), TableWidths(eaw, text);
    var out := RenderTable(eaw, rows, sep, widths);
    assert |out| == |rows| == |lines|;
    forall i | 0 <= i < |out| && i != sep
      ensures out[i] == RenderRow(eaw, ParseCells(lines[i]), widths)
    {
      assert rows[i] == ParseCells(lines[i]);
    }
  }

  // ----- Reparsing a rendered row -----

  /** A row cut or filled with "" to `n` cells. */
  function FillRow(row: seq<string>, n: nat): seq<string> {
    seq(n, j requires 0 <= j < n => CellAt(row, j))
  }

  /** Every part with one space on either side. */
  function Framed(parts: seq<string>): seq<string> {
    seq(|parts|, k requires 0 <= k < |parts| => " " + parts[k] + " ")
  }

  /** Between the outer pipes, a rendered line is its framed parts joined by "|". */
  lemma {:induction false} FramedJoin(parts: seq<string>)
    requires |parts| >= 1
    ensures " " + Join(parts, " | ") + " " == Join(Framed(parts), "|")
    decreases |parts|
  {
    if |parts| > 1 {
      var rest := Join(parts[1..], " | ");
      FramedJoin(parts[1..]);
      assert Framed(parts)[1..] == Framed(parts[1..]);
      assert Join(parts, " | ") == parts[0] + " | " + rest;
      assert Join(Framed(parts), "|") == (" " + parts[0] + " ") + "|" + (" " + rest + " ");
    }
  }

  /** The cells of a stored row are stripped and hold no '|'; so is "". */
  predicate CleanCells(row: seq<string>) {
    forall k :: 0 <= k < |row| ==> IsStripped(row[k]) && '|' !in row[k]
  }

  /** A padded cell holds no '|' and strips back to the cell, also with a space before it. */
  lemma PaddedCellStrip(eaw: Classifier, cell: string, width: nat)
    requires IsStripped(cell) && '|' !in cell
    ensures '|' !in " " + Pad(eaw, cell, width) + " "
    ensures Strip(" " + Pad(eaw, cell, width) + " ") == cell
  {
    var spaces := Repeat(' ', width - DisplayWidth(eaw, cell));
    assert " " + Pad(eaw, cell, width) + " " == " " + cell + (spaces + " ");
    assert AllIn(spaces + " ", AnyWhitespace);
    assert AllIn(" ", AnyWhitespace);
    StripCharsFramed(" ", cell, spaces + " ", AnyWhitespace);
  }

  /** `line.strip().strip("|")` of a rendered row is its framed padded cells joined by "|". */
  lemma RenderRowInner(eaw: Classifier, row: seq<string>, widths: seq<nat>)
    requires |widths| >= 1
    ensures StripChars(Strip(RenderRow(eaw, row, widths)), Only({'|'}))
      == Join(Framed(PaddedCells(eaw, row, widths)), "|")
  {
    var padded := PaddedCells(eaw, row, widths);
    var inner := " " + Join(padded, " | ") + " ";
    BracketStripped(padded);
    assert RenderRow(eaw, row, widths) == "|" + inner + "|";
    StripCharsFramed("|", inner, "|", Only({'|'}));
    FramedJoin(padded);
  }

  /** Reparsing a rendered row gives back its cells, one per column, with "" in the columns
      the row had no cell for: what `format_md_table` writes it reads back the same. */
  lemma RenderRowRoundTrip(eaw: Classifier, row: seq<string>, widths: seq<nat>)
    requires |widths| >= 1 && CleanCells(row)
    ensures ParseCells(RenderRow(eaw, row, widths)) == FillRow(row, |widths|)
  {
    var padded := PaddedCells(eaw, row, widths);
    var framed := Framed(padded);
    RenderRowInner(eaw, row, widths);
    forall k | 0 <= k < |framed|
      ensures '|' !in framed[k] && Strip(framed[k]) == CellAt(row, k)
    {
      PaddedCellStrip(eaw, CellAt(row, k), widths[k]);
    }
    SplitJoin(framed, '|');
  }

  // ----- The redrawn separator -----

  /** The redrawn separator row is a separator exactly when there are at least two columns:
      with one column its only pipes are the outer two, as in "| --- |". */
  lemma RenderSeparatorIsSeparator(widths: seq<nat>)
    ensures IsSeparator(RenderSeparator(widths)) <==> |widths| >= 2
  {
    var line := RenderSeparator(widths);
    var dashes := Dashes(widths);
    BracketShape(dashes);
    forall i | 0 <= i < |line|
      ensures IsSeparatorChar(line[i])
    {
      if !IsSeparatorChar(line[i]) {
        RenderSeparatorAvoids(widths, line[i]);
      }
    }
    if |widths| >= 2 {
      var rest := Join(dashes[1..], " | ");
      assert line == "| " + dashes[0] + " | " + rest + " |";
      assert line[|dashes[0]| + 3] == '|';
    } else {
      var inner := Join(dashes, " | ");
      assert '|' !in inner by {
        if |widths| == 1 {
          assert inner == Repeat('-', widths[0]);
        }
      }
      assert line == "| " + inner + " |";
      forall i | 0 < i < |line| - 1
        ensures line[i] != '|'
      {
        if 2 <= i < |line| - 2 {
          assert line[i] == inner[i - 2];
        }
      }
      OneColumnNotSeparator(line);
    }
  }

  // ----- Alignment -----

  function Sum(ws: seq<nat>): nat
    decreases |ws|
  {
    if ws == [] then 0 else ws[0] + Sum(ws[1..])
  }

  /** The display width of a line rendered with the column widths `ws`: "| ", the columns
      with " | " between them, and " |". */
  function LineWidth(ws: seq<nat>): nat {
    Sum(ws) + 3 * |ws| + 1
  }

  /** Joining parts of known widths by " | " adds three columns per gap. */
  lemma {:induction false} JoinWidth(eaw: Classifier, parts: seq<string>, ws: seq<nat>)
    requires AsciiNarrow(eaw) && |parts| == |ws| >= 1
    requires forall k :: 0 <= k < |parts| ==> DisplayWidth(eaw, parts[k]) == ws[k]
    ensures DisplayWidth(eaw, Join(parts, " | ")) == Sum(ws) + 3 * (|ws| - 1)
    decreases |parts|
  {
    if |parts| > 1 {
      var rest := Join(parts[1..], " | ");
      JoinWidth(eaw, parts[1..], ws[1..]);
      AsciiWidth(eaw, " | ");
      assert Join(parts, " | ") == (parts[0] + " | ") + rest;
      DisplayWidthAppend(eaw, parts[0] + " | ", rest);
      DisplayWidthAppend(eaw, parts[0], " | ");
    }
  }

  /** A bracketed line of parts with the widths `ws` is `LineWidth(ws)` wide. */
  lemma BracketWidth(eaw: Classifier, parts: seq<string>, ws: seq<nat>)
    requires AsciiNarrow(eaw) && |parts| == |ws| >= 1
    requires forall k :: 0 <= k < |parts| ==> DisplayWidth(eaw, parts[k]) == ws[k]
    ensures DisplayWidth(eaw, Bracket(parts)) == LineWidth(ws)
  {
    var j := Join(parts, " | ");
    JoinWidth(eaw, parts, ws);
    AsciiWidth(eaw, "| ");
    AsciiWidth(eaw, " |");
    DisplayWidthAppend(eaw, "| ", j);
    DisplayWidthAppend(eaw, "| " + j, " |");
  }

  /** A row whose cells fit their columns is rendered with every cell padded to exactly its
      column's width, so the whole line is `LineWidth(widths)` wide. */
  lemma RenderRowWidth(eaw: Classifier, row: seq<string>, widths: seq<nat>)
    requires AsciiNarrow(eaw) && |widths| >= 1
    requires forall j :: 0 <= j < |widths| ==> DisplayWidth(eaw, CellAt(row, j)) <= widths[j]
    ensures forall j :: 0 <= j < |widths| ==> DisplayWidth(eaw, PaddedCells(eaw, row, widths)[j]) == widths[j]
    ensures DisplayWidth(eaw, RenderRow(eaw, row, widths)) == LineWidth(widths)
  {
    var padded := PaddedCells(eaw, row, widths);
    forall j | 0 <= j < |widths|
      ensures DisplayWidth(eaw, padded[j]) == widths[j]
    {
      PadWidth(eaw, CellAt(row, j), widths[j]);
    }
    BracketWidth(eaw, padded, widths);
  }

  /** The redrawn separator is as wide as every other line. */
  lemma RenderSeparatorWidth(eaw: Classifier, widths: seq<nat>)
    requires AsciiNarrow(eaw) && |widths| >= 1
    ensures DisplayWidth(eaw, RenderSeparator(widths)) == LineWidth(widths)
  {
    var dashes := Dashes(widths);
    forall j | 0 <= j < |widths|
      ensures DisplayWidth(eaw, dashes[j]) == widths[j]
    {
      AsciiWidth(eaw, dashes[j]);
    }
    BracketWidth(eaw, dashes, widths);
  }

  /** Every cell of a row fits the width computed for its column. */
  lemma CellsFit(eaw: Classifier, rows: seq<seq<string>>, n: nat, i: nat)
    requires i < |rows|
    ensures forall j :: 0 <= j < n ==> DisplayWidth(eaw, CellAt(rows[i], j)) <= ColumnWidths(eaw, rows, n)[j]
  {
  }

  /** A table has at least one column: some line other than the separator has a cell. */
  lemma TableHasColumns(eaw: Classifier, text: string)
    requires IsTable(text)
    ensures |TableWidths(eaw, text)| == MaxCellCount(TableRows(text)) >= 1
  {
    var rows := TableRows(text);
    var i := if SeparatorIndex(text) == 0 then 1 else 0;
    assert |rows[i]| >= 1;
  }

  /** Rendered line `i` is `LineWidth(widths)` wide. */
  lemma RenderedLineWidth(eaw: Classifier, rows: seq<seq<string>>, sep: nat, n: nat, i: nat)
    requires AsciiNarrow(eaw) && n >= 1 && i < |rows|
    ensures var widths := ColumnWidths(eaw, rows, n);
      DisplayWidth(eaw, RenderTable(eaw, rows, sep, widths)[i]) == LineWidth(widths)
  {
    var widths := ColumnWidths(eaw, rows, n);
    if i == sep {
      assert RenderTable(eaw, rows, sep, widths)[i] == RenderSeparator(widths);
      RenderSeparatorWidth(eaw, widths);
    } else {
      assert RenderTable(eaw, rows, sep, widths)[i] == RenderRow(eaw, rows[i], widths);
      CellsFit(eaw, rows, n, i);
      RenderRowWidth(eaw, rows[i], widths);
    }
  }

  /** With ASCII narrow, every line of a formatted table, separator included, has the same
      display width, so the pipes of every row line up in a terminal. */
  lemma FormattedAligned(eaw: Classifier, text: string)
    requires AsciiNarrow(eaw) && IsTable(text)
    ensures forall i :: 0 <= i < |FormattedLines(eaw, text)| ==>
      DisplayWidth(eaw, FormattedLines(eaw, text)[i]) == LineWidth(TableWidths(eaw, text))
  {
    TableHasColumns(eaw, text);
    forall i | 0 <= i < |FormattedLines(eaw, text)|
      ensures DisplayWidth(eaw, FormattedLines(eaw, text)[i]) == LineWidth(TableWidths(eaw, text))
    {
      var rows := TableRows(text);
      RenderedLineWidth(eaw, rows, SeparatorIndex(text), MaxCellCount(rows), i);
    }
  }

  // ----- Rows and columns of the output -----

  /** Reparsing a formatted row gives exactly `num_cols` cells: the row's own stripped
      cells, then "" for every column it had no cell for. */
  lemma FormattedRowCells(eaw: Classifier, text: string, i: nat)
    requires IsTable(text) && i < |TableLines(text)| && i != SeparatorIndex(text)
    ensures ParseCells(FormattedLines(eaw, text)[i])
      == FillRow(ParseCells(TableLines(text)[i]), MaxCellCount(TableRows(text)))
  {
    var widths := TableWidths(eaw, text);
    var row := ParseCells(TableLines(text)[i]);
    TableHasColumns(eaw, text);
    assert FormattedLines(eaw, text)[i] == RenderRow(eaw, TableRows(text)[i], widths);
    assert TableRows(text)[i] == row;
    RenderRowRoundTrip(eaw, row, widths);
  }

  /** Reparsing the redrawn separator gives one run of hyphens per column, each as long as
      the column is wide. */
  lemma SeparatorCells(eaw: Classifier, widths: seq<nat>)
    requires AsciiNarrow(eaw) && |widths| >= 1
    ensures ParseCells(RenderSeparator(widths)) == Dashes(widths)
    ensures forall j :: 0 <= j < |widths| ==> Dashes(widths)[j] == Repeat('-', widths[j])
  {
    var dashes := Dashes(widths);
    forall j | 0 <= j < |widths|
      ensures Pad(eaw, CellAt(dashes, j), widths[j]) == dashes[j]
      ensures IsStripped(dashes[j]) && '|' !in dashes[j]
    {
      AsciiWidth(eaw, dashes[j]);
      PadShape(eaw, dashes[j], widths[j]);
    }
    assert PaddedCells(eaw, dashes, widths) == dashes;
    RenderRowRoundTrip(eaw, dashes, widths);
  }
}
