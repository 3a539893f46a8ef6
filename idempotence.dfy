/** Formatting a formatted table again changes nothing, provided every line above the
    separator holds some text: a header such as "| - |" is itself rendered as a separator
    and moves the separator up on the second pass. */
module TableIdempotence {
  import opened Text
  import opened Width
  import opened Patterns
  import opened TableFormatter
  import opened TableProperties

  /** The line holds a character outside `[\s\-:|]`, so no separator can be read into it. */
  predicate HasText(line: string) {
    exists k :: 0 <= k < |line| && !IsSeparatorChar(line[k])
  }

  /** Every line above the separator of a table holds text. */
  predicate HeaderHasText(text: string) {
    IsTable(text) ==> forall i :: 0 <= i < SeparatorIndex(text) ==> HasText(TableLines(text)[i])
  }

  // ----- The output's own lines -----

  /** Lines joined by "\n" are their own `strip()` when the first opens and the last closes
      with '|'. */
  lemma JoinedPipesStripped(lines: seq<string>)
    requires |lines| >= 1 && lines[0] != [] && lines[|lines| - 1] != []
    requires lines[0][0] == '|' && lines[|lines| - 1][|lines[|lines| - 1]| - 1] == '|'
    ensures Strip(Join(lines, "\n")) == Join(lines, "\n")
  {
    var t := Join(lines, "\n");
    JoinFirst(lines, "\n");
    JoinLast(lines, "\n");
    assert [] + t + [] == t;
    StripCharsFramed([], t, [], AnyWhitespace);
  }

  /** The output of a table is already stripped and splits back into the formatted lines. */
  lemma OutputLines(eaw: Classifier, text: string)
    requires IsTable(text)
    ensures TableLines(FormatTable(eaw, text)) == FormattedLines(eaw, text)
  {
    var out := FormattedLines(eaw, text);
    FormattedLinesBracketed(eaw, text);
    assert StartsWith(out[0], "| ") && EndsWith(out[|out| - 1], " |");
    assert out[0][0] == '|';
    assert out[|out| - 1][|out[|out| - 1]| - 1] == '|';
    JoinedPipesStripped(out);
    FormattedSplitLines(eaw, text);
  }

  /** A line is found first by the separator search exactly when it is a separator line and
      no line above it is. */
  lemma FirstSeparatorAt(lines: seq<string>, k: nat)
    requires k < |lines| && IsSeparatorLine(lines[k])
    requires forall i :: 0 <= i < k ==> !IsSeparatorLine(lines[i])
    ensures FirstSeparator(lines) == Some(k)
  {
  }

  // ----- One column -----

  /** A bracketed line with one part without '|' is not a separator. */
  lemma OneColumnBracket(part: string)
    requires '|' !in part
    ensures !IsSeparatorLine(Bracket([part]))
  {
    var line := Bracket([part]);
    BracketStripped([part]);
    assert line == "| " + part + " |";
    forall i | 0 < i < |line| - 1
      ensures line[i] != '|'
    {
      if 2 <= i < |line| - 2 {
        assert line[i] == part[i - 2];
      }
    }
    OneColumnNotSeparator(line);
  }

  /** With a single column no rendered line, separator included, is a separator line. */
  lemma OneColumnNoSeparator(eaw: Classifier, rows: seq<seq<string>>, sep: nat, widths: seq<nat>, i: nat)
    requires |widths| == 1 && i < |rows| && CleanCells(rows[i])
    ensures !IsSeparatorLine(RenderTable(eaw, rows, sep, widths)[i])
  {
    if i == sep {
      assert RenderTable(eaw, rows, sep, widths)[i] == RenderSeparator(widths);
      RenderSeparatorIsSeparator(widths);
      BracketStripped(Dashes(widths));
    } else {
      var padded := PaddedCells(eaw, rows[i], widths);
      assert RenderTable(eaw, rows, sep, widths)[i] == Bracket(padded);
      PaddedCellStrip(eaw, CellAt(rows[i], 0), widths[0]);
      assert padded == [padded[0]];
      OneColumnBracket(padded[0]);
    }
  }

  // ----- Text in a header survives -----

  /** A character outside `[\s\-:|]` in a line is in one of its cells. */
  lemma TextSurvivesParsing(line: string, c: char)
    requires c in line && !IsSeparatorChar(c)
    ensures exists k :: 0 <= k < |ParseCells(line)| && c in ParseCells(line)[k]
  {
    var s := StripChars(Strip(line), Only({'|'}));
    StripCharsKeeps(line, AnyWhitespace, c);
    StripCharsKeeps(Strip(line), Only({'|'}), c);
    var pieces := Split(s, '|');
    JoinSource(pieces, ['|'], c);
    var k :| 0 <= k < |pieces| && c in pieces[k];
    StripCharsKeeps(pieces[k], AnyWhitespace, c);
    assert ParseCells(line)[k] == Strip(pieces[k]);
  }

  /** A line with text is rendered as a line with text, which is not a separator line. */
  lemma TextSurvivesRendering(eaw: Classifier, line: string, widths: seq<nat>)
    requires HasText(line) && |ParseCells(line)| <= |widths|
    ensures !IsSeparatorLine(RenderRow(eaw, ParseCells(line), widths))
  {
    var row := ParseCells(line);
    var k0 :| 0 <= k0 < |line| && !IsSeparatorChar(line[k0]);
    var c := line[k0];
    TextSurvivesParsing(line, c);
    var k :| 0 <= k < |row| && c in row[k];
    var padded := PaddedCells(eaw, row, widths);
    PadShape(eaw, row[k], widths[k]);
    assert padded[k][..|row[k]|] == row[k];
    assert c in padded[k];
    BracketMember(padded, k, c);
    BracketStripped(padded);
  }

  // ----- Reading the output back -----

  /** The rows a second pass reads: every row filled to `n` cells, the separator empty. */
  function Filled(rows: seq<seq<string>>, sep: nat, n: nat): seq<seq<string>> {
    seq(|rows|, i requires 0 <= i < |rows| => if i == sep then [] else FillRow(rows[i], n))
  }

  /** Parsing the rendered table gives the filled rows. */
  lemma ReparseRows(eaw: Classifier, rows: seq<seq<string>>, sep: nat, widths: seq<nat>)
    requires |widths| >= 1
    requires forall i :: 0 <= i < |rows| ==> CleanCells(rows[i])
    ensures ParseRows(RenderTable(eaw, rows, sep, widths), sep) == Filled(rows, sep, |widths|)
  {
    var out := RenderTable(eaw, rows, sep, widths);
    forall i | 0 <= i < |rows| && i != sep
      ensures ParseCells(out[i]) == FillRow(rows[i], |widths|)
    {
      assert out[i] == RenderRow(eaw, rows[i], widths);
      RenderRowRoundTrip(eaw, rows[i], widths);
    }
  }

  /** Filled rows other than the separator have exactly `n` cells, so `num_cols` stays `n`. */
  lemma FilledCellCount(rows: seq<seq<string>>, sep: nat, n: nat)
    requires sep < |rows| && |rows| >= 2
    ensures MaxCellCount(Filled(rows, sep, n)) == n
  {
    var filled := Filled(rows, sep, n);
    var i := if sep == 0 then 1 else 0;
    assert |filled[i]| == n;
    assert forall k :: 0 <= k < |filled| ==> |filled[k]| <= n;
  }

  /** What row `row` adds to the width of column `j`. */
  function Contribution(eaw: Classifier, row: seq<string>, j: nat): nat {
    if j < |row| then DisplayWidth(eaw, row[j]) else 0
  }

  /** Rows that add the same to column `j` give column `j` the same width. */
  lemma {:induction false} ColumnWidthAgree(eaw: Classifier, rows: seq<seq<string>>, rows2: seq<seq<string>>, upTo: nat, j: nat)
    requires upTo <= |rows| && upTo <= |rows2|
    requires forall i :: 0 <= i < upTo ==> Contribution(eaw, rows[i], j) == Contribution(eaw, rows2[i], j)
    ensures ColumnWidth(eaw, rows, upTo, j) == ColumnWidth(eaw, rows2, upTo, j)
    decreases upTo
  {
    if upTo > 0 {
      ColumnWidthAgree(eaw, rows, rows2, upTo - 1, j);
      assert Contribution(eaw, rows[upTo - 1], j) == Contribution(eaw, rows2[upTo - 1], j);
    }
  }

  /** Filling rows with "" does not widen any column. */
  lemma FilledWidths(eaw: Classifier, rows: seq<seq<string>>, sep: nat, n: nat)
    requires sep < |rows| && rows[sep] == []
    ensures ColumnWidths(eaw, Filled(rows, sep, n), n) == ColumnWidths(eaw, rows, n)
  {
    var filled := Filled(rows, sep, n);
    forall j | 0 <= j < n
      ensures ColumnWidth(eaw, filled, |filled|, j) == ColumnWidth(eaw, rows, |rows|, j)
    {
      forall i | 0 <= i < |rows|
        ensures Contribution(eaw, filled[i], j) == Contribution(eaw, rows[i], j)
      {
        if i != sep {
          assert filled[i][j] == CellAt(rows[i], j);
          assert DisplayWidth(eaw, "") == 0;
        }
      }
      ColumnWidthAgree(eaw, filled, rows, |rows|, j);
    }
  }

  /** Filled rows are rendered as the rows themselves. */
  lemma FilledRender(eaw: Classifier, rows: seq<seq<string>>, sep: nat, widths: seq<nat>)
    ensures RenderTable(eaw, Filled(rows, sep, |widths|), sep, widths) == RenderTable(eaw, rows, sep, widths)
  {
    var filled := Filled(rows, sep, |widths|);
    forall i | 0 <= i < |rows| && i != sep
      ensures PaddedCells(eaw, filled[i], widths) == PaddedCells(eaw, rows[i], widths)
    {
      assert forall j :: 0 <= j < |widths| ==> CellAt(filled[i], j) == CellAt(rows[i], j);
    }
  }

  // ----- The second pass -----

  /** The second pass finds the separator where the first pass put it. */
  lemma SeparatorKept(eaw: Classifier, text: string)
    requires IsTable(text) && HeaderHasText(text) && |TableWidths(eaw, text)| >= 2
    ensures FirstSeparator(FormattedLines(eaw, text)) == Some(SeparatorIndex(text))
  {
    var lines := TableLines(text);
    var sep := SeparatorIndex(text);
    var rows := TableRows(text);
    var widths := TableWidths(eaw, text);
    var out := FormattedLines(eaw, text);
    assert out[sep] == RenderSeparator(widths);
    RenderSeparatorIsSeparator(widths);
    BracketStripped(Dashes(widths));
    forall i | 0 <= i < sep
      ensures !IsSeparatorLine(out[i])
    {
      assert out[i] == RenderRow(eaw, ParseCells(lines[i]), widths);
      TextSurvivesRendering(eaw, lines[i], widths);
    }
    FirstSeparatorAt(out, sep);
  }

  /** A one-column table has no separator line once formatted. */
  lemma OneColumnOutputPlain(eaw: Classifier, text: string)
    requires IsTable(text) && |TableWidths(eaw, text)| == 1
    ensures FirstSeparator(FormattedLines(eaw, text)).None?
  {
    var rows := TableRows(text);
    var out := FormattedLines(eaw, text);
    forall i | 0 <= i < |out|
      ensures !IsSeparatorLine(out[i])
    {
      OneColumnNoSeparator(eaw, rows, SeparatorIndex(text), TableWidths(eaw, text), i);
    }
  }

  /** On the second pass the rows, the column count and the widths come out as on the first,
      so the same lines are rendered. */
  lemma SecondPassLines(eaw: Classifier, text: string)
    requires IsTable(text) && HeaderHasText(text) && |TableWidths(eaw, text)| >= 2
    ensures IsTable(FormatTable(eaw, text))
    ensures FormattedLines(eaw, FormatTable(eaw, text)) == FormattedLines(eaw, text)
  {
    var t := FormatTable(eaw, text);
    var sep := SeparatorIndex(text);
    var rows := TableRows(text);
    var widths := TableWidths(eaw, text);
    var n := |widths|;
    var out := FormattedLines(eaw, text);
    OutputLines(eaw, text);
    SeparatorKept(eaw, text);
    assert IsTable(t) && SeparatorIndex(t) == sep;
    ReparseRows(eaw, rows, sep, widths);
    assert TableRows(t) == Filled(rows, sep, n);
    FilledCellCount(rows, sep, n);
    FilledWidths(eaw, rows, sep, n);
    assert TableWidths(eaw, t) == widths;
    FilledRender(eaw, rows, sep, widths);
  }

  /** `format_md_table` is idempotent on every input whose header lines hold text; inputs
      that are not tables come back as they are both times. */
  lemma FormatTwiceSame(eaw: Classifier, text: string)
    requires HeaderHasText(text)
    ensures FormatTable(eaw, FormatTable(eaw, text)) == FormatTable(eaw, text)
  {
    if IsTable(text) {
      TableHasColumns(eaw, text);
      if |TableWidths(eaw, text)| == 1 {
        OutputLines(eaw, text);
        OneColumnOutputPlain(eaw, text);
      } else {
        SecondPassLines(eaw, text);
      }
    }
  }

  // ----- A table that is not formatted twice the same -----

  /** A one-character printable cell padded to width 1 is itself; an empty one is a space. */
  lemma PadUnit(eaw: Classifier, c: string)
    requires AsciiNarrow(eaw) && |c| <= 1 && (c != "" ==> ' ' < c[0] <= '~')
    ensures Pad(eaw, c, 1) == (if c == "" then " " else c)
  {
    AsciiWidth(eaw, c);
    if c == "" {
      assert Repeat(' ', 1) == " ";
    } else {
      PadShape(eaw, c, 1);
    }
  }

  /** A row of one-character printable cells rendered at width 1 per column: every column
      shows its cell, or a space past the row's end, and the cells read back. */
  lemma UnitRow(eaw: Classifier, row: seq<string>, widths: seq<nat>, padded: seq<string>)
    requires AsciiNarrow(eaw) && 1 <= |widths| && |row| <= |widths| == |padded|
    requires forall k :: 0 <= k < |widths| ==> widths[k] == 1
    requires forall k :: 0 <= k < |row| ==> |row[k]| == 1 && ' ' < row[k][0] <= '~' && row[k][0] != '|'
    requires forall k :: 0 <= k < |padded| ==> padded[k] == if k < |row| then row[k] else " "
    ensures RenderRow(eaw, row, widths) == Bracket(padded)
    ensures ParseCells(RenderRow(eaw, row, widths)) == FillRow(row, |widths|)
  {
    forall j | 0 <= j < |widths|
      ensures PaddedCells(eaw, row, widths)[j] == padded[j]
    {
      PadUnit(eaw, CellAt(row, j));
    }
    assert PaddedCells(eaw, row, widths) == padded;
    RenderRowRoundTrip(eaw, row, widths);
  }

  lemma RowDash(eaw: Classifier)
    requires AsciiNarrow(eaw)
    ensures RenderRow(eaw, ["-"], [1]) == "| - |"
    ensures ParseCells(RenderRow(eaw, ["-"], [1])) == ["-"]
  {
    UnitRow(eaw, ["-"], [1], ["-"]);
    assert FillRow(["-"], 1) == ["-"];
  }

  /** A printable character outside `[\s\-:|]`: a one-character cell of text. */
  predicate TextChar(c: char) {
    ' ' < c <= '~' && !IsSeparatorChar(c)
  }

  /** The line "| x | y |". */
  function PairLine(x: char, y: char): string {
    ['|', ' ', x, ' ', '|', ' ', y, ' ', '|']
  }

  /** A row of two one-character cells: how it is rendered, and that it reads back. */
  lemma RowPair(eaw: Classifier, x: char, y: char)
    requires AsciiNarrow(eaw) && ' ' < x <= '~' && x != '|' && ' ' < y <= '~' && y != '|'
    ensures RenderRow(eaw, [[x], [y]], [1, 1]) == PairLine(x, y)
    ensures ParseCells(RenderRow(eaw, [[x], [y]], [1, 1])) == [[x], [y]]
  {
    var row := [[x], [y]];
    UnitRow(eaw, row, [1, 1], row);
    BracketPair(x, y);
    assert FillRow(row, 2) == row;
  }

  lemma BracketPair(x: char, y: char)
    ensures Bracket([[x], [y]]) == PairLine(x, y)
  {
    assert Join([[x], [y]], " | ") == [x] + " | " + [y];
  }

  lemma RowDashBlank(eaw: Classifier)
    requires AsciiNarrow(eaw)
    ensures RenderRow(eaw, ["-"], [1, 1]) == "| - |   |"
  {
    UnitRow(eaw, ["-"], [1, 1], ["-", " "]);
    BracketDashBlank();
  }

  lemma BracketDashBlank()
    ensures Bracket(["-", " "]) == "| - |   |"
  {
    assert Join(["-", " "], " | ") == "- |  ";
  }

  lemma DashesUnits()
    ensures RenderSeparator([1, 1]) == PairLine('-', '-')
  {
    assert Repeat('-', 1) == "-";
    assert Dashes([1, 1]) == ["-", "-"];
  }

  /** Different lines, none holding a line break, join into different texts. */
  lemma JoinedLinesDiffer(a: seq<string>, b: seq<string>)
    requires |a| >= 1 && a[|a| - 1] != [] && forall k :: 0 <= k < |a| ==> '\n' !in a[k]
    requires |b| >= 1 && b[|b| - 1] != [] && forall k :: 0 <= k < |b| ==> '\n' !in b[k]
    requires a != b
    ensures Join(a, "\n") != Join(b, "\n")
  {
    SplitLinesJoin(a);
    SplitLinesJoin(b);
  }

  /** Three lines joined by "\n" that open and close with '|' are what the formatter reads. */
  lemma ExampleLines(text: string, lines: seq<string>)
    requires |lines| == 3 && text == Join(lines, "\n")
    requires forall k :: 0 <= k < 3 ==>
      |lines[k]| >= 2 && lines[k][0] == '|' && lines[k][|lines[k]| - 1] == '|' && '\n' !in lines[k]
    ensures TableLines(text) == lines
  {
    JoinedPipesStripped(lines);
    SplitLinesJoin(lines);
  }

  /** "| - |" holds no text: it is a one-column separator, which the search skips. */
  lemma ExampleHeader()
    ensures !HasText("| - |") && !IsSeparatorLine("| - |")
  {
    var h := "| - |";
    assert forall k :: 0 <= k < |h| ==> IsSeparatorChar(h[k]);
    StripStripped(h);
    OneColumnNotSeparator(h);
  }

  /** A line made of separator characters with a '|' at index 4 is a separator line. */
  lemma ExampleSeparator(s: string)
    requires |s| == 9 && s[0] == '|' && s[4] == '|' && s[8] == '|'
    requires forall k :: 0 <= k < 9 ==> s[k] == '|' || s[k] == '-' || s[k] == ' '
    ensures IsSeparatorLine(s)
  {
    StripStripped(s);
  }

  /** Every cell is one printable character. */
  predicate UnitCells(rows: seq<seq<string>>) {
    forall i, k :: 0 <= i < |rows| && 0 <= k < |rows[i]| ==> |rows[i][k]| == 1 && ' ' <= rows[i][k][0] <= '~'
  }

  /** A column of one-character cells, present in the last row, is one wide. */
  lemma UnitColumn(eaw: Classifier, rows: seq<seq<string>>, j: nat)
    requires AsciiNarrow(eaw) && UnitCells(rows) && |rows| >= 1 && j < |rows[|rows| - 1]|
    ensures ColumnWidth(eaw, rows, |rows|, j) == 1
  {
    forall i, k | 0 <= i < |rows| && 0 <= k < |rows[i]|
      ensures DisplayWidth(eaw, rows[i][k]) == 1
    {
      AsciiWidth(eaw, rows[i][k]);
    }
  }

  /** Rows of one-character cells whose last row is the longest, with two cells, make two
      columns one wide. */
  lemma UnitWidths(eaw: Classifier, rows: seq<seq<string>>)
    requires AsciiNarrow(eaw) && UnitCells(rows) && |rows| >= 1 && |rows[|rows| - 1]| == 2
    requires forall i :: 0 <= i < |rows| ==> |rows[i]| <= 2
    ensures MaxCellCount(rows) == 2 && ColumnWidths(eaw, rows, 2) == [1, 1]
  {
    UnitColumn(eaw, rows, 0);
    UnitColumn(eaw, rows, 1);
  }

  /** The lines of the first pass: "| - |" sits above the separator "|---|---|". */
  lemma ExampleFirstLines(lines: seq<string>, x: char, y: char)
    requires TextChar(x) && TextChar(y) && lines == ["| - |", "|---|---|", PairLine(x, y)]
    ensures FirstSeparator(lines) == Some(1) && !HasText(lines[0])
  {
    ExampleHeader();
    ExampleSeparator(lines[1]);
    FirstSeparatorAt(lines, 1);
  }

  /** The rows of either pass make two columns one wide. */
  lemma ExampleWidths(eaw: Classifier, rows: seq<seq<string>>, x: char, y: char)
    requires AsciiNarrow(eaw) && TextChar(x) && TextChar(y)
    requires rows == [["-"], [], [[x], [y]]] || rows == [[], ["-", "-"], [[x], [y]]]
    ensures MaxCellCount(rows) == 2 && ColumnWidths(eaw, rows, 2) == [1, 1]
  {
    UnitWidths(eaw, rows);
  }

  /** The input of the first pass. */
  lemma ExampleFirstInput(text: string, x: char, y: char)
    requires TextChar(x) && TextChar(y) && text == Join(["| - |", "|---|---|", PairLine(x, y)], "\n")
    ensures TableLines(text) == ["| - |", "|---|---|", PairLine(x, y)]
    ensures IsTable(text) && SeparatorIndex(text) == 1 && !HeaderHasText(text)
  {
    var lines := ["| - |", "|---|---|", PairLine(x, y)];
    ExampleLines(text, lines);
    ExampleFirstLines(lines, x, y);
  }

  /** The rows of the first pass: the header has one cell, the separator none. */
  lemma ExampleFirstRows(eaw: Classifier, lines: seq<string>, x: char, y: char)
    requires AsciiNarrow(eaw) && TextChar(x) && TextChar(y)
    requires lines == ["| - |", "|---|---|", PairLine(x, y)]
    ensures ParseRows(lines, 1) == [["-"], [], [[x], [y]]]
  {
    RowDash(eaw);
    RowPair(eaw, x, y);
    RowsSeparatorSecond(lines, ["-"], [[x], [y]]);
  }

  lemma ExampleFirstRender(eaw: Classifier, rows: seq<seq<string>>, x: char, y: char)
    requires AsciiNarrow(eaw) && TextChar(x) && TextChar(y) && rows == [["-"], [], [[x], [y]]]
    ensures RenderTable(eaw, rows, 1, [1, 1]) == ["| - |   |", PairLine('-', '-'), PairLine(x, y)]
  {
    RowDashBlank(eaw);
    RowPair(eaw, x, y);
    DashesUnits();
  }

  /** The first pass: the header "| - |" has one cell, the table two columns one wide. */
  lemma ExampleFirstPass(eaw: Classifier, text: string, x: char, y: char)
    requires AsciiNarrow(eaw) && TextChar(x) && TextChar(y)
    requires TableLines(text) == ["| - |", "|---|---|", PairLine(x, y)]
    requires IsTable(text) && SeparatorIndex(text) == 1
    ensures FormattedLines(eaw, text) == ["| - |   |", PairLine('-', '-'), PairLine(x, y)]
  {
    ExampleFirstRows(eaw, TableLines(text), x, y);
    ExampleWidths(eaw, TableRows(text), x, y);
    ExampleFirstRender(eaw, TableRows(text), x, y);
  }

  /** The lines of the second pass: its first line "| - |   |" is a separator. */
  lemma ExampleSecondInput(text: string, x: char, y: char)
    requires TextChar(x) && TextChar(y) && text == Join(["| - |   |", PairLine('-', '-'), PairLine(x, y)], "\n")
    ensures TableLines(text) == ["| - |   |", PairLine('-', '-'), PairLine(x, y)]
    ensures IsTable(text) && SeparatorIndex(text) == 0
  {
    var lines := ["| - |   |", PairLine('-', '-'), PairLine(x, y)];
    SecondLinesFramed(lines, x, y);
    ExampleLines(text, lines);
    SecondLinesSeparator(lines, x, y);
  }

  /** Each line of the second pass is framed by pipes and has no line break. */
  lemma SecondLinesFramed(lines: seq<string>, x: char, y: char)
    requires TextChar(x) && TextChar(y)
    requires lines == ["| - |   |", PairLine('-', '-'), PairLine(x, y)]
    ensures forall k :: 0 <= k < 3 ==>
      |lines[k]| >= 2 && lines[k][0] == '|' && lines[k][|lines[k]| - 1] == '|' && '\n' !in lines[k]
  {
  }

  /** The first line of the second pass is its first separator. */
  lemma SecondLinesSeparator(lines: seq<string>, x: char, y: char)
    requires lines == ["| - |   |", PairLine('-', '-'), PairLine(x, y)]
    ensures FirstSeparator(lines) == Some(0)
  {
    ExampleSeparator(lines[0]);
    FirstSeparatorAt(lines, 0);
  }

  /** The rows of the second pass: the old separator is a row of two "-" cells. */
  lemma ExampleSecondRows(eaw: Classifier, lines: seq<string>, x: char, y: char)
    requires AsciiNarrow(eaw) && TextChar(x) && TextChar(y)
    requires lines == ["| - |   |", PairLine('-', '-'), PairLine(x, y)]
    ensures ParseRows(lines, 0) == [[], ["-", "-"], [[x], [y]]]
  {
    RowPair(eaw, '-', '-');
    RowPair(eaw, x, y);
    RowsSeparatorFirst(lines, ["-", "-"], [[x], [y]]);
  }

  lemma ExampleSecondRender(eaw: Classifier, rows: seq<seq<string>>, x: char, y: char)
    requires AsciiNarrow(eaw) && TextChar(x) && TextChar(y) && rows == [[], ["-", "-"], [[x], [y]]]
    ensures RenderTable(eaw, rows, 0, [1, 1]) == [PairLine('-', '-'), PairLine('-', '-'), PairLine(x, y)]
  {
    RowPair(eaw, '-', '-');
    RowPair(eaw, x, y);
    DashesUnits();
  }

  /** The second pass: the first output line "| - |   |" is now the separator, so the
      header is redrawn as hyphens and the old separator becomes a row of two "-" cells. */
  lemma ExampleSecondPass(eaw: Classifier, text: string, x: char, y: char)
    requires AsciiNarrow(eaw) && TextChar(x) && TextChar(y)
    requires TableLines(text) == ["| - |   |", PairLine('-', '-'), PairLine(x, y)]
    requires IsTable(text) && SeparatorIndex(text) == 0
    ensures FormattedLines(eaw, text) == [PairLine('-', '-'), PairLine('-', '-'), PairLine(x, y)]
  {
    ExampleSecondRows(eaw, TableLines(text), x, y);
    ExampleWidths(eaw, TableRows(text), x, y);
    ExampleSecondRender(eaw, TableRows(text), x, y);
  }

  /** The first pass formats the example as "| - |   |", "| - | - |", "| x | y |". */
  lemma ExampleOnce(eaw: Classifier, text: string, x: char, y: char)
    requires AsciiNarrow(eaw) && TextChar(x) && TextChar(y)
    requires text == Join(["| - |", "|---|---|", PairLine(x, y)], "\n")
    ensures !HeaderHasText(text)
    ensures FormatTable(eaw, text) == Join(["| - |   |", PairLine('-', '-'), PairLine(x, y)], "\n")
  {
    ExampleFirstInput(text, x, y);
    ExampleFirstPass(eaw, text, x, y);
  }

  /** The second pass formats that output as "| - | - |", "| - | - |", "| x | y |". */
  lemma ExampleTwice(eaw: Classifier, text: string, x: char, y: char)
    requires AsciiNarrow(eaw) && TextChar(x) && TextChar(y)
    requires text == Join(["| - |   |", PairLine('-', '-'), PairLine(x, y)], "\n")
    ensures FormatTable(eaw, text) == Join([PairLine('-', '-'), PairLine('-', '-'), PairLine(x, y)], "\n")
  {
    ExampleSecondInput(text, x, y);
    ExampleSecondPass(eaw, text, x, y);
  }

  /** The two outputs differ in the first line, at the seventh character. */
  lemma ExampleOutputsDiffer(x: char, y: char)
    requires TextChar(x) && TextChar(y)
    ensures Join(["| - |   |", PairLine('-', '-'), PairLine(x, y)], "\n") != Join([PairLine('-', '-'), PairLine('-', '-'), PairLine(x, y)], "\n")
  {
    var dashes := PairLine('-', '-');
    assert "| - |   |"[6] != dashes[6];
    JoinedLinesDiffer(["| - |   |", dashes, PairLine(x, y)], [dashes, dashes, PairLine(x, y)]);
  }

  /** Without text in the header lines idempotence fails: "| - |" above "|---|---|" is
      rendered as "| - |   |", which the second pass takes for the separator, whatever the
      one-character cells x and y of the last row. */
  lemma IdempotenceCounterexample(eaw: Classifier, text: string, x: char, y: char)
    requires AsciiNarrow(eaw) && TextChar(x) && TextChar(y)
    requires text == Join(["| - |", "|---|---|", PairLine(x, y)], "\n")
    ensures !HeaderHasText(text)
    ensures FormatTable(eaw, text) == Join(["| - |   |", PairLine('-', '-'), PairLine(x, y)], "\n")
    ensures FormatTable(eaw, FormatTable(eaw, text)) == Join([PairLine('-', '-'), PairLine('-', '-'), PairLine(x, y)], "\n")
    ensures FormatTable(eaw, FormatTable(eaw, text)) != FormatTable(eaw, text)
  {
    ExampleOnce(eaw, text, x, y);
    ExampleTwice(eaw, FormatTable(eaw, text), x, y);
    ExampleOutputsDiffer(x, y);
  }
}
