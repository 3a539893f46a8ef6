/** The tables of the source's tests, formatted: a three-line table of two columns is
    re-emitted with every column padded to its widest cell. */
module TableExamples {
  import opened Text
  import opened Width
  import opened Patterns
  import opened TableFormatter
  import opened TableProperties
  import opened TableIdempotence

  /** A line of two cells, "|" + a + "|" + b + "|". */
  function CellLine(a: string, b: string): string {
    "|" + a + "|" + b + "|"
  }

  /** The raw text between two pipes: not empty, no pipe and no line break. */
  predicate RawCell(a: string) {
    a != [] && '|' !in a && '\n' !in a
  }

  /** A two-cell line is stripped, framed by pipes and matches the pipe-line pattern. */
  lemma CellLineForm(a: string, b: string)
    requires RawCell(a) && RawCell(b)
    ensures var line := CellLine(a, b);
      |line| >= 2 && line[0] == '|' && line[|line| - 1] == '|' && '\n' !in line
      && IsStripped(line) && IsPipeLine(line)
  {
    var line := CellLine(a, b);
    assert line[|a| + 1] == '|' && line[1..|a| + 1] == a;
  }

  /** A two-cell line parses into its two cells, stripped. */
  lemma CellLineCells(a: string, b: string)
    requires RawCell(a) && RawCell(b)
    ensures ParseCells(CellLine(a, b)) == [Strip(a), Strip(b)]
  {
    var line := CellLine(a, b);
    var inner := a + "|" + b;
    assert line == "|" + inner + "|";
    CellLineForm(a, b);
    StripStripped(line);
    assert a[0] in a && b[|b| - 1] in b;
    StripCharsFramed("|", inner, "|", Only({'|'}));
    SplitCons(a, b, '|');
    SplitWithout(b, '|');
  }

  /** A line holding a character outside `[\s\-:|]` is not a separator line. */
  lemma TextLineNotSeparator(line: string)
    requires IsStripped(line) && HasText(line)
    ensures !IsSeparatorLine(line)
  {
    StripStripped(line);
  }

  /** Two-column rows render as their two padded cells between pipes. */
  lemma RenderTwo(eaw: Classifier, x: string, y: string, w1: nat, w2: nat)
    ensures RenderRow(eaw, [x, y], [w1, w2]) == "| " + Pad(eaw, x, w1) + " | " + Pad(eaw, y, w2) + " |"
    ensures RenderSeparator([w1, w2]) == "| " + Repeat('-', w1) + " | " + Repeat('-', w2) + " |"
  {
    var padded := [Pad(eaw, x, w1), Pad(eaw, y, w2)];
    var dashes := [Repeat('-', w1), Repeat('-', w2)];
    assert PaddedCells(eaw, [x, y], [w1, w2]) == padded;
    assert Dashes([w1, w2]) == dashes;
    JoinTwo(padded[0], padded[1], " | ");
    JoinTwo(dashes[0], dashes[1], " | ");
  }

  /** A two-column separator is two runs of hyphens between pipes. */
  lemma SeparatorTwo(w1: nat, w2: nat)
    ensures RenderSeparator([w1, w2]) == "| " + Repeat('-', w1) + " | " + Repeat('-', w2) + " |"
  {
    var dashes := [Repeat('-', w1), Repeat('-', w2)];
    assert Dashes([w1, w2]) == dashes;
    JoinTwo(dashes[0], dashes[1], " | ");
  }

  /** Two parts joined are the parts with the separator between them. */
  lemma JoinTwo(a: string, b: string, sep: string)
    ensures Join([a, b], sep) == a + sep + b
  {
    assert [a, b][1..] == [b];
  }

  /** A header, the separator's empty row and one body row, two cells each, make two
      columns. */
  lemma TwoColumnCount(rows: seq<seq<string>>)
    requires |rows| == 3 && |rows[0]| == 2 && rows[1] == [] && |rows[2]| == 2
    ensures MaxCellCount(rows) == 2
  {
    var n := MaxCellCount(rows);
    var i :| 0 <= i < |rows| && |rows[i]| == n;
  }

  /** Column `j` of those rows is as wide as the wider of its two cells. */
  lemma TwoColumnWidth(eaw: Classifier, rows: seq<seq<string>>, j: nat)
    requires |rows| == 3 && |rows[0]| == 2 && rows[1] == [] && |rows[2]| == 2 && j < 2
    ensures ColumnWidth(eaw, rows, 3, j) == Max(DisplayWidth(eaw, rows[0][j]), DisplayWidth(eaw, rows[2][j]))
  {
    var w := ColumnWidth(eaw, rows, 3, j);
    if w != 0 {
      var i :| 0 <= i < 3 && j < |rows[i]| && DisplayWidth(eaw, rows[i][j]) == w;
    }
  }

  /** The column widths of a header, the separator's empty row and one body row. */
  lemma TwoColumnWidths(eaw: Classifier, rows: seq<seq<string>>)
    requires |rows| == 3 && |rows[0]| == 2 && rows[1] == [] && |rows[2]| == 2
    ensures MaxCellCount(rows) == 2
    ensures ColumnWidths(eaw, rows, 2)
      == [Max(DisplayWidth(eaw, rows[0][0]), DisplayWidth(eaw, rows[2][0])),
          Max(DisplayWidth(eaw, rows[0][1]), DisplayWidth(eaw, rows[2][1]))]
  {
    TwoColumnCount(rows);
    TwoColumnWidth(eaw, rows, 0);
    TwoColumnWidth(eaw, rows, 1);
  }

  /** The lines of a two-column table: a header, a separator line and a body line. */
  function TwoColumnLines(h1: string, h2: string, sep: string, b1: string, b2: string): seq<string> {
    [CellLine(h1, h2), sep, CellLine(b1, b2)]
  }

  /** What the formatter reads from such a text: those lines, with the separator second. */
  lemma TwoColumnInput(text: string, h1: string, h2: string, sep: string, b1: string, b2: string)
    requires RawCell(h1) && RawCell(h2) && RawCell(b1) && RawCell(b2)
    requires HasText(CellLine(h1, h2))
    requires |sep| >= 2 && sep[0] == '|' && sep[|sep| - 1] == '|' && '\n' !in sep && IsSeparatorLine(sep)
    requires text == Join(TwoColumnLines(h1, h2, sep, b1, b2), "\n")
    ensures TableLines(text) == TwoColumnLines(h1, h2, sep, b1, b2)
    ensures IsTable(text) && SeparatorIndex(text) == 1
  {
    var lines := TwoColumnLines(h1, h2, sep, b1, b2);
    CellLineForm(h1, h2);
    CellLineForm(b1, b2);
    ExampleLines(text, lines);
    TextLineNotSeparator(lines[0]);
    FirstSeparatorAt(lines, 1);
  }

  /** The rows parsed from those lines: the stripped cells, and none for the separator. */
  lemma TwoColumnRows(lines: seq<string>, h1: string, h2: string, sep: string, b1: string, b2: string)
    requires RawCell(h1) && RawCell(h2) && RawCell(b1) && RawCell(b2)
    requires lines == TwoColumnLines(h1, h2, sep, b1, b2)
    ensures ParseRows(lines, 1) == [[Strip(h1), Strip(h2)], [], [Strip(b1), Strip(b2)]]
  {
    CellLineCells(h1, h2);
    CellLineCells(b1, b2);
    RowsSeparatorSecond(lines, [Strip(h1), Strip(h2)], [Strip(b1), Strip(b2)]);
  }

  /** Three rows with the separator second render as the two rows around the redrawn
      separator. */
  lemma TwoColumnRender(eaw: Classifier, rows: seq<seq<string>>, widths: seq<nat>)
    requires |rows| == 3
    ensures RenderTable(eaw, rows, 1, widths)
      == [RenderRow(eaw, rows[0], widths), RenderSeparator(widths), RenderRow(eaw, rows[2], widths)]
  {
  }

  /** A table of a header line, a separator line and a body line, two cells each, is
      formatted by padding each column to the wider of its two cells and redrawing the
      separator as hyphens of the same widths. */
  lemma TwoColumnTable(eaw: Classifier, text: string, h1: string, h2: string, sep: string, b1: string, b2: string)
    requires RawCell(h1) && RawCell(h2) && RawCell(b1) && RawCell(b2)
    requires HasText(CellLine(h1, h2))
    requires |sep| >= 2 && sep[0] == '|' && sep[|sep| - 1] == '|' && '\n' !in sep && IsSeparatorLine(sep)
    requires text == Join(TwoColumnLines(h1, h2, sep, b1, b2), "\n")
    ensures var w1 := Max(DisplayWidth(eaw, Strip(h1)), DisplayWidth(eaw, Strip(b1)));
      var w2 := Max(DisplayWidth(eaw, Strip(h2)), DisplayWidth(eaw, Strip(b2)));
      FormatTable(eaw, text)
      == Join([RenderRow(eaw, [Strip(h1), Strip(h2)], [w1, w2]), RenderSeparator([w1, w2]),
               RenderRow(eaw, [Strip(b1), Strip(b2)], [w1, w2])], "\n")
  {
    TwoColumnInput(text, h1, h2, sep, b1, b2);
    TwoColumnRows(TableLines(text), h1, h2, sep, b1, b2);
    var rows := TableRows(text);
    TwoColumnWidths(eaw, rows);
    TwoColumnRender(eaw, rows, TableWidths(eaw, text));
  }

  /** Three lines joined by "\n" are the lines with a line break between each two. */
  lemma JoinThree(a: string, b: string, c: string)
    ensures Join([a, b, c], "\n") == a + "\n" + b + "\n" + c
  {
    assert [a, b, c][1..] == [b, c];
    assert [b, c][1..] == [c];
    assert Join([b, c], "\n") == b + "\n" + c;
  }

  /** "|---|---|", the separator line of every test table. */
  lemma TestSeparator()
    ensures IsSeparatorLine("|---|---|")
  {
    ExampleSeparator("|---|---|");
  }

  // ----- test_ascii_table and test_strips_cell_whitespace -----

  lemma NameAgeWidths(eaw: Classifier)
    requires AsciiNarrow(eaw)
    ensures DisplayWidth(eaw, "Name") == 4 && DisplayWidth(eaw, "Age") == 3
    ensures DisplayWidth(eaw, "Alice") == 5 && DisplayWidth(eaw, "30") == 2
  {
    AsciiWidth(eaw, "Name");
    AsciiWidth(eaw, "Age");
    AsciiWidth(eaw, "Alice");
    AsciiWidth(eaw, "30");
  }

  /** The formatted Name/Age table the two tests expect. */
  lemma NameAgeRendered(eaw: Classifier)
    requires AsciiNarrow(eaw)
    ensures RenderRow(eaw, ["Name", "Age"], [5, 3]) == "| Name  | Age |"
    ensures RenderSeparator([5, 3]) == "| ----- | --- |"
    ensures RenderRow(eaw, ["Alice", "30"], [5, 3]) == "| Alice | 30  |"
  {
    NameAgeHeaderRow(eaw);
    NameAgeSeparatorRow();
    NameAgeBodyRow(eaw);
  }

  lemma NameAgeHeaderRow(eaw: Classifier)
    requires AsciiNarrow(eaw)
    ensures RenderRow(eaw, ["Name", "Age"], [5, 3]) == "| Name  | Age |"
  {
    NameAgeWidths(eaw);
    RenderTwo(eaw, "Name", "Age", 5, 3);
    assert Repeat(' ', 1) == " " && Repeat(' ', 0) == "";
  }

  lemma NameAgeSeparatorRow()
    ensures RenderSeparator([5, 3]) == "| ----- | --- |"
  {
    SeparatorTwo(5, 3);
    assert Repeat('-', 5) == "-----" && Repeat('-', 3) == "---";
  }

  lemma NameAgeBodyRow(eaw: Classifier)
    requires AsciiNarrow(eaw)
    ensures RenderRow(eaw, ["Alice", "30"], [5, 3]) == "| Alice | 30  |"
  {
    NameAgeWidths(eaw);
    RenderTwo(eaw, "Alice", "30", 5, 3);
    assert Repeat(' ', 1) == " " && Repeat(' ', 0) == "";
  }

  /** The Name/Age table, whatever spaces surround its cells, is formatted as the tests
      expect. */
  lemma NameAgeTable(eaw: Classifier, text: string, h1: string, h2: string, b1: string, b2: string)
    requires AsciiNarrow(eaw)
    requires RawCell(h1) && RawCell(h2) && RawCell(b1) && RawCell(b2) && HasText(CellLine(h1, h2))
    requires Strip(h1) == "Name" && Strip(h2) == "Age" && Strip(b1) == "Alice" && Strip(b2) == "30"
    requires text == Join(TwoColumnLines(h1, h2, "|---|---|", b1, b2), "\n")
    ensures FormatTable(eaw, text) == Join(["| Name  | Age |", "| ----- | --- |", "| Alice | 30  |"], "\n")
  {
    TestSeparator();
    TwoColumnTable(eaw, text, h1, h2, "|---|---|", b1, b2);
    NameAgeWidths(eaw);
    NameAgeRendered(eaw);
  }

  /** A cell the source's tests write with `k` spaces on either side. */
  lemma Spaced(cell: string, m: string, pad: string)
    requires cell == pad + m + pad && m != [] && '|' !in m && '\n' !in m && IsStripped(m)
    requires forall i :: 0 <= i < |pad| ==> pad[i] == ' '
    ensures RawCell(cell) && Strip(cell) == m
  {
    StripCharsFramed(pad, m, pad, AnyWhitespace);
    assert forall i :: 0 <= i < |cell| ==> cell[i] == ' ' || cell[i] in m;
  }

  /** The Name/Age output the two tests expect, as one text. */
  lemma NameAgeOutput()
    ensures Join(["| Name  | Age |", "| ----- | --- |", "| Alice | 30  |"], "\n")
      == "| Name  | Age |\n| ----- | --- |\n| Alice | 30  |"
  {
    JoinThree("| Name  | Age |", "| ----- | --- |", "| Alice | 30  |");
    NameAgeOutputHead();
    NameAgeOutputTail();
  }

  lemma NameAgeOutputHead()
    ensures "| Name  | Age |" + "\n" + "| ----- | --- |" == "| Name  | Age |\n| ----- | --- |"
  {
  }

  lemma NameAgeOutputTail()
    ensures "| Name  | Age |\n| ----- | --- |" + "\n" + "| Alice | 30  |"
      == "| Name  | Age |\n| ----- | --- |\n| Alice | 30  |"
  {
  }

  /** The input of test_ascii_table, one space around every cell. */
  lemma AsciiTableInput(text: string)
    requires text == "| Name | Age |\n|---|---|\n| Alice | 30 |"
    ensures text == Join(TwoColumnLines(" Name ", " Age ", "|---|---|", " Alice ", " 30 "), "\n")
  {
    AsciiTableLines();
    JoinThree("| Name | Age |", "|---|---|", "| Alice | 30 |");
  }

  lemma AsciiTableLines()
    ensures TwoColumnLines(" Name ", " Age ", "|---|---|", " Alice ", " 30 ")
      == ["| Name | Age |", "|---|---|", "| Alice | 30 |"]
  {
    assert CellLine(" Name ", " Age ") == "| Name | Age |";
    assert CellLine(" Alice ", " 30 ") == "| Alice | 30 |";
  }

  /** Its header cells strip to "Name" and "Age", and its header holds text. */
  lemma AsciiTableHeader()
    ensures RawCell(" Name ") && Strip(" Name ") == "Name"
    ensures RawCell(" Age ") && Strip(" Age ") == "Age"
    ensures HasText(CellLine(" Name ", " Age "))
  {
    Spaced(" Name ", "Name", " ");
    Spaced(" Age ", "Age", " ");
    assert CellLine(" Name ", " Age ")[2] == 'N';
  }

  /** Its body cells strip to "Alice" and "30". */
  lemma AsciiTableBody()
    ensures RawCell(" Alice ") && Strip(" Alice ") == "Alice"
    ensures RawCell(" 30 ") && Strip(" 30 ") == "30"
  {
    Spaced(" Alice ", "Alice", " ");
    Spaced(" 30 ", "30", " ");
  }

  /** The lines of test_ascii_table's input. */
  function AsciiTableRun(): seq<string> {
    TwoColumnLines(" Name ", " Age ", "|---|---|", " Alice ", " 30 ")
  }

  /** The lines of a two-column table are stripped and unbroken; the first and last are
      pipe lines and the second a separator. */
  lemma TwoColumnLinesShape(h1: string, h2: string, sep: string, b1: string, b2: string)
    requires RawCell(h1) && RawCell(h2) && RawCell(b1) && RawCell(b2)
    requires IsStripped(sep) && '\n' !in sep && IsSeparator(sep)
    ensures var lines := TwoColumnLines(h1, h2, sep, b1, b2);
      (forall k :: 0 <= k < 3 ==> IsStripped(lines[k]) && '\n' !in lines[k])
      && IsPipeLine(lines[0]) && IsSeparator(lines[1]) && IsPipeLine(lines[2])
  {
    CellLineForm(h1, h2);
    CellLineForm(b1, b2);
  }

  /** The lines of test_ascii_table's input have that shape. */
  lemma AsciiTableRunShape()
    ensures forall k :: 0 <= k < 3 ==> IsStripped(AsciiTableRun()[k]) && '\n' !in AsciiTableRun()[k]
    ensures IsPipeLine(AsciiTableRun()[0]) && IsSeparator(AsciiTableRun()[1]) && IsPipeLine(AsciiTableRun()[2])
  {
    AsciiTableHeader();
    AsciiTableBody();
    TestSeparator();
    StripStripped("|---|---|");
    TwoColumnLinesShape(" Name ", " Age ", "|---|---|", " Alice ", " 30 ");
  }

  /** They join into the test's input text. */
  lemma AsciiTableRunText()
    ensures Join(AsciiTableRun(), "\n") == "| Name | Age |\n|---|---|\n| Alice | 30 |"
  {
    AsciiTableInput("| Name | Age |\n|---|---|\n| Alice | 30 |");
  }

  /** test_ascii_table: the header and the body are padded to the columns' widest cells. */
  lemma AsciiTableExample(eaw: Classifier, text: string)
    requires AsciiNarrow(eaw)
    requires text == "| Name | Age |\n|---|---|\n| Alice | 30 |"
    ensures FormatTable(eaw, text) == "| Name  | Age |\n| ----- | --- |\n| Alice | 30  |"
  {
    AsciiTableInput(text);
    AsciiTableHeader();
    AsciiTableBody();
    NameAgeTable(eaw, text, " Name ", " Age ", " Alice ", " 30 ");
    NameAgeOutput();
  }

  /** The input of test_strips_cell_whitespace, two spaces around every cell. */
  lemma StripsCellWhitespaceInput(text: string)
    requires text == "|  Name  |  Age  |\n|---|---|\n|  Alice  |  30  |"
    ensures text == Join(TwoColumnLines("  Name  ", "  Age  ", "|---|---|", "  Alice  ", "  30  "), "\n")
  {
    StripsCellWhitespaceLines();
    JoinThree("|  Name  |  Age  |", "|---|---|", "|  Alice  |  30  |");
    StripsCellWhitespaceInputHead();
    StripsCellWhitespaceInputTail();
  }

  lemma StripsCellWhitespaceInputHead()
    ensures "|  Name  |  Age  |" + "\n" + "|---|---|" == "|  Name  |  Age  |\n|---|---|"
  {
  }

  lemma StripsCellWhitespaceInputTail()
    ensures "|  Name  |  Age  |\n|---|---|" + "\n" + "|  Alice  |  30  |"
      == "|  Name  |  Age  |\n|---|---|\n|  Alice  |  30  |"
  {
  }

  lemma StripsCellWhitespaceLines()
    ensures TwoColumnLines("  Name  ", "  Age  ", "|---|---|", "  Alice  ", "  30  ")
      == ["|  Name  |  Age  |", "|---|---|", "|  Alice  |  30  |"]
  {
    assert CellLine("  Name  ", "  Age  ") == "|  Name  |  Age  |";
    assert CellLine("  Alice  ", "  30  ") == "|  Alice  |  30  |";
  }

  /** Its header cells strip to "Name" and "Age", and its header holds text. */
  lemma StripsCellWhitespaceHeader()
    ensures RawCell("  Name  ") && Strip("  Name  ") == "Name"
    ensures RawCell("  Age  ") && Strip("  Age  ") == "Age"
    ensures HasText(CellLine("  Name  ", "  Age  "))
  {
    Spaced("  Name  ", "Name", "  ");
    Spaced("  Age  ", "Age", "  ");
    StripsCellWhitespaceText();
  }

  lemma StripsCellWhitespaceText()
    ensures HasText(CellLine("  Name  ", "  Age  "))
  {
    assert CellLine("  Name  ", "  Age  ")[3] == 'N';
  }

  /** Its body cells strip to "Alice" and "30". */
  lemma StripsCellWhitespaceBody()
    ensures RawCell("  Alice  ") && Strip("  Alice  ") == "Alice"
    ensures RawCell("  30  ") && Strip("  30  ") == "30"
  {
    Spaced("  Alice  ", "Alice", "  ");
    Spaced("  30  ", "30", "  ");
  }

  /** test_strips_cell_whitespace: extra spaces around the cells are dropped. */
  lemma StripsCellWhitespaceExample(eaw: Classifier, text: string)
    requires AsciiNarrow(eaw)
    requires text == "|  Name  |  Age  |\n|---|---|\n|  Alice  |  30  |"
    ensures FormatTable(eaw, text) == "| Name  | Age |\n| ----- | --- |\n| Alice | 30  |"
  {
    StripsCellWhitespaceInput(text);
    StripsCellWhitespaceHeader();
    StripsCellWhitespaceBody();
    NameAgeTable(eaw, text, "  Name  ", "  Age  ", "  Alice  ", "  30  ");
    NameAgeOutput();
  }

  // ----- test_separator_width_adjustment -----

  /** The cells of the A/BB table strip to themselves, and its header holds text. */
  lemma SeparatorWidthCells()
    ensures RawCell(" A ") && Strip(" A ") == "A" && RawCell(" BB ") && Strip(" BB ") == "BB"
    ensures RawCell(" CCC ") && Strip(" CCC ") == "CCC" && RawCell(" D ") && Strip(" D ") == "D"
    ensures HasText(CellLine(" A ", " BB "))
  {
    SeparatorWidthHeaderCells();
    SeparatorWidthBodyCells();
  }

  lemma SeparatorWidthHeaderCells()
    ensures RawCell(" A ") && Strip(" A ") == "A" && RawCell(" BB ") && Strip(" BB ") == "BB"
    ensures HasText(CellLine(" A ", " BB "))
  {
    Spaced(" A ", "A", " ");
    Spaced(" BB ", "BB", " ");
    assert CellLine(" A ", " BB ")[2] == 'A';
  }

  lemma SeparatorWidthBodyCells()
    ensures RawCell(" CCC ") && Strip(" CCC ") == "CCC" && RawCell(" D ") && Strip(" D ") == "D"
  {
    Spaced(" CCC ", "CCC", " ");
    Spaced(" D ", "D", " ");
  }

  lemma SeparatorWidthLines()
    ensures TwoColumnLines(" A ", " BB ", "|---|---|", " CCC ", " D ")
      == ["| A | BB |", "|---|---|", "| CCC | D |"]
  {
    assert CellLine(" A ", " BB ") == "| A | BB |";
    assert CellLine(" CCC ", " D ") == "| CCC | D |";
  }

  /** The formatted A/BB table: three and two columns wide. */
  lemma SeparatorWidthRendered(eaw: Classifier)
    requires AsciiNarrow(eaw)
    ensures Max(DisplayWidth(eaw, "A"), DisplayWidth(eaw, "CCC")) == 3
    ensures Max(DisplayWidth(eaw, "BB"), DisplayWidth(eaw, "D")) == 2
    ensures RenderRow(eaw, ["A", "BB"], [3, 2]) == "| A   | BB |"
    ensures RenderSeparator([3, 2]) == "| --- | -- |"
    ensures RenderRow(eaw, ["CCC", "D"], [3, 2]) == "| CCC | D  |"
  {
    SeparatorWidthWidths(eaw);
    SeparatorWidthHeaderRow(eaw);
    SeparatorWidthSeparatorRow();
    SeparatorWidthBodyRow(eaw);
  }

  lemma SeparatorWidthWidths(eaw: Classifier)
    requires AsciiNarrow(eaw)
    ensures DisplayWidth(eaw, "A") == 1 && DisplayWidth(eaw, "BB") == 2
    ensures DisplayWidth(eaw, "CCC") == 3 && DisplayWidth(eaw, "D") == 1
  {
    AsciiWidth(eaw, "A");
    AsciiWidth(eaw, "BB");
    AsciiWidth(eaw, "CCC");
    AsciiWidth(eaw, "D");
  }

  lemma SeparatorWidthHeaderRow(eaw: Classifier)
    requires AsciiNarrow(eaw)
    ensures RenderRow(eaw, ["A", "BB"], [3, 2]) == "| A   | BB |"
  {
    SeparatorWidthWidths(eaw);
    RenderTwo(eaw, "A", "BB", 3, 2);
    assert Repeat(' ', 2) == "  " && Repeat(' ', 0) == "";
  }

  lemma SeparatorWidthSeparatorRow()
    ensures RenderSeparator([3, 2]) == "| --- | -- |"
  {
    SeparatorTwo(3, 2);
    assert Repeat('-', 3) == "---" && Repeat('-', 2) == "--";
  }

  lemma SeparatorWidthBodyRow(eaw: Classifier)
    requires AsciiNarrow(eaw)
    ensures RenderRow(eaw, ["CCC", "D"], [3, 2]) == "| CCC | D  |"
  {
    SeparatorWidthWidths(eaw);
    RenderTwo(eaw, "CCC", "D", 3, 2);
    assert Repeat(' ', 1) == " " && Repeat(' ', 0) == "";
  }

  /** test_separator_width_adjustment: the separator follows the widths of the cells, not
      its own hyphens. */
  lemma SeparatorWidthExample(eaw: Classifier, text: string)
    requires AsciiNarrow(eaw)
    requires text == "| A | BB |\n|---|---|\n| CCC | D |"
    ensures FormatTable(eaw, text) == "| A   | BB |\n| --- | -- |\n| CCC | D  |"
  {
    SeparatorWidthInput(text);
    SeparatorWidthTable(eaw, text);
    SeparatorWidthOutput();
  }

  lemma SeparatorWidthInput(text: string)
    requires text == "| A | BB |\n|---|---|\n| CCC | D |"
    ensures text == Join(TwoColumnLines(" A ", " BB ", "|---|---|", " CCC ", " D "), "\n")
  {
    SeparatorWidthLines();
    JoinThree("| A | BB |", "|---|---|", "| CCC | D |");
  }

  lemma SeparatorWidthOutput()
    ensures Join(["| A   | BB |", "| --- | -- |", "| CCC | D  |"], "\n") == "| A   | BB |\n| --- | -- |\n| CCC | D  |"
  {
    JoinThree("| A   | BB |", "| --- | -- |", "| CCC | D  |");
    var joined := "| A   | BB |" + "\n" + "| --- | -- |" + "\n" + "| CCC | D  |";
    var expected := "| A   | BB |\n| --- | -- |\n| CCC | D  |";
    assert |joined| == |expected|;
    assert forall i :: 0 <= i < |expected| ==> joined[i] == expected[i];
  }

  lemma SeparatorWidthTable(eaw: Classifier, text: string)
    requires AsciiNarrow(eaw)
    requires text == Join(TwoColumnLines(" A ", " BB ", "|---|---|", " CCC ", " D "), "\n")
    ensures FormatTable(eaw, text) == Join(["| A   | BB |", "| --- | -- |", "| CCC | D  |"], "\n")
  {
    SeparatorWidthCells();
    TestSeparator();
    TwoColumnTable(eaw, text, " A ", " BB ", "|---|---|", " CCC ", " D ");
    SeparatorWidthRendered(eaw);
  }

  // ----- test_cjk_mixed_table -----

  /** The ideographs of the CJK test are Wide in the Unicode table. */
  predicate CjkWide(eaw: Classifier) {
    eaw('名') == Wide && eaw('前') == Wide && eaw('説') == Wide && eaw('明') == Wide
    && eaw('支') == Wide && eaw('店') == Wide
  }

  lemma CjkCells()
    ensures RawCell(" 名前 ") && Strip(" 名前 ") == "名前" && RawCell(" 説明 ") && Strip(" 説明 ") == "説明"
    ensures HasText(CellLine(" 名前 ", " 説明 "))
  {
    Spaced(" 名前 ", "名前", " ");
    Spaced(" 説明 ", "説明", " ");
    assert CellLine(" 名前 ", " 説明 ")[2] == '名';
  }

  lemma CjkBodyCells()
    ensures RawCell(" fields[0] ") && Strip(" fields[0] ") == "fields[0]"
    ensures RawCell(" NTT支店名 ") && Strip(" NTT支店名 ") == "NTT支店名"
  {
    CjkFieldCell();
    CjkBranchCell();
  }

  lemma CjkFieldCell()
    ensures RawCell(" fields[0] ") && Strip(" fields[0] ") == "fields[0]"
  {
    Spaced(" fields[0] ", "fields[0]", " ");
  }

  lemma CjkBranchCell()
    ensures RawCell(" NTT支店名 ") && Strip(" NTT支店名 ") == "NTT支店名"
  {
    Spaced(" NTT支店名 ", "NTT支店名", " ");
  }

  lemma CjkLines()
    ensures TwoColumnLines(" 名前 ", " 説明 ", "|---|---|", " fields[0] ", " NTT支店名 ")
      == ["| 名前 | 説明 |", "|---|---|", "| fields[0] | NTT支店名 |"]
  {
    assert CellLine(" 名前 ", " 説明 ") == "| 名前 | 説明 |";
    assert CellLine(" fields[0] ", " NTT支店名 ") == "| fields[0] | NTT支店名 |";
  }

  /** Two wide ideographs are four columns; "fields[0]" and "NTT支店名" are nine. */
  lemma CjkWidths(eaw: Classifier)
    requires AsciiNarrow(eaw) && CjkWide(eaw)
    ensures DisplayWidth(eaw, "名前") == 4 && DisplayWidth(eaw, "説明") == 4
    ensures DisplayWidth(eaw, "fields[0]") == 9 && DisplayWidth(eaw, "NTT支店名") == 9
  {
    DisplayWidthAllWide(eaw, "名前");
    DisplayWidthAllWide(eaw, "説明");
    AsciiWidth(eaw, "fields[0]");
    AsciiWidth(eaw, "NTT");
    DisplayWidthAllWide(eaw, "支店名");
    assert "NTT支店名" == "NTT" + "支店名";
    DisplayWidthAppend(eaw, "NTT", "支店名");
  }

  /** The formatted CJK table: both columns nine wide, the ideographs padded by five. */
  lemma CjkRendered(eaw: Classifier)
    requires AsciiNarrow(eaw) && CjkWide(eaw)
    ensures Max(DisplayWidth(eaw, "名前"), DisplayWidth(eaw, "fields[0]")) == 9
    ensures Max(DisplayWidth(eaw, "説明"), DisplayWidth(eaw, "NTT支店名")) == 9
    ensures RenderRow(eaw, ["名前", "説明"], [9, 9]) == "| 名前      | 説明      |"
    ensures RenderSeparator([9, 9]) == "| --------- | --------- |"
    ensures RenderRow(eaw, ["fields[0]", "NTT支店名"], [9, 9]) == "| fields[0] | NTT支店名 |"
  {
    CjkWidths(eaw);
    CjkHeaderRow(eaw);
    CjkSeparatorRow();
    CjkBodyRow(eaw);
  }

  lemma CjkHeaderRow(eaw: Classifier)
    requires AsciiNarrow(eaw) && CjkWide(eaw)
    ensures RenderRow(eaw, ["名前", "説明"], [9, 9]) == "| 名前      | 説明      |"
  {
    CjkWidths(eaw);
    RenderTwo(eaw, "名前", "説明", 9, 9);
    assert Repeat(' ', 5) == "     ";
  }

  lemma CjkSeparatorRow()
    ensures RenderSeparator([9, 9]) == "| --------- | --------- |"
  {
    SeparatorTwo(9, 9);
    assert Repeat('-', 9) == "---------";
  }

  lemma CjkBodyRow(eaw: Classifier)
    requires AsciiNarrow(eaw) && CjkWide(eaw)
    ensures RenderRow(eaw, ["fields[0]", "NTT支店名"], [9, 9]) == "| fields[0] | NTT支店名 |"
  {
    CjkWidths(eaw);
    RenderTwo(eaw, "fields[0]", "NTT支店名", 9, 9);
    assert Repeat(' ', 0) == "";
  }

  /** test_cjk_mixed_table: wide characters count two columns when the cells are padded. */
  lemma CjkMixedTableExample(eaw: Classifier, text: string)
    requires AsciiNarrow(eaw) && CjkWide(eaw)
    requires text == "| 名前 | 説明 |\n|---|---|\n| fields[0] | NTT支店名 |"
    ensures FormatTable(eaw, text)
      == "| 名前      | 説明      |\n| --------- | --------- |\n| fields[0] | NTT支店名 |"
  {
    CjkInput(text);
    CjkTable(eaw, text);
    CjkOutput();
  }

  lemma CjkInput(text: string)
    requires text == "| 名前 | 説明 |\n|---|---|\n| fields[0] | NTT支店名 |"
    ensures text == Join(TwoColumnLines(" 名前 ", " 説明 ", "|---|---|", " fields[0] ", " NTT支店名 "), "\n")
  {
    CjkLines();
    JoinThree("| 名前 | 説明 |", "|---|---|", "| fields[0] | NTT支店名 |");
    CjkInputHead();
    CjkInputTail();
  }

  lemma CjkInputHead()
    ensures "| 名前 | 説明 |" + "\n" + "|---|---|" == "| 名前 | 説明 |\n|---|---|"
  {
  }

  lemma CjkInputTail()
    ensures "| 名前 | 説明 |\n|---|---|" + "\n" + "| fields[0] | NTT支店名 |"
      == "| 名前 | 説明 |\n|---|---|\n| fields[0] | NTT支店名 |"
  {
  }

  lemma CjkOutput()
    ensures Join(["| 名前      | 説明      |", "| --------- | --------- |", "| fields[0] | NTT支店名 |"], "\n")
      == "| 名前      | 説明      |\n| --------- | --------- |\n| fields[0] | NTT支店名 |"
  {
    var a, b, c := "| 名前      | 説明      |", "| --------- | --------- |", "| fields[0] | NTT支店名 |";
    JoinThree(a, b, c);
    CjkOutputHead();
    CjkOutputTail();
  }

  lemma CjkOutputHead()
    ensures "| 名前      | 説明      |" + "\n" + "| --------- | --------- |"
      == "| 名前      | 説明      |\n| --------- | --------- |"
  {
  }

  lemma CjkOutputTail()
    ensures "| 名前      | 説明      |\n| --------- | --------- |" + "\n" + "| fields[0] | NTT支店名 |"
      == "| 名前      | 説明      |\n| --------- | --------- |\n| fields[0] | NTT支店名 |"
  {
  }

  lemma CjkTable(eaw: Classifier, text: string)
    requires AsciiNarrow(eaw) && CjkWide(eaw)
    requires text == Join(TwoColumnLines(" 名前 ", " 説明 ", "|---|---|", " fields[0] ", " NTT支店名 "), "\n")
    ensures FormatTable(eaw, text)
      == Join(["| 名前      | 説明      |", "| --------- | --------- |", "| fields[0] | NTT支店名 |"], "\n")
  {
    CjkCells();
    CjkBodyCells();
    TestSeparator();
    TwoColumnTable(eaw, text, " 名前 ", " 説明 ", "|---|---|", " fields[0] ", " NTT支店名 ");
    CjkRendered(eaw);
  }
}
