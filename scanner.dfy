/** server.py `format_md_tables_in_text`: walks a document line by line, copies fenced code
    blocks and ordinary lines as they are, and replaces every run of pipe lines that holds a
    separator by the formatted table. */
module DocumentScanner {
  import opened Text
  import opened Width
  import opened Patterns
  import opened TableFormatter

  /** `line.rstrip("\n").strip()`: the form the patterns are tried on. */
  function Normalized(line: string): string {
    Strip(RStrip(line, Only({'\n'})))
  }

  /** `line.rstrip("\n").lstrip().startswith("```")`: the line opens or closes a code block. */
  predicate IsFence(line: string) {
    StartsWith(LStrip(RStrip(line, Only({'\n'})), AnyWhitespace), "```")
  }

  /** The run collector keeps a line whose normalized form matches either pattern. */
  predicate IsRunLine(line: string) {
    IsPipeLine(Normalized(line)) || IsSeparator(Normalized(line))
  }

  /** Where the run of collectable lines that starts at `j` ends. */
  function RunEnd(lines: seq<string>, j: nat): (e: nat)
    requires j <= |lines|
    ensures j <= e <= |lines|
    decreases |lines| - j
  {
    if j < |lines| && IsRunLine(lines[j]) then RunEnd(lines, j + 1) else j
  }

  /** The run is maximal: every line in it is collectable and the line after it is not. */
  lemma {:induction false} RunEndSpec(lines: seq<string>, j: nat)
    requires j <= |lines|
    ensures var e := RunEnd(lines, j);
      (forall k :: j <= k < e ==> IsRunLine(lines[k])) && (e < |lines| ==> !IsRunLine(lines[e]))
    decreases |lines| - j
  {
    if j < |lines| && IsRunLine(lines[j]) {
      RunEndSpec(lines, j + 1);
    }
  }

  /** `table_lines`: the normalized lines `i` up to `j`. */
  function RunLines(lines: seq<string>, i: nat, j: nat): (run: seq<string>)
    requires i <= j <= |lines|
    ensures |run| == j - i
    decreases j
  {
    if j == i then [] else RunLines(lines, i, j - 1) + [Normalized(lines[j - 1])]
  }

  lemma {:induction false} RunLinesSpec(lines: seq<string>, i: nat, j: nat)
    requires i <= j <= |lines|
    ensures forall k :: 0 <= k < j - i ==> RunLines(lines, i, j)[k] == Normalized(lines[i + k])
    decreases j
  {
    if j > i {
      RunLinesSpec(lines, i, j - 1);
    }
  }

  /** `has_separator`. */
  predicate HasSeparator(run: seq<string>) {
    exists k :: 0 <= k < |run| && IsSeparator(run[k])
  }

  /** The run starting at line `i` is replaced: it is long enough and holds a separator. */
  predicate Replaced(lines: seq<string>, i: nat)
    requires i <= |lines|
  {
    var run := RunLines(lines, i, RunEnd(lines, i));
    HasSeparator(run) && |run| >= 2
  }

  /** The table formatter the scanner applies to a run joined by "\n". */
  type Formatter = string -> string

  /** `format_md_table` as a formatter. */
  function TableFormatterOf(eaw: Classifier): Formatter {
    text => FormatTable(eaw, text)
  }

  /** What replaces a run: the formatted table, followed by "\n" when the run's last line,
      as it stood in the document, had one. */
  function Replacement(format: Formatter, run: seq<string>, lastLine: string): string {
    var formatted := format(Join(run, "\n"));
    if EndsWith(lastLine, "\n") then formatted + "\n" else formatted
  }

  /** One turn of the scanning loop: the piece it appends to `result`, where the cursor
      goes next and the code-block flag after it. */
  datatype Emit = Emit(piece: string, next: nat, inCode: bool)

  /** The turn of the loop at line `i`, with `inCode` telling whether line `i` is inside a
      fenced code block. */
  function Step(format: Formatter, lines: seq<string>, i: nat, inCode: bool): (e: Emit)
    requires i < |lines|
    ensures i < e.next <= |lines|
  {
    if IsFence(lines[i]) then Emit(lines[i], i + 1, !inCode)
    else if inCode || !IsPipeLine(Normalized(lines[i])) then Emit(lines[i], i + 1, inCode)
    else RunStep(format, lines, i, inCode)
  }

  /** The turn of the loop at a pipe line outside code: the run is replaced, or the line is
      copied and the cursor moves on by one. */
  function RunStep(format: Formatter, lines: seq<string>, i: nat, inCode: bool): (e: Emit)
    requires i < |lines| && IsPipeLine(Normalized(lines[i]))
    ensures i < e.next <= |lines|
  {
    if Replaced(lines, i) then
      var j := RunEnd(lines, i);
      Emit(Replacement(format, RunLines(lines, i, j), lines[j - 1]), j, inCode)
    else Emit(lines[i], i + 1, inCode)
  }

  /** The pieces `result` collects from line `i` on. */
  function Scan(format: Formatter, lines: seq<string>, i: nat, inCode: bool): seq<string>
    requires i <= |lines|
    decreases |lines| - i, 1
  {
    if i == |lines| then [] else ScanAfter(format, lines, i, Step(format, lines, i, inCode))
  }

  /** The pieces collected once the turn at line `i` has produced `e`: its piece, then the
      pieces from where it leaves the cursor. */
  function ScanAfter(format: Formatter, lines: seq<string>, i: nat, e: Emit): seq<string>
    requires i < e.next <= |lines|
    decreases |lines| - i, 0
  {
    [e.piece] + Scan(format, lines, e.next, e.inCode)
  }

  /** The document `text` with every table run replaced by its `format`. */
  function ScanDocument(format: Formatter, text: string): string {
    Concat(Scan(format, SplitKeepEnds(text), 0, false))
  }

  /** `format_md_tables_in_text(text)`. */
  function FormatDocument(eaw: Classifier, text: string): string {
    ScanDocument(TableFormatterOf(eaw), text)
  }

  /** The collecting loop: consecutive lines that match a pattern, normalized. */
  method CollectRun(lines: seq<string>, i: nat) returns (tableLines: seq<string>, j: nat)
    requires i <= |lines|
    ensures j == RunEnd(lines, i)
    ensures tableLines == RunLines(lines, i, j)
  {
    tableLines := [];
    j := i;
    while j < |lines|
      invariant i <= j <= |lines|
      invariant RunEnd(lines, j) == RunEnd(lines, i)
      invariant tableLines == RunLines(lines, i, j)
      decreases |lines| - j
    {
      var s := Strip(RStrip(lines[j], Only({'\n'})));
      if IsPipeLine(s) || IsSeparator(s) {
        tableLines := tableLines + [s];
        j := j + 1;
      } else {
        break;
      }
    }
  }

  /** The body of the scanning loop for the line at the cursor. */
  method ScanLine(format: Formatter, lines: seq<string>, i: nat, inCodeBlock: bool)
    returns (piece: string, next: nat, inCode: bool)
    requires i < |lines|
    ensures Emit(piece, next, inCode) == Step(format, lines, i, inCodeBlock)
  {
    var stripped := RStrip(lines[i], Only({'\n'}));
    if StartsWith(LStrip(stripped, AnyWhitespace), "```") {
      return lines[i], i + 1, !inCodeBlock;
    }
    if inCodeBlock || !IsPipeLine(Strip(stripped)) {
      return lines[i], i + 1, inCodeBlock;
    }
    piece, next, inCode := ScanRun(format, lines, i, inCodeBlock);
  }

  /** The part of the loop body that collects a run of pipe lines and replaces it when it is
      a table. */
  method ScanRun(format: Formatter, lines: seq<string>, i: nat, inCodeBlock: bool)
    returns (piece: string, next: nat, inCode: bool)
    requires i < |lines| && IsPipeLine(Normalized(lines[i]))
    ensures Emit(piece, next, inCode) == RunStep(format, lines, i, inCodeBlock)
  {
    var tableLines, j := CollectRun(lines, i);
    var hasSeparator := HasSeparator(tableLines);
    if hasSeparator && |tableLines| >= 2 {
      var formatted := format(Join(tableLines, "\n"));
      piece := if EndsWith(lines[j - 1], "\n") then formatted + "\n" else formatted;
      return piece, j, inCodeBlock;
    }
    return lines[i], i + 1, inCodeBlock;
  }

  /** One turn of the loop appends its piece to what was collected before it. */
  lemma ScanAdvance(format: Formatter, lines: seq<string>, i: nat, inCode: bool, result: seq<string>)
    requires i < |lines|
    ensures var e := Step(format, lines, i, inCode);
      result + [e.piece] + Scan(format, lines, e.next, e.inCode) == result + Scan(format, lines, i, inCode)
  {
    var e := Step(format, lines, i, inCode);
    assert Scan(format, lines, i, inCode) == [e.piece] + Scan(format, lines, e.next, e.inCode);
  }

  /** The scanning loop of `format_md_tables_in_text`: a cursor `i`, the code-block flag and
      the list `result`, joined at the end; runs are handed to `format`. */
  method ScanTables(format: Formatter, text: string) returns (out: string)
    ensures out == ScanDocument(format, text)
  {
    var lines := SplitKeepEnds(text);
    var result: seq<string> := [];
    var i := 0;
    var inCodeBlock := false;
    while i < |lines|
      invariant 0 <= i <= |lines|
      invariant result + Scan(format, lines, i, inCodeBlock) == Scan(format, lines, 0, false)
      decreases |lines| - i
    {
      var piece, next, inCode := ScanLine(format, lines, i, inCodeBlock);
      ScanAdvance(format, lines, i, inCodeBlock, result);
      result := result + [piece];
      i, inCodeBlock := next, inCode;
    }
    assert result + [] == result;
    out := Concat(result);
  }

  /** `format_md_tables_in_text(text)`: the scanning loop with `format_md_table` as the
      formatter. */
  method FormatTablesInText(eaw: Classifier, text: string) returns (out: string)
    ensures out == FormatDocument(eaw, text)
  {
    out := ScanTables(TableFormatterOf(eaw), text);
  }
}
