/** What `format_md_tables_in_text` promises: fenced code and every line outside a table
    run is copied as it is, a document without table runs comes back unchanged, and a
    replaced run is always reformatted as a table. */
module ScannerProperties {
  import opened Text
  import opened Width
  import opened Patterns
  import opened TableFormatter
  import opened DocumentScanner

  // ----- One turn -----

  /** A fence line is copied and flips the code-block flag. */
  lemma ScanFence(format: Formatter, lines: seq<string>, i: nat, inCode: bool)
    requires i < |lines| && IsFence(lines[i])
    ensures Scan(format, lines, i, inCode) == [lines[i]] + Scan(format, lines, i + 1, !inCode)
  {
    assert Step(format, lines, i, inCode) == Emit(lines[i], i + 1, !inCode);
  }

  /** Any other line inside a code block is copied. */
  lemma ScanInCode(format: Formatter, lines: seq<string>, i: nat)
    requires i < |lines| && !IsFence(lines[i])
    ensures Scan(format, lines, i, true) == [lines[i]] + Scan(format, lines, i + 1, true)
  {
    assert Step(format, lines, i, true) == Emit(lines[i], i + 1, true);
  }

  /** Outside a code block, a line that does not start a replaced run is copied. */
  lemma ScanCopies(format: Formatter, lines: seq<string>, i: nat, inCode: bool)
    requires i < |lines| && !IsFence(lines[i]) && !Replaced(lines, i)
    ensures Scan(format, lines, i, inCode) == [lines[i]] + Scan(format, lines, i + 1, inCode)
  {
    assert Step(format, lines, i, inCode) == Emit(lines[i], i + 1, inCode);
  }

  /** Outside a code block, a pipe line that starts a replaced run is replaced, together with
      the rest of its run, by the formatted table, and scanning goes on after the run. */
  lemma ScanReplaces(format: Formatter, lines: seq<string>, i: nat)
    requires i < |lines| && !IsFence(lines[i]) && IsPipeLine(Normalized(lines[i])) && Replaced(lines, i)
    ensures var j := RunEnd(lines, i);
      Scan(format, lines, i, false)
      == [Replacement(format, RunLines(lines, i, j), lines[j - 1])] + Scan(format, lines, j, false)
  {
    var j := RunEnd(lines, i);
    assert Step(format, lines, i, false) == Emit(Replacement(format, RunLines(lines, i, j), lines[j - 1]), j, false);
  }

  // ----- Code blocks -----

  /** Putting line `i` in front of the lines after it. */
  lemma SliceCons(lines: seq<string>, i: nat, k: nat, tail: seq<string>)
    requires i < k <= |lines|
    ensures [lines[i]] + (lines[i + 1..k] + tail) == lines[i..k] + tail
  {
    assert lines[i..k] == [lines[i]] + lines[i + 1..k];
  }

  /** The lines from `i` on are line `i` and the lines after it. */
  lemma SliceDrop(lines: seq<string>, i: nat)
    requires i < |lines|
    ensures lines[i..] == [lines[i]] + lines[i + 1..]
  {
  }

  /** Putting line `k` after the lines before it. */
  lemma SliceSnoc(lines: seq<string>, i: nat, k: nat, tail: seq<string>)
    requires i <= k < |lines|
    ensures lines[i..k] + ([lines[k]] + tail) == lines[i..k + 1] + tail
  {
    assert lines[i..k + 1] == lines[i..k] + [lines[k]];
  }

  /** Inside a code block, lines up to the next fence are copied as they are. */
  lemma {:induction false} InCodeVerbatim(format: Formatter, lines: seq<string>, i: nat, k: nat)
    requires i <= k <= |lines|
    requires forall m {:trigger IsFence(lines[m])} :: i <= m < k ==> !IsFence(lines[m])
    ensures Scan(format, lines, i, true) == lines[i..k] + Scan(format, lines, k, true)
    decreases k - i
  {
    if i < k {
      ScanInCode(format, lines, i);
      InCodeVerbatim(format, lines, i + 1, k);
      SliceCons(lines, i, k, Scan(format, lines, k, true));
    } else {
      assert lines[i..k] == [];
    }
  }

  /** Inside a code block, lines up to and including the closing fence are copied as they
      are, and scanning goes on after it outside code. */
  lemma InCodeThroughFence(format: Formatter, lines: seq<string>, i: nat, k: nat)
    requires i <= k < |lines| && IsFence(lines[k])
    requires forall m {:trigger IsFence(lines[m])} :: i <= m < k ==> !IsFence(lines[m])
    ensures Scan(format, lines, i, true) == lines[i..k + 1] + Scan(format, lines, k + 1, false)
  {
    InCodeVerbatim(format, lines, i, k);
    ScanFence(format, lines, k, true);
    SliceSnoc(lines, i, k, Scan(format, lines, k + 1, false));
  }

  /** A fenced code block, both fence lines included, is copied as it is, and scanning goes
      on after it outside code. */
  lemma FencedBlockVerbatim(format: Formatter, lines: seq<string>, i: nat, k: nat)
    requires i < k < |lines|
    requires IsFence(lines[i]) && IsFence(lines[k])
    requires forall m {:trigger IsFence(lines[m])} :: i < m < k ==> !IsFence(lines[m])
    ensures Scan(format, lines, i, false) == lines[i..k + 1] + Scan(format, lines, k + 1, false)
  {
    ScanFence(format, lines, i, false);
    InCodeThroughFence(format, lines, i + 1, k);
    SliceCons(lines, i, k + 1, Scan(format, lines, k + 1, false));
  }

  // ----- Documents without tables -----

  /** A run without a separator line is never replaced. */
  lemma NotReplaced(lines: seq<string>, i: nat)
    requires i <= |lines|
    requires forall m {:trigger Normalized(lines[m])} :: i <= m < |lines| ==> !IsSeparator(Normalized(lines[m]))
    ensures !Replaced(lines, i)
  {
    var j := RunEnd(lines, i);
    RunLinesSpec(lines, i, j);
    assert forall k :: 0 <= k < j - i ==> !IsSeparator(RunLines(lines, i, j)[k]);
  }

  /** Where no line from `i` on starts a run the scanner replaces, every line is copied as
      it is, fence lines included. */
  lemma {:induction false} NoRunUnchanged(format: Formatter, lines: seq<string>, i: nat, inCode: bool)
    requires i <= |lines|
    requires forall m {:trigger Replaced(lines, m)} :: i <= m < |lines| ==> !Replaced(lines, m)
    ensures Scan(format, lines, i, inCode) == lines[i..]
    decreases |lines| - i
  {
    if i < |lines| {
      var flag := if IsFence(lines[i]) then !inCode else inCode;
      if IsFence(lines[i]) {
        ScanFence(format, lines, i, inCode);
      } else {
        assert !Replaced(lines, i);
        ScanCopies(format, lines, i, inCode);
      }
      NoRunUnchanged(format, lines, i + 1, flag);
      SliceDrop(lines, i);
    } else {
      assert lines[i..] == [];
    }
  }

  /** A document none of whose lines starts a run of at least two pattern lines holding a
      separator comes back as it is. */
  lemma NoRunDocumentUnchanged(format: Formatter, text: string)
    requires forall m {:trigger Replaced(SplitKeepEnds(text), m)} ::
      0 <= m < |SplitKeepEnds(text)| ==> !Replaced(SplitKeepEnds(text), m)
    ensures ScanDocument(format, text) == text
  {
    var lines := SplitKeepEnds(text);
    NoRunUnchanged(format, lines, 0, false);
    assert lines[0..] == lines;
    SplitKeepEndsSpec(text);
  }

  /** Where no line is a separator, every line is copied as it is. */
  lemma ScanUnchanged(format: Formatter, lines: seq<string>, i: nat, inCode: bool)
    requires i <= |lines|
    requires forall m {:trigger Normalized(lines[m])} :: i <= m < |lines| ==> !IsSeparator(Normalized(lines[m]))
    ensures Scan(format, lines, i, inCode) == lines[i..]
  {
    forall m | i <= m < |lines|
      ensures !Replaced(lines, m)
    {
      NotReplaced(lines, m);
    }
    NoRunUnchanged(format, lines, i, inCode);
  }

  /** A document none of whose lines is a separator comes back as it is. */
  lemma NoSeparatorDocumentUnchanged(format: Formatter, text: string)
    requires forall k :: 0 <= k < |SplitKeepEnds(text)| ==> !IsSeparator(Normalized(SplitKeepEnds(text)[k]))
    ensures ScanDocument(format, text) == text
  {
    var lines := SplitKeepEnds(text);
    forall m | 0 <= m < |lines|
      ensures !Replaced(lines, m)
    {
      NotReplaced(lines, m);
    }
    NoRunDocumentUnchanged(format, text);
  }

  /** A document without a '|' comes back as it is. */
  lemma NoPipeDocumentUnchanged(format: Formatter, text: string)
    requires '|' !in text
    ensures ScanDocument(format, text) == text
  {
    var lines := SplitKeepEnds(text);
    SplitKeepEndsSpec(text);
    ConcatAvoids(lines, '|');
    forall k | 0 <= k < |lines|
      ensures !IsSeparator(Normalized(lines[k]))
    {
      StripCharsAvoids(lines[k], Only({'\n'}), '|');
      StripCharsAvoids(RStrip(lines[k], Only({'\n'})), AnyWhitespace, '|');
      var s := Normalized(lines[k]);
      if s != [] {
        assert s[0] in s;
      }
    }
    NoSeparatorDocumentUnchanged(format, text);
  }

  /** The source's test: "# Title\n\nJust text.\n" comes back as it is. */
  lemma NoTablesExample(eaw: Classifier, text: string)
    requires text == "# Title\n\nJust text.\n"
    ensures FormatDocument(eaw, text) == text
  {
    assert forall k :: 0 <= k < |text| ==> text[k] != '|';
    NoPipeDocumentUnchanged(TableFormatterOf(eaw), text);
  }

  // ----- Replaced runs -----

  /** A line of the document, its line break dropped and stripped, holds no line break. */
  lemma NormalizedUnbroken(line: string)
    requires LineShaped(line)
    ensures '\n' !in Normalized(line) && IsStripped(Normalized(line))
  {
    var r := RStrip(line, Only({'\n'}));
    RStripSpec(line, Only({'\n'}));
    if |r| == |line| {
      assert r == line[..|line| - 1] + [line[|line| - 1]];
    } else {
      assert r == line[..|line| - 1][..|r|];
    }
    StripCharsAvoids(r, AnyWhitespace, '\n');
    StripIsStripped(r);
  }

  /** A run line of the document, normalized, starts with '|', is stripped and holds no line
      break. */
  lemma RunLineShape(line: string)
    requires LineShaped(line) && IsRunLine(line)
    ensures var s := Normalized(line); s != [] && s[0] == '|' && IsStripped(s) && '\n' !in s
  {
    NormalizedUnbroken(line);
  }

  /** The run the scanner replaces, joined by "\n", is a table whose lines are the run:
      `format_md_table` never returns it unchanged. */
  lemma ReplacedRunIsTable(lines: seq<string>, i: nat)
    requires i <= |lines| && Replaced(lines, i)
    requires forall m :: i <= m < |lines| ==> LineShaped(lines[m])
    ensures var run := RunLines(lines, i, RunEnd(lines, i));
      IsTable(Join(run, "\n")) && TableLines(Join(run, "\n")) == run
  {
    var j := RunEnd(lines, i);
    var run := RunLines(lines, i, j);
    RunEndSpec(lines, i);
    RunLinesSpec(lines, i, j);
    forall k | 0 <= k < |run|
      ensures run[k] != [] && run[k][0] == '|' && IsStripped(run[k]) && '\n' !in run[k]
    {
      RunLineShape(lines[i + k]);
    }
    var t := Join(run, "\n");
    JoinFirst(run, "\n");
    JoinLast(run, "\n");
    StripStripped(t);
    SplitLinesJoin(run);
    var k :| 0 <= k < |run| && IsSeparator(run[k]);
    StripStripped(run[k]);
    assert IsSeparatorLine(run[k]);
  }

  /** The table formatter, applied by the scanner to a replaced run, reformats it rather
      than returning it as it is: the result is the formatted lines joined by "\n". */
  lemma ReplacementIsFormatted(eaw: Classifier, lines: seq<string>, i: nat)
    requires i <= |lines| && Replaced(lines, i)
    requires forall m :: i <= m < |lines| ==> LineShaped(lines[m])
    ensures var j := RunEnd(lines, i);
      var run := RunLines(lines, i, j);
      var t := Join(run, "\n");
      j > i && IsTable(t) && TableFormatterOf(eaw)(t) == Join(FormattedLines(eaw, t), "\n")
  {
    ReplacedRunIsTable(lines, i);
  }
}
