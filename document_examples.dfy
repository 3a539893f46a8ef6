/** The documents of the source's tests, scanned: ordinary lines are copied and the table
    run is replaced by the formatted table. */
module DocumentExamples {
  import opened Text
  import opened Width
  import opened Patterns
  import opened TableFormatter
  import opened DocumentScanner
  import opened ScannerProperties
  import opened TableIdempotence
  import opened TableExamples

  // ----- Lines the scanner copies -----

  /** A line with neither a pipe nor a backtick: plain prose. */
  predicate PlainLine(line: string) {
    '|' !in line && '`' !in line
  }

  /** Plain prose is neither a fence nor a line a table run collects. */
  lemma PlainLineShape(line: string)
    requires PlainLine(line)
    ensures !IsFence(line) && !IsRunLine(line)
  {
    var r := RStrip(line, Only({'\n'}));
    StripCharsAvoids(line, Only({'\n'}), '`');
    StripCharsAvoids(line, Only({'\n'}), '|');
    StripCharsAvoids(r, AnyWhitespace, '`');
    StripCharsAvoids(r, AnyWhitespace, '|');
    var l := LStrip(r, AnyWhitespace);
    if l != [] {
      assert l[0] in l;
    }
    var s := Normalized(line);
    if s != [] {
      assert s[0] in s;
    }
  }

  /** A line whose normalized form starts with '|' does not open or close a code block. */
  lemma PipeLineNotFence(line: string)
    requires Normalized(line) != [] && Normalized(line)[0] == '|'
    ensures !IsFence(line)
  {
    var l := LStrip(RStrip(line, Only({'\n'})), AnyWhitespace);
    RStripSpec(l, AnyWhitespace);
    assert l[0] == '|';
  }

  /** A line no run collects starts no replaced run. */
  lemma NotRunLineNotReplaced(lines: seq<string>, i: nat)
    requires i < |lines| && !IsRunLine(lines[i])
    ensures !Replaced(lines, i)
  {
    assert RunEnd(lines, i) == i;
  }

  /** Plain lines from `i` up to `k` are copied as they are. */
  lemma {:induction false} PlainLinesCopied(format: Formatter, lines: seq<string>, i: nat, k: nat, inCode: bool)
    requires i <= k <= |lines|
    requires forall m :: i <= m < k ==> PlainLine(lines[m])
    ensures Scan(format, lines, i, inCode) == lines[i..k] + Scan(format, lines, k, inCode)
    decreases k - i
  {
    if i < k {
      PlainLineShape(lines[i]);
      NotRunLineNotReplaced(lines, i);
      ScanCopies(format, lines, i, inCode);
      PlainLinesCopied(format, lines, i + 1, k, inCode);
      SliceCons(lines, i, k, Scan(format, lines, k, inCode));
    } else {
      assert lines[i..k] == [];
    }
  }

  // ----- Table runs -----

  /** A stripped line without a line break is what its line, with or without its line
      break, normalizes to. */
  lemma NormalizedLine(line: string, s: string)
    requires IsStripped(s) && '\n' !in s && (line == s + "\n" || line == s)
    ensures Normalized(line) == s
  {
    if s != [] {
      assert s[|s| - 1] in s;
    }
    if line == s {
      RStripSuffix(s, "", Only({'\n'}));
      assert s + "" == s;
    } else {
      RStripSuffix(s, "\n", Only({'\n'}));
    }
    StripStripped(s);
  }

  /** The run from `i` ends at `j` when every line up to `j` is collected and line `j`, if
      any, is not. */
  lemma {:induction false} RunEndAt(lines: seq<string>, i: nat, j: nat)
    requires i <= j <= |lines|
    requires forall m :: i <= m < j ==> IsRunLine(lines[m])
    requires j < |lines| ==> !IsRunLine(lines[j])
    ensures RunEnd(lines, i) == j
    decreases j - i
  {
    if i < j {
      assert IsRunLine(lines[i]);
      RunEndAt(lines, i + 1, j);
    }
  }

  /** Lines written one per line of a document: each followed by its line break. */
  function Terminate(run: seq<string>): (lines: seq<string>)
    ensures |lines| == |run|
    ensures forall k :: 0 <= k < |run| ==> lines[k] == run[k] + "\n"
  {
    seq(|run|, k requires 0 <= k < |run| => run[k] + "\n")
  }

  /** Lines each followed by a line break concatenate to their join, plus a final break. */
  lemma {:induction false} ConcatTerminate(run: seq<string>)
    requires |run| >= 1
    ensures Concat(Terminate(run)) == Join(run, "\n") + "\n"
    decreases |run|
  {
    var lines := Terminate(run);
    assert lines[1..] == Terminate(run[1..]);
    if |run| > 1 {
      ConcatTerminate(run[1..]);
    }
  }

  /** Lines of a run that ends the document: each but the last followed by its line break. */
  function EndLines(run: seq<string>): (lines: seq<string>)
    requires |run| >= 1
    ensures |lines| == |run| && lines[|run| - 1] == run[|run| - 1]
    ensures forall k :: 0 <= k < |run| - 1 ==> lines[k] == run[k] + "\n"
  {
    Terminate(run[..|run| - 1]) + [run[|run| - 1]]
  }

  /** A join with one more part is the join, the separator and that part. */
  lemma {:induction false} JoinSnoc(parts: seq<string>, last: string, sep: string)
    requires |parts| >= 1
    ensures Join(parts + [last], sep) == Join(parts, sep) + sep + last
    decreases |parts|
  {
    if |parts| > 1 {
      assert (parts + [last])[1..] == parts[1..] + [last];
      JoinSnoc(parts[1..], last, sep);
    } else {
      assert (parts + [last])[1..] == [last];
    }
  }

  /** The lines of a run that ends the document concatenate to the run's join. */
  lemma ConcatEndLines(run: seq<string>)
    requires |run| >= 2
    ensures Concat(EndLines(run)) == Join(run, "\n")
  {
    var init, last := run[..|run| - 1], run[|run| - 1];
    SnocLast(run);
    assert EndLines(run) == Terminate(init) + [last];
    ConcatSnoc(init, last);
  }

  /** A list is its lines but the last, followed by the last. */
  lemma SnocLast(run: seq<string>)
    requires |run| >= 1
    ensures run[..|run| - 1] + [run[|run| - 1]] == run
  {
  }

  /** Terminated lines and one more line concatenate to the join of all of them. */
  lemma ConcatSnoc(init: seq<string>, last: string)
    requires |init| >= 1
    ensures Concat(Terminate(init) + [last]) == Join(init + [last], "\n")
  {
    ConcatAppend(Terminate(init), [last]);
    ConcatTerminate(init);
    assert Concat([last]) == last;
    JoinSnoc(init, last, "\n");
  }

  /** Lines without a line break, each followed by one, are shaped and terminated lines. */
  lemma TerminateShaped(run: seq<string>)
    requires forall k :: 0 <= k < |run| ==> '\n' !in run[k]
    ensures forall k :: 0 <= k < |run| ==> LineShaped(Terminate(run)[k]) && Terminated(Terminate(run)[k])
  {
    forall k | 0 <= k < |run|
      ensures LineShaped(Terminate(run)[k]) && Terminated(Terminate(run)[k])
    {
      var line := Terminate(run)[k];
      assert line[..|line| - 1] == run[k];
    }
  }

  /** The lines of a three-line run, terminated or ending the document, line by line. */
  lemma RunLinesAt(lines: seq<string>, i: nat, run: seq<string>)
    requires i + 3 <= |lines| && |run| == 3
    requires lines[i..i + 3] == Terminate(run) || lines[i..i + 3] == EndLines(run)
    ensures lines[i] == run[0] + "\n" && lines[i + 1] == run[1] + "\n"
    ensures lines[i + 2] == run[2] + "\n" || lines[i + 2] == run[2]
  {
    var part := lines[i..i + 3];
    assert lines[i] == part[0] && lines[i + 1] == part[1] && lines[i + 2] == part[2];
  }

  /** Plain lines from `i` up to `k`, given as a slice. */
  lemma SlicePlain(lines: seq<string>, i: nat, k: nat)
    requires i <= k <= |lines| && AllPlain(lines[i..k])
    ensures forall m :: i <= m < k ==> PlainLine(lines[m])
  {
    forall m | i <= m < k
      ensures PlainLine(lines[m])
    {
      assert lines[m] == lines[i..k][m - i];
    }
  }

  /** Terminated lines followed by terminated lines are terminated lines. */
  lemma AllTerminatedAppend(a: seq<string>, b: seq<string>)
    requires AllTerminated(a) && AllTerminated(b)
    ensures AllTerminated(a + b)
  {
    assert forall k :: |a| <= k < |a + b| ==> (a + b)[k] == b[k - |a|];
  }

  /** A three-line table run at line `i` outside code, followed by a plain line or by the end
      of the document, is replaced and the scan goes on after it. */
  lemma RunReplacedAt(format: Formatter, lines: seq<string>, i: nat, run: seq<string>)
    requires i + 3 <= |lines| && |run| == 3
    requires forall k :: 0 <= k < 3 ==> IsStripped(run[k]) && '\n' !in run[k]
    requires IsPipeLine(run[0]) && IsSeparator(run[1]) && IsPipeLine(run[2])
    requires lines[i] == run[0] + "\n" && lines[i + 1] == run[1] + "\n"
    requires lines[i + 2] == run[2] + "\n" || lines[i + 2] == run[2]
    requires i + 3 < |lines| ==> PlainLine(lines[i + 3])
    ensures Scan(format, lines, i, false)
      == [Replacement(format, run, lines[i + 2])] + Scan(format, lines, i + 3, false)
  {
    RunFoundAt(lines, i, run);
    ScanReplaces(format, lines, i);
  }

  /** Such a run is collected whole, holds a separator, and starts with a pipe line that
      is not a fence. */
  lemma RunFoundAt(lines: seq<string>, i: nat, run: seq<string>)
    requires i + 3 <= |lines| && |run| == 3
    requires forall k :: 0 <= k < 3 ==> IsStripped(run[k]) && '\n' !in run[k]
    requires IsPipeLine(run[0]) && IsSeparator(run[1]) && IsPipeLine(run[2])
    requires lines[i] == run[0] + "\n" && lines[i + 1] == run[1] + "\n"
    requires lines[i + 2] == run[2] + "\n" || lines[i + 2] == run[2]
    requires i + 3 < |lines| ==> PlainLine(lines[i + 3])
    ensures RunEnd(lines, i) == i + 3 && RunLines(lines, i, i + 3) == run && Replaced(lines, i)
    ensures !IsFence(lines[i]) && IsPipeLine(Normalized(lines[i]))
  {
    NormalizedLine(lines[i], run[0]);
    NormalizedLine(lines[i + 1], run[1]);
    NormalizedLine(lines[i + 2], run[2]);
    assert IsRunLine(lines[i]) && IsRunLine(lines[i + 1]) && IsRunLine(lines[i + 2]);
    if i + 3 < |lines| {
      PlainLineShape(lines[i + 3]);
    }
    RunEndAt(lines, i, i + 3);
    RunLinesSpec(lines, i, i + 3);
    assert RunLines(lines, i, i + 3) == run;
    assert IsSeparator(run[1]);
    PipeLineNotFence(lines[i]);
  }

  /** Three stripped lines: a pipe line, a separator and a pipe line. */
  predicate TableRun(run: seq<string>) {
    |run| == 3
    && (forall k :: 0 <= k < 3 ==> IsStripped(run[k]) && '\n' !in run[k] && run[k] != [] && run[k][0] == '|')
    && IsPipeLine(run[0]) && IsSeparator(run[1]) && IsPipeLine(run[2])
  }

  /** Plain lines from `i` to `k`, then a table run that is followed by a plain line or ends
      the document: the plain lines are copied and the run is replaced. */
  lemma ProseThenRun(format: Formatter, lines: seq<string>, i: nat, k: nat, run: seq<string>)
    requires i <= k && k + 3 <= |lines| && AllPlain(lines[i..k]) && TableRun(run)
    requires lines[k..k + 3] == Terminate(run) || lines[k..k + 3] == EndLines(run)
    requires k + 3 < |lines| ==> PlainLine(lines[k + 3])
    ensures Scan(format, lines, i, false)
      == lines[i..k] + [Replacement(format, run, lines[k + 2])] + Scan(format, lines, k + 3, false)
  {
    SlicePlain(lines, i, k);
    PlainLinesCopied(format, lines, i, k, false);
    RunLinesAt(lines, k, run);
    RunReplacedAt(format, lines, k, run);
  }

  /** "```" on a line of its own opens or closes a code block. */
  lemma FenceLine()
    ensures IsFence("```\n")
  {
    RStripSuffix("```", "\n", Only({'\n'}));
    LStripPrefix("", "```", AnyWhitespace);
    assert "" + "```" == "```";
  }

  // ----- Documents of prose and table runs -----

  /** Every line is plain prose. */
  predicate AllPlain(lines: seq<string>) {
    forall m :: 0 <= m < |lines| ==> PlainLine(lines[m])
  }

  /** Every line is shaped as a line and ends with its line break. */
  predicate AllTerminated(lines: seq<string>) {
    forall k :: 0 <= k < |lines| ==> LineShaped(lines[k]) && Terminated(lines[k])
  }

  /** The lines are shaped as `splitlines(keepends=True)` yields them. */
  predicate SplitShaped(lines: seq<string>) {
    (forall k :: 0 <= k < |lines| ==> LineShaped(lines[k]))
    && (forall k :: 0 <= k < |lines| - 1 ==> Terminated(lines[k]))
  }

  /** Terminated lines followed by split-shaped ones are split-shaped. */
  lemma SplitShapedAppend(a: seq<string>, b: seq<string>)
    requires AllTerminated(a) && SplitShaped(b)
    ensures SplitShaped(a + b)
  {
    assert forall k :: |a| <= k < |a + b| ==> (a + b)[k] == b[k - |a|];
  }

  /** A table run's lines without line breaks, terminated, are terminated lines; at the end
      of the document they are split-shaped. */
  lemma RunShaped(run: seq<string>)
    requires |run| >= 1 && forall k :: 0 <= k < |run| ==> run[k] != [] && '\n' !in run[k]
    ensures AllTerminated(Terminate(run)) && SplitShaped(EndLines(run))
  {
    TerminateShaped(run);
    var lines := EndLines(run);
    var last := run[|run| - 1];
    assert last[..|last| - 1] <= last;
    forall k | 0 <= k < |run| - 1
      ensures LineShaped(lines[k]) && Terminated(lines[k])
    {
      assert lines[k][..|lines[k]| - 1] == run[k];
    }
  }

  /** The lines of a document of prose, a table run, more prose and a table run at its end. */
  function TwoRunLines(pre: seq<string>, r1: seq<string>, mid: seq<string>, r2: seq<string>): seq<string>
    requires |r2| >= 1
  {
    pre + Terminate(r1) + mid + EndLines(r2)
  }

  /** Where the parts of such a document sit among its lines. */
  predicate TwoRunShape(lines: seq<string>, pre: seq<string>, r1: seq<string>, mid: seq<string>, r2: seq<string>)
    requires |r2| >= 1
  {
    var a := |pre|;
    var b := a + |r1|;
    var c := b + |mid|;
    |lines| == c + |r2| && lines[..a] == pre && lines[a..b] == Terminate(r1)
    && lines[b..c] == mid && lines[c..] == EndLines(r2)
  }

  lemma TwoRunLayout(lines: seq<string>, pre: seq<string>, r1: seq<string>, mid: seq<string>, r2: seq<string>)
    requires |r2| >= 1 && lines == TwoRunLines(pre, r1, mid, r2)
    ensures TwoRunShape(lines, pre, r1, mid, r2)
  {
  }

  /** Such a document is its prose, the first run's join and a line break, the middle prose
      and the second run's join, and splits back into its lines. */
  lemma TwoRunText(pre: seq<string>, r1: seq<string>, mid: seq<string>, r2: seq<string>)
    requires |r1| >= 1 && |r2| >= 2
    requires forall k :: 0 <= k < |r1| ==> r1[k] != [] && '\n' !in r1[k]
    requires forall k :: 0 <= k < |r2| ==> r2[k] != [] && '\n' !in r2[k]
    requires AllTerminated(pre) && AllTerminated(mid)
    ensures Concat(TwoRunLines(pre, r1, mid, r2))
      == Concat(pre) + (Join(r1, "\n") + "\n") + Concat(mid) + Join(r2, "\n")
    ensures SplitKeepEnds(Concat(TwoRunLines(pre, r1, mid, r2))) == TwoRunLines(pre, r1, mid, r2)
  {
    var a, b := pre + Terminate(r1), mid + EndLines(r2);
    assert TwoRunLines(pre, r1, mid, r2) == a + b;
    ConcatAppend(a, b);
    ConcatAppend(pre, Terminate(r1));
    ConcatAppend(mid, EndLines(r2));
    ConcatTerminate(r1);
    ConcatEndLines(r2);
    RunShaped(r1);
    RunShaped(r2);
    assert AllTerminated(a) by {
      assert forall k :: |pre| <= k < |a| ==> a[k] == Terminate(r1)[k - |pre|];
    }
    SplitShapedAppend(mid, EndLines(r2));
    SplitShapedAppend(a, b);
    SplitKeepEndsConcat(a + b);
  }

  /** Prose, a table run, more prose and a table run at the end: both runs are replaced
      and the prose is copied. */
  lemma TwoRunScan(format: Formatter, lines: seq<string>, pre: seq<string>, r1: seq<string>, mid: seq<string>,
                   r2: seq<string>)
    requires TableRun(r1) && TableRun(r2) && AllPlain(pre) && AllPlain(mid) && mid != []
    requires TwoRunShape(lines, pre, r1, mid, r2)
    ensures Scan(format, lines, 0, false)
      == pre + [Replacement(format, r1, lines[|pre| + 2])] + mid + [Replacement(format, r2, lines[|lines| - 1])]
  {
    TwoRunHead(format, lines, pre, r1, mid, r2);
    TwoRunTail(format, lines, pre, r1, mid, r2);
    SeqFour(pre, Replacement(format, r1, lines[|pre| + 2]), mid, Replacement(format, r2, lines[|lines| - 1]));
  }

  /** Regrouping the pieces of a scan. */
  lemma SeqFour(a: seq<string>, x: string, b: seq<string>, y: string)
    ensures a + [x] + (b + [y]) == a + [x] + b + [y]
  {
  }

  /** The prose before the first run is copied and the run replaced. */
  lemma TwoRunHead(format: Formatter, lines: seq<string>, pre: seq<string>, r1: seq<string>, mid: seq<string>,
                   r2: seq<string>)
    requires TableRun(r1) && TableRun(r2) && AllPlain(pre) && AllPlain(mid) && mid != []
    requires TwoRunShape(lines, pre, r1, mid, r2)
    ensures Scan(format, lines, 0, false)
      == pre + [Replacement(format, r1, lines[|pre| + 2])] + Scan(format, lines, |pre| + 3, false)
  {
    var a, b := |pre|, |pre| + 3;
    assert lines[b] == lines[b..b + |mid|][0];
    assert lines[0..a] == lines[..a];
    assert lines[a..a + 3] == lines[a..b];
    ProseThenRun(format, lines, 0, a, r1);
  }

  /** The prose between the runs is copied and the second run, which ends the document,
      replaced. */
  lemma TwoRunTail(format: Formatter, lines: seq<string>, pre: seq<string>, r1: seq<string>, mid: seq<string>,
                   r2: seq<string>)
    requires TableRun(r1) && TableRun(r2) && AllPlain(mid) && TwoRunShape(lines, pre, r1, mid, r2)
    ensures Scan(format, lines, |pre| + 3, false) == mid + [Replacement(format, r2, lines[|lines| - 1])]
  {
    var c := |pre| + 3 + |mid|;
    assert lines[c..c + 3] == lines[c..];
    ProseThenRun(format, lines, |pre| + 3, c, r2);
    assert Scan(format, lines, c + 3, false) == [];
  }

  /** A fenced block holding a three-line table run is copied as it is. */
  lemma FencedBlockAt(format: Formatter, lines: seq<string>, a: nat, run: seq<string>)
    requires a + 5 <= |lines| && TableRun(run)
    requires lines[a] == "```\n" && lines[a + 1..a + 4] == Terminate(run) && lines[a + 4] == "```\n"
    ensures Scan(format, lines, a, false) == lines[a..a + 5] + Scan(format, lines, a + 5, false)
  {
    FenceLine();
    RunLinesAt(lines, a + 1, run);
    RunNotFence(lines, a + 1, run);
    FencedBlockVerbatim(format, lines, a, a + 4);
  }

  /** Where the parts of a document with a fenced table sit among its lines: prose `p`, a
      fence, the run `r1`, a fence, prose `q` and the run `r2` at the end. */
  predicate FencedShape(lines: seq<string>, p: seq<string>, r1: seq<string>, q: seq<string>, r2: seq<string>)
    requires |r2| >= 1
  {
    var a := |p|;
    var c := a + 5 + |q|;
    |lines| == c + |r2| && lines[0..a] == p && lines[a] == "```\n" && lines[a + 1..a + 4] == Terminate(r1)
    && lines[a + 4] == "```\n" && lines[a + 5..c] == q && lines[c..] == EndLines(r2)
  }

  lemma FencedLayout(lines: seq<string>, p: seq<string>, r1: seq<string>, q: seq<string>, r2: seq<string>)
    requires |r2| >= 1 && lines == TwoRunLines(p + ["```\n"], r1, ["```\n"] + q, r2) && |r1| == 3
    ensures FencedShape(lines, p, r1, q, r2)
  {
    TwoRunLayout(lines, p + ["```\n"], r1, ["```\n"] + q, r2);
    var a := |p|;
    var c := a + 5 + |q|;
    assert lines[0..a] == lines[..a + 1][..a] && lines[a] == lines[..a + 1][a];
    assert lines[a + 4] == lines[a + 4..c][0] && lines[a + 5..c] == lines[a + 4..c][1..];
  }

  /** The prose before the fence is copied. */
  lemma FencedHead(format: Formatter, lines: seq<string>, p: seq<string>, r1: seq<string>, q: seq<string>,
                   r2: seq<string>)
    requires TableRun(r1) && TableRun(r2) && AllPlain(p) && FencedShape(lines, p, r1, q, r2)
    ensures Scan(format, lines, 0, false) == p + Scan(format, lines, |p|, false)
  {
    SlicePlain(lines, 0, |p|);
    PlainLinesCopied(format, lines, 0, |p|, false);
  }

  /** The fenced block, table run and all, is copied. */
  lemma FencedBlockStep(format: Formatter, lines: seq<string>, p: seq<string>, r1: seq<string>, q: seq<string>,
                        r2: seq<string>)
    requires TableRun(r1) && TableRun(r2) && FencedShape(lines, p, r1, q, r2)
    ensures Scan(format, lines, |p|, false) == lines[|p|..|p| + 5] + Scan(format, lines, |p| + 5, false)
  {
    FencedBlockAt(format, lines, |p|, r1);
  }

  /** The prose after the fence is copied and the final run replaced. */
  lemma FencedTail(format: Formatter, lines: seq<string>, p: seq<string>, r1: seq<string>, q: seq<string>,
                   r2: seq<string>)
    requires TableRun(r1) && TableRun(r2) && AllPlain(q) && FencedShape(lines, p, r1, q, r2)
    ensures Scan(format, lines, |p| + 5, false) == q + [Replacement(format, r2, lines[|lines| - 1])]
  {
    var c := |p| + 5 + |q|;
    assert lines[c..c + 3] == lines[c..];
    ProseThenRun(format, lines, |p| + 5, c, r2);
    assert Scan(format, lines, c + 3, false) == [];
  }

  /** Prose, a fenced block holding a table run, more prose and a table run at the end: the
      block is copied as it is and only the last run is replaced. */
  lemma FencedRunScan(format: Formatter, lines: seq<string>, p: seq<string>, r1: seq<string>, q: seq<string>,
                      r2: seq<string>)
    requires TableRun(r1) && TableRun(r2) && AllPlain(p) && AllPlain(q) && FencedShape(lines, p, r1, q, r2)
    ensures Scan(format, lines, 0, false)
      == lines[..|lines| - 3] + [Replacement(format, r2, lines[|lines| - 1])]
  {
    var a := |p|;
    FencedHead(format, lines, p, r1, q, r2);
    FencedBlockStep(format, lines, p, r1, q, r2);
    FencedTail(format, lines, p, r1, q, r2);
    FencedPieces(lines, p, q, Scan(format, lines, 0, false), Scan(format, lines, a, false),
      Scan(format, lines, a + 5, false), Replacement(format, r2, lines[|lines| - 1]));
  }

  /** Copied prose, a copied block of five lines, copied prose and a replacement make up
      the whole scan. */
  lemma FencedPieces(lines: seq<string>, p: seq<string>, q: seq<string>, x: seq<string>, y: seq<string>,
                     z: seq<string>, rep: string)
    requires |lines| == |p| + 5 + |q| + 3 && lines[0..|p|] == p && lines[|p| + 5..|p| + 5 + |q|] == q
    requires x == p + y && y == lines[|p|..|p| + 5] + z && z == q + [rep]
    ensures x == lines[..|lines| - 3] + [rep]
  {
    var a := |p|;
    assert lines[..|lines| - 3] == lines[0..a] + lines[a..a + 5] + lines[a + 5..a + 5 + |q|];
  }

  // ----- test_single_table_in_document -----

  /** The prose above the table. */
  function TitleLines(): seq<string> {
    ["# Title\n", "\n", "Some text.\n", "\n"]
  }

  /** The prose below the table. */
  function TrailerLines(): seq<string> {
    ["\n", "More text."]
  }

  /** The lines of the document, as `splitlines(keepends=True)` yields them. */
  function SingleTableLines(): seq<string> {
    TitleLines() + Terminate(AsciiTableRun()) + TrailerLines()
  }

  lemma TitleText()
    ensures Concat(TitleLines()) == "# Title\n\nSome text.\n\n"
  {
  }

  lemma TrailerText()
    ensures Concat(TrailerLines()) == "\nMore text."
  {
  }

  /** The document is its lines, concatenated. */
  lemma SingleTableConcat()
    ensures Concat(SingleTableLines())
      == "# Title\n\nSome text.\n\n" + "| Name | Age |\n|---|---|\n| Alice | 30 |" + "\n\nMore text."
  {
    var run := AsciiTableRun();
    ConcatAppend(TitleLines(), Terminate(run));
    ConcatAppend(TitleLines() + Terminate(run), TrailerLines());
    ConcatTerminate(run);
    TitleText();
    TrailerText();
    AsciiTableRunText();
    assert "\n" + "\nMore text." == "\n\nMore text.";
  }

  /** Its prose lines are plain, and all but the last terminated. */
  lemma SingleTableProse()
    ensures AllPlain(TitleLines()) && AllTerminated(TitleLines())
    ensures AllPlain(TrailerLines()) && SplitShaped(TrailerLines())
  {
  }

  /** The document splits into its lines. */
  lemma SingleTableSplit(text: string)
    requires text == "# Title\n\nSome text.\n\n" + "| Name | Age |\n|---|---|\n| Alice | 30 |" + "\n\nMore text."
    ensures SplitKeepEnds(text) == SingleTableLines()
  {
    var run := AsciiTableRun();
    SingleTableConcat();
    AsciiTableRunShape();
    RunShaped(run);
    SingleTableProse();
    AllTerminatedAppend(TitleLines(), Terminate(run));
    SplitShapedAppend(TitleLines() + Terminate(run), TrailerLines());
    SplitKeepEndsConcat(SingleTableLines());
  }

  /** Where the parts of the document sit among its lines. */
  lemma SingleTableLayout(lines: seq<string>)
    requires lines == SingleTableLines()
    ensures |lines| == 9 && lines[..4] == TitleLines() && lines[4..7] == Terminate(AsciiTableRun())
      && lines[7..] == TrailerLines()
  {
  }

  /** The scan copies the prose, replaces the run of lines 4 to 6 and copies the rest. */
  lemma SingleTableScan(format: Formatter, lines: seq<string>)
    requires |lines| == 9 && lines[..4] == TitleLines() && lines[4..7] == Terminate(AsciiTableRun())
      && lines[7..] == TrailerLines()
    ensures Scan(format, lines, 0, false)
      == TitleLines() + [Replacement(format, AsciiTableRun(), lines[6])] + TrailerLines()
  {
    SingleTableHead(format, lines);
    SingleTableTail(format, lines);
  }

  /** The title prose is copied and the run replaced. */
  lemma SingleTableHead(format: Formatter, lines: seq<string>)
    requires |lines| == 9 && lines[..4] == TitleLines() && lines[4..7] == Terminate(AsciiTableRun())
      && lines[7..] == TrailerLines()
    ensures Scan(format, lines, 0, false)
      == TitleLines() + [Replacement(format, AsciiTableRun(), lines[6])] + Scan(format, lines, 7, false)
  {
    SingleTableProse();
    AsciiTableRunShape();
    assert lines[7] == lines[7..][0];
    assert lines[0..4] == lines[..4];
    ProseThenRun(format, lines, 0, 4, AsciiTableRun());
  }

  /** The trailing prose is copied. */
  lemma SingleTableTail(format: Formatter, lines: seq<string>)
    requires |lines| == 9 && lines[7..] == TrailerLines()
    ensures Scan(format, lines, 7, false) == TrailerLines()
  {
    SingleTableProse();
    SlicePlain(lines, 7, 9);
    PlainLinesCopied(format, lines, 7, 9, false);
    assert lines[7..9] + [] == TrailerLines();
  }

  /** The run is replaced by the formatted table of test_ascii_table and a line break. */
  lemma SingleTableReplacement(eaw: Classifier)
    requires AsciiNarrow(eaw)
    ensures Replacement(TableFormatterOf(eaw), AsciiTableRun(), SingleTableLines()[6])
      == "| Name  | Age |\n| ----- | --- |\n| Alice | 30  |" + "\n"
  {
    var run := AsciiTableRun();
    SingleTableLastLine();
    AsciiTableRunText();
    AsciiTableExample(eaw, Join(run, "\n"));
    ReplacementWithBreak(eaw, run, SingleTableLines()[6], "| Name  | Age |\n| ----- | --- |\n| Alice | 30  |");
  }

  /** The run's last line is followed by a line break in the document. */
  lemma SingleTableLastLine()
    ensures SingleTableLines()[6] == AsciiTableRun()[2] + "\n" && '\n' !in AsciiTableRun()[2]
  {
    AsciiTableRunShape();
  }

  /** A run whose last line had a line break is replaced by its formatted table and a line
      break. */
  lemma ReplacementWithBreak(eaw: Classifier, run: seq<string>, lastLine: string, table: string)
    requires |run| >= 1 && '\n' !in run[|run| - 1] && lastLine == run[|run| - 1] + "\n"
    requires FormatTable(eaw, Join(run, "\n")) == table
    ensures Replacement(TableFormatterOf(eaw), run, lastLine) == table + "\n"
  {
    TableReplacement(eaw, run, lastLine);
  }

  /** The prose around the formatted table joins into the expected document. */
  lemma SingleTableOutput(rep: string)
    requires rep == "| Name  | Age |\n| ----- | --- |\n| Alice | 30  |" + "\n"
    ensures Concat(TitleLines() + [rep] + TrailerLines())
      == "# Title\n\nSome text.\n\n" + "| Name  | Age |\n| ----- | --- |\n| Alice | 30  |" + "\n\nMore text."
  {
    ConcatAppend(TitleLines(), [rep]);
    ConcatAppend(TitleLines() + [rep], TrailerLines());
    assert Concat([rep]) == rep;
    TitleText();
    TrailerText();
    assert "\n" + "\nMore text." == "\n\nMore text.";
  }

  /** test_single_table_in_document: the table is formatted in place and the prose around
      it is left as it is. */
  lemma SingleTableDocumentExample(eaw: Classifier, text: string)
    requires AsciiNarrow(eaw)
    requires text == "# Title\n\nSome text.\n\n" + "| Name | Age |\n|---|---|\n| Alice | 30 |" + "\n\nMore text."
    ensures FormatDocument(eaw, text)
      == "# Title\n\nSome text.\n\n" + "| Name  | Age |\n| ----- | --- |\n| Alice | 30  |" + "\n\nMore text."
  {
    SingleTableSplit(text);
    SingleTableLayout(SingleTableLines());
    SingleTableScan(TableFormatterOf(eaw), SingleTableLines());
    SingleTableReplacement(eaw);
    SingleTableOutput(Replacement(TableFormatterOf(eaw), AsciiTableRun(), SingleTableLines()[6]));
  }

  // ----- Tables and runs shared by the next two documents -----

  /** The run replacing lines that end with `lastLine`: the formatted table, with a line
      break when the last line of the run had one. */
  lemma TableReplacement(eaw: Classifier, run: seq<string>, lastLine: string)
    requires |run| >= 1 && '\n' !in run[|run| - 1]
    requires lastLine == run[|run| - 1] + "\n" || lastLine == run[|run| - 1]
    ensures Replacement(TableFormatterOf(eaw), run, lastLine)
      == FormatTable(eaw, Join(run, "\n")) + (if lastLine == run[|run| - 1] then "" else "\n")
  {
    var last := run[|run| - 1];
    assert TableFormatterOf(eaw)(Join(run, "\n")) == FormatTable(eaw, Join(run, "\n"));
    if lastLine != last {
      assert lastLine[|lastLine| - 1..] == "\n";
    }
  }

  /** Lines of a three-line run, none of them a fence. */
  lemma RunNotFence(lines: seq<string>, i: nat, run: seq<string>)
    requires i + 3 <= |lines| && |run| == 3
    requires forall k :: 0 <= k < 3 ==> IsStripped(run[k]) && '\n' !in run[k] && run[k] != [] && run[k][0] == '|'
    requires forall k :: 0 <= k < 3 ==> lines[i + k] == run[k] + "\n"
    ensures forall m :: i <= m < i + 3 ==> !IsFence(lines[m])
  {
    forall m | i <= m < i + 3
      ensures !IsFence(lines[m])
    {
      NormalizedLine(lines[m], run[m - i]);
      PipeLineNotFence(lines[m]);
    }
  }

  /** A cell of one capital letter between two spaces. */
  function Letter(c: char): string {
    [' ', c, ' ']
  }

  lemma LetterCell(c: char)
    requires 'A' <= c <= 'Z'
    ensures RawCell(Letter(c)) && Strip(Letter(c)) == [c]
  {
    Spaced(Letter(c), [c], " ");
  }

  /** "| a | b |", "|---|---|", "| c | d |". */
  function LetterRun(a: char, b: char, c: char, d: char): seq<string> {
    TwoColumnLines(Letter(a), Letter(b), "|---|---|", Letter(c), Letter(d))
  }

  /** A table of one-letter cells: its lines are stripped table lines. */
  lemma LetterRunShape(a: char, b: char, c: char, d: char)
    requires 'A' <= a <= 'Z' && 'A' <= b <= 'Z' && 'A' <= c <= 'Z' && 'A' <= d <= 'Z'
    ensures TableRun(LetterRun(a, b, c, d))
  {
    LetterCell(a);
    LetterCell(b);
    LetterCell(c);
    LetterCell(d);
    TwoColumnRun(Letter(a), Letter(b), Letter(c), Letter(d));
  }

  /** A two-column table with the tests' separator line is a table run. */
  lemma TwoColumnRun(h1: string, h2: string, b1: string, b2: string)
    requires RawCell(h1) && RawCell(h2) && RawCell(b1) && RawCell(b2)
    ensures TableRun(TwoColumnLines(h1, h2, "|---|---|", b1, b2))
  {
    TestSeparator();
    StripStripped("|---|---|");
    TwoColumnLinesShape(h1, h2, "|---|---|", b1, b2);
    CellLineForm(h1, h2);
    CellLineForm(b1, b2);
  }

  /** One-letter rows at column width one render as they were written. */
  lemma LetterRendered(eaw: Classifier, a: char, b: char)
    requires AsciiNarrow(eaw) && 'A' <= a <= 'Z' && 'A' <= b <= 'Z'
    ensures DisplayWidth(eaw, [a]) == 1 && DisplayWidth(eaw, [b]) == 1
    ensures RenderRow(eaw, [[a], [b]], [1, 1]) == CellLine(Letter(a), Letter(b))
    ensures RenderSeparator([1, 1]) == "| - | - |"
  {
    AsciiWidth(eaw, [a]);
    AsciiWidth(eaw, [b]);
    RenderTwo(eaw, [a], [b], 1, 1);
    assert Repeat(' ', 0) == "" && Repeat('-', 1) == "-";
  }

  /** A table of one-letter cells keeps its rows; only the separator is redrawn, one hyphen
      per column. */
  lemma LetterTable(eaw: Classifier, text: string, a: char, b: char, c: char, d: char)
    requires AsciiNarrow(eaw)
    requires 'A' <= a <= 'Z' && 'A' <= b <= 'Z' && 'A' <= c <= 'Z' && 'A' <= d <= 'Z'
    requires text == Join(LetterRun(a, b, c, d), "\n")
    ensures FormatTable(eaw, text)
      == Join([LetterRun(a, b, c, d)[0], "| - | - |", LetterRun(a, b, c, d)[2]], "\n")
  {
    LetterCell(a);
    LetterCell(b);
    LetterCell(c);
    LetterCell(d);
    LetterHeaderText(a, b);
    TestSeparator();
    TwoColumnTable(eaw, text, Letter(a), Letter(b), "|---|---|", Letter(c), Letter(d));
    LetterRendered(eaw, a, b);
    LetterRendered(eaw, c, d);
  }

  lemma LetterHeaderText(a: char, b: char)
    requires 'A' <= a <= 'Z'
    ensures HasText(CellLine(Letter(a), Letter(b)))
  {
    assert CellLine(Letter(a), Letter(b))[2] == a;
  }

  /** A table of one-letter cells joined into one text. */
  lemma LetterRunJoin(a: char, b: char, c: char, d: char)
    ensures Join(LetterRun(a, b, c, d), "\n")
      == CellLine(Letter(a), Letter(b)) + "\n" + "|---|---|" + "\n" + CellLine(Letter(c), Letter(d))
  {
    JoinThree(CellLine(Letter(a), Letter(b)), "|---|---|", CellLine(Letter(c), Letter(d)));
  }

  /** The same table with its separator redrawn, joined into one text. */
  lemma LetterTableJoin(a: char, b: char, c: char, d: char)
    ensures Join([LetterRun(a, b, c, d)[0], "| - | - |", LetterRun(a, b, c, d)[2]], "\n")
      == CellLine(Letter(a), Letter(b)) + "\n" + "| - | - |" + "\n" + CellLine(Letter(c), Letter(d))
  {
    JoinThree(CellLine(Letter(a), Letter(b)), "| - | - |", CellLine(Letter(c), Letter(d)));
  }

  /** The A/B/C/D table of both documents, as its test writes it. */
  lemma AbcdInput()
    ensures Join(LetterRun('A', 'B', 'C', 'D'), "\n") == "| A | B |\n|---|---|\n| C | D |"
  {
    LetterRunJoin('A', 'B', 'C', 'D');
    assert CellLine(Letter('A'), Letter('B')) == "| A | B |";
    assert CellLine(Letter('C'), Letter('D')) == "| C | D |";
  }

  /** The A/B/C/D table as the tests expect it formatted. */
  lemma AbcdOutput()
    ensures Join([LetterRun('A', 'B', 'C', 'D')[0], "| - | - |", LetterRun('A', 'B', 'C', 'D')[2]], "\n")
      == "| A | B |\n| - | - |\n| C | D |"
  {
    LetterTableJoin('A', 'B', 'C', 'D');
    assert CellLine(Letter('A'), Letter('B')) == "| A | B |";
    assert CellLine(Letter('C'), Letter('D')) == "| C | D |";
  }

  // ----- test_multiple_tables_in_document -----

  /** The ideographs of the document's second table are Wide in the Unicode table. */
  predicate NameValueWide(eaw: Classifier) {
    eaw('名') == Wide && eaw('前') == Wide && eaw('値') == Wide
  }

  /** "| 名前 | 値 |", "|---|---|", "| X | Y |". */
  function NameValueRun(): seq<string> {
    TwoColumnLines(" 名前 ", " 値 ", "|---|---|", Letter('X'), Letter('Y'))
  }

  lemma NameValueCells()
    ensures RawCell(" 名前 ") && Strip(" 名前 ") == "名前" && RawCell(" 値 ") && Strip(" 値 ") == "値"
    ensures HasText(CellLine(" 名前 ", " 値 "))
  {
    Spaced(" 名前 ", "名前", " ");
    Spaced(" 値 ", "値", " ");
    assert CellLine(" 名前 ", " 値 ")[2] == '名';
  }

  lemma NameValueRunShape()
    ensures TableRun(NameValueRun())
  {
    NameValueCells();
    LetterCell('X');
    LetterCell('Y');
    TwoColumnRun(" 名前 ", " 値 ", Letter('X'), Letter('Y'));
  }

  /** The formatted table: "名前" is four columns wide and "値" two. */
  lemma NameValueRendered(eaw: Classifier)
    requires AsciiNarrow(eaw) && NameValueWide(eaw)
    ensures Max(DisplayWidth(eaw, "名前"), DisplayWidth(eaw, "X")) == 4
    ensures Max(DisplayWidth(eaw, "値"), DisplayWidth(eaw, "Y")) == 2
    ensures RenderRow(eaw, ["名前", "値"], [4, 2]) == "| 名前 | 値 |"
    ensures RenderSeparator([4, 2]) == "| ---- | -- |"
    ensures RenderRow(eaw, ["X", "Y"], [4, 2]) == "| X    | Y  |"
  {
    NameValueWidths(eaw);
    NameValueHeaderRow(eaw);
    NameValueSeparatorRow();
    NameValueBodyRow(eaw);
  }

  lemma NameValueWidths(eaw: Classifier)
    requires AsciiNarrow(eaw) && NameValueWide(eaw)
    ensures DisplayWidth(eaw, "名前") == 4 && DisplayWidth(eaw, "値") == 2
    ensures DisplayWidth(eaw, "X") == 1 && DisplayWidth(eaw, "Y") == 1
  {
    DisplayWidthAllWide(eaw, "名前");
    DisplayWidthAllWide(eaw, "値");
    AsciiWidth(eaw, "X");
    AsciiWidth(eaw, "Y");
  }

  lemma NameValueHeaderRow(eaw: Classifier)
    requires AsciiNarrow(eaw) && NameValueWide(eaw)
    ensures RenderRow(eaw, ["名前", "値"], [4, 2]) == "| 名前 | 値 |"
  {
    NameValueWidths(eaw);
    RenderTwo(eaw, "名前", "値", 4, 2);
    assert Repeat(' ', 0) == "";
  }

  lemma NameValueSeparatorRow()
    ensures RenderSeparator([4, 2]) == "| ---- | -- |"
  {
    SeparatorTwo(4, 2);
    assert Repeat('-', 4) == "----" && Repeat('-', 2) == "--";
  }

  lemma NameValueBodyRow(eaw: Classifier)
    requires AsciiNarrow(eaw) && NameValueWide(eaw)
    ensures RenderRow(eaw, ["X", "Y"], [4, 2]) == "| X    | Y  |"
  {
    NameValueWidths(eaw);
    RenderTwo(eaw, "X", "Y", 4, 2);
    assert Repeat(' ', 3) == "   " && Repeat(' ', 1) == " ";
  }

  lemma NameValueTable(eaw: Classifier, text: string)
    requires AsciiNarrow(eaw) && NameValueWide(eaw)
    requires text == Join(NameValueRun(), "\n")
    ensures FormatTable(eaw, text) == Join(["| 名前 | 値 |", "| ---- | -- |", "| X    | Y  |"], "\n")
  {
    NameValueCells();
    LetterCell('X');
    LetterCell('Y');
    TestSeparator();
    TwoColumnTable(eaw, text, " 名前 ", " 値 ", "|---|---|", Letter('X'), Letter('Y'));
    NameValueRendered(eaw);
  }

  lemma NameValueInput()
    ensures Join(NameValueRun(), "\n") == "| 名前 | 値 |\n|---|---|\n| X | Y |"
  {
    assert CellLine(" 名前 ", " 値 ") == "| 名前 | 値 |";
    assert CellLine(Letter('X'), Letter('Y')) == "| X | Y |";
    JoinThree("| 名前 | 値 |", "|---|---|", "| X | Y |");
    NameValueInputHead();
    NameValueInputTail();
  }

  lemma NameValueInputHead()
    ensures "| 名前 | 値 |" + "\n" + "|---|---|" == "| 名前 | 値 |\n|---|---|"
  {
  }

  lemma NameValueInputTail()
    ensures "| 名前 | 値 |\n|---|---|" + "\n" + "| X | Y |" == "| 名前 | 値 |\n|---|---|\n| X | Y |"
  {
  }

  lemma NameValueOutput()
    ensures Join(["| 名前 | 値 |", "| ---- | -- |", "| X    | Y  |"], "\n") == "| 名前 | 値 |\n| ---- | -- |\n| X    | Y  |"
  {
    JoinThree("| 名前 | 値 |", "| ---- | -- |", "| X    | Y  |");
    NameValueOutputHead();
    NameValueOutputTail();
  }

  lemma NameValueOutputHead()
    ensures "| 名前 | 値 |" + "\n" + "| ---- | -- |" == "| 名前 | 値 |\n| ---- | -- |"
  {
  }

  lemma NameValueOutputTail()
    ensures "| 名前 | 値 |\n| ---- | -- |" + "\n" + "| X    | Y  |" == "| 名前 | 値 |\n| ---- | -- |\n| X    | Y  |"
  {
  }

  /** The heading above the first table. */
  function DocHeadLines(): seq<string> {
    ["# Doc\n", "\n"]
  }

  /** The paragraph between the two tables. */
  function ParagraphLines(): seq<string> {
    ["\n", "Paragraph.\n", "\n"]
  }

  function MultipleTablesLines(): seq<string> {
    TwoRunLines(DocHeadLines(), LetterRun('A', 'B', 'C', 'D'), ParagraphLines(), NameValueRun())
  }

  lemma DocHeadProse()
    ensures AllPlain(DocHeadLines()) && AllTerminated(DocHeadLines()) && Concat(DocHeadLines()) == "# Doc\n\n"
  {
  }

  lemma ParagraphProse()
    ensures AllPlain(ParagraphLines()) && AllTerminated(ParagraphLines())
    ensures Concat(ParagraphLines()) == "\nParagraph.\n\n"
  {
  }

  /** The parts of the document join into its text. */
  lemma MultipleTablesText()
    ensures Concat(DocHeadLines()) + (Join(LetterRun('A', 'B', 'C', 'D'), "\n") + "\n") + Concat(ParagraphLines())
      + Join(NameValueRun(), "\n")
      == "# Doc\n\n" + "| A | B |\n|---|---|\n| C | D |" + "\n\nParagraph.\n\n" + "| 名前 | 値 |\n|---|---|\n| X | Y |"
  {
    DocHeadProse();
    ParagraphProse();
    AbcdInput();
    NameValueInput();
    assert "\n" + "\nParagraph.\n\n" == "\n\nParagraph.\n\n";
  }

  /** The document splits into its lines. */
  lemma MultipleTablesSplit(text: string)
    requires text == "# Doc\n\n" + "| A | B |\n|---|---|\n| C | D |" + "\n\nParagraph.\n\n"
      + "| 名前 | 値 |\n|---|---|\n| X | Y |"
    ensures SplitKeepEnds(text) == MultipleTablesLines()
  {
    DocHeadProse();
    ParagraphProse();
    LetterRunShape('A', 'B', 'C', 'D');
    NameValueRunShape();
    TwoRunText(DocHeadLines(), LetterRun('A', 'B', 'C', 'D'), ParagraphLines(), NameValueRun());
    MultipleTablesText();
  }

  /** The two runs are replaced by their formatted tables, the first with its line break. */
  lemma MultipleTablesReplacements(eaw: Classifier, lines: seq<string>)
    requires AsciiNarrow(eaw) && NameValueWide(eaw)
    requires |lines| == 11 && lines[2..5] == Terminate(LetterRun('A', 'B', 'C', 'D'))
      && lines[8..] == EndLines(NameValueRun())
    ensures Replacement(TableFormatterOf(eaw), LetterRun('A', 'B', 'C', 'D'), lines[4])
      == "| A | B |\n| - | - |\n| C | D |" + "\n"
    ensures Replacement(TableFormatterOf(eaw), NameValueRun(), lines[10]) == "| 名前 | 値 |\n| ---- | -- |\n| X    | Y  |"
  {
    var r1, r2 := LetterRun('A', 'B', 'C', 'D'), NameValueRun();
    LetterRunShape('A', 'B', 'C', 'D');
    NameValueRunShape();
    RunLinesAt(lines, 2, r1);
    RunLinesAt(lines, 8, r2);
    TableReplacement(eaw, r1, lines[4]);
    TableReplacement(eaw, r2, lines[10]);
    LetterTable(eaw, Join(r1, "\n"), 'A', 'B', 'C', 'D');
    NameValueTable(eaw, Join(r2, "\n"));
    AbcdOutput();
    NameValueOutput();
  }

  /** The prose around the formatted tables joins into the expected document. */
  lemma MultipleTablesOutput(rep1: string, rep2: string)
    requires rep1 == "| A | B |\n| - | - |\n| C | D |" + "\n"
    ensures Concat(DocHeadLines() + [rep1] + ParagraphLines() + [rep2])
      == "# Doc\n\n" + "| A | B |\n| - | - |\n| C | D |" + "\n\nParagraph.\n\n" + rep2
  {
    var a := DocHeadLines() + [rep1];
    ConcatAppend(DocHeadLines(), [rep1]);
    ConcatAppend(a, ParagraphLines());
    ConcatAppend(a + ParagraphLines(), [rep2]);
    assert Concat([rep1]) == rep1 && Concat([rep2]) == rep2;
    DocHeadProse();
    ParagraphProse();
    assert "\n" + "\nParagraph.\n\n" == "\n\nParagraph.\n\n";
  }

  /** test_multiple_tables_in_document: both tables are formatted, each to its own column
      widths, and the prose between them is left as it is. */
  lemma MultipleTablesDocumentExample(eaw: Classifier, text: string)
    requires AsciiNarrow(eaw) && NameValueWide(eaw)
    requires text == "# Doc\n\n" + "| A | B |\n|---|---|\n| C | D |" + "\n\nParagraph.\n\n"
      + "| 名前 | 値 |\n|---|---|\n| X | Y |"
    ensures FormatDocument(eaw, text) == "# Doc\n\n" + "| A | B |\n| - | - |\n| C | D |" + "\n\nParagraph.\n\n"
      + "| 名前 | 値 |\n| ---- | -- |\n| X    | Y  |"
  {
    var lines := MultipleTablesLines();
    MultipleTablesSplit(text);
    TwoRunLayout(lines, DocHeadLines(), LetterRun('A', 'B', 'C', 'D'), ParagraphLines(), NameValueRun());
    DocHeadProse();
    ParagraphProse();
    LetterRunShape('A', 'B', 'C', 'D');
    NameValueRunShape();
    TwoRunScan(TableFormatterOf(eaw), lines, DocHeadLines(), LetterRun('A', 'B', 'C', 'D'), ParagraphLines(),
      NameValueRun());
    MultipleTablesReplacements(eaw, lines);
    MultipleTablesOutput(Replacement(TableFormatterOf(eaw), LetterRun('A', 'B', 'C', 'D'), lines[4]),
      Replacement(TableFormatterOf(eaw), NameValueRun(), lines[10]));
  }

  // ----- test_table_inside_code_block_untouched -----

  /** The heading and the opening fence. */
  function CodeHeadLines(): seq<string> {
    DocHeadLines() + ["```\n"]
  }

  /** The closing fence and the blank line after it. */
  function CodeTailLines(): seq<string> {
    ["```\n"] + ["\n"]
  }

  function CodeBlockLines(): seq<string> {
    TwoRunLines(CodeHeadLines(), LetterRun('A', 'B', 'C', 'D'), CodeTailLines(), LetterRun('E', 'F', 'G', 'H'))
  }

  lemma CodeBlockProse()
    ensures AllTerminated(CodeHeadLines()) && AllTerminated(CodeTailLines())
    ensures Concat(CodeHeadLines()) == "# Doc\n\n```\n" && Concat(CodeTailLines()) == "```\n\n"
    ensures PlainLine("# Doc\n") && PlainLine("\n")
  {
  }

  /** The E/F/G/H table, as its test writes it. */
  lemma EfghInput()
    ensures Join(LetterRun('E', 'F', 'G', 'H'), "\n") == "| E | F |\n|---|---|\n| G | H |"
  {
    LetterRunJoin('E', 'F', 'G', 'H');
    assert CellLine(Letter('E'), Letter('F')) == "| E | F |";
    assert CellLine(Letter('G'), Letter('H')) == "| G | H |";
  }

  /** The E/F/G/H table as the test expects it formatted. */
  lemma EfghOutput()
    ensures Join([LetterRun('E', 'F', 'G', 'H')[0], "| - | - |", LetterRun('E', 'F', 'G', 'H')[2]], "\n")
      == "| E | F |\n| - | - |\n| G | H |"
  {
    LetterTableJoin('E', 'F', 'G', 'H');
    assert CellLine(Letter('E'), Letter('F')) == "| E | F |";
    assert CellLine(Letter('G'), Letter('H')) == "| G | H |";
  }

  /** The parts of the document join into its text. */
  lemma CodeBlockText()
    ensures Concat(CodeHeadLines()) + (Join(LetterRun('A', 'B', 'C', 'D'), "\n") + "\n") + Concat(CodeTailLines())
      + Join(LetterRun('E', 'F', 'G', 'H'), "\n")
      == "# Doc\n\n```\n" + "| A | B |\n|---|---|\n| C | D |" + "\n```\n\n" + "| E | F |\n|---|---|\n| G | H |"
  {
    CodeBlockProse();
    AbcdInput();
    EfghInput();
    assert "\n" + "```\n\n" == "\n```\n\n";
  }

  /** The document splits into its lines. */
  lemma CodeBlockSplit(text: string)
    requires text == "# Doc\n\n```\n" + "| A | B |\n|---|---|\n| C | D |" + "\n```\n\n"
      + "| E | F |\n|---|---|\n| G | H |"
    ensures SplitKeepEnds(text) == CodeBlockLines()
  {
    CodeBlockProse();
    LetterRunShape('A', 'B', 'C', 'D');
    LetterRunShape('E', 'F', 'G', 'H');
    TwoRunText(CodeHeadLines(), LetterRun('A', 'B', 'C', 'D'), CodeTailLines(), LetterRun('E', 'F', 'G', 'H'));
    CodeBlockText();
  }

  /** The run after the block is replaced by its formatted table. */
  lemma CodeBlockReplacement(eaw: Classifier, lines: seq<string>)
    requires AsciiNarrow(eaw)
    requires |lines| == 11 && lines[8..] == EndLines(LetterRun('E', 'F', 'G', 'H'))
    ensures Replacement(TableFormatterOf(eaw), LetterRun('E', 'F', 'G', 'H'), lines[10])
      == "| E | F |\n| - | - |\n| G | H |"
  {
    var run := LetterRun('E', 'F', 'G', 'H');
    LetterRunShape('E', 'F', 'G', 'H');
    RunLinesAt(lines, 8, run);
    TableReplacement(eaw, run, lines[10]);
    LetterTable(eaw, Join(run, "\n"), 'E', 'F', 'G', 'H');
    EfghOutput();
  }

  /** The copied lines and the formatted table join into the expected document. */
  lemma CodeBlockOutput(lines: seq<string>, rep: string)
    requires |lines| == 11 && lines[..3] == CodeHeadLines() && lines[3..6] == Terminate(LetterRun('A', 'B', 'C', 'D'))
      && lines[6..8] == CodeTailLines()
    ensures Concat(lines[..8] + [rep])
      == "# Doc\n\n```\n" + "| A | B |\n|---|---|\n| C | D |" + "\n```\n\n" + rep
  {
    var run := LetterRun('A', 'B', 'C', 'D');
    assert lines[..8] == CodeHeadLines() + Terminate(run) + CodeTailLines();
    ConcatAppend(CodeHeadLines(), Terminate(run));
    ConcatAppend(CodeHeadLines() + Terminate(run), CodeTailLines());
    ConcatAppend(lines[..8], [rep]);
    assert Concat([rep]) == rep;
    ConcatTerminate(run);
    CodeBlockProse();
    AbcdInput();
    assert "\n" + "```\n\n" == "\n```\n\n";
  }

  /** test_table_inside_code_block_untouched: the table inside the fenced block is copied
      as it is, and the one after the block is formatted. */
  lemma CodeBlockDocumentExample(eaw: Classifier, text: string)
    requires AsciiNarrow(eaw)
    requires text == "# Doc\n\n```\n" + "| A | B |\n|---|---|\n| C | D |" + "\n```\n\n"
      + "| E | F |\n|---|---|\n| G | H |"
    ensures FormatDocument(eaw, text) == "# Doc\n\n```\n" + "| A | B |\n|---|---|\n| C | D |" + "\n```\n\n"
      + "| E | F |\n| - | - |\n| G | H |"
  {
    var lines := CodeBlockLines();
    CodeBlockSplit(text);
    TwoRunLayout(lines, CodeHeadLines(), LetterRun('A', 'B', 'C', 'D'), CodeTailLines(), LetterRun('E', 'F', 'G', 'H'));
    DocHeadProse();
    LetterRunShape('A', 'B', 'C', 'D');
    LetterRunShape('E', 'F', 'G', 'H');
    assert AllPlain(["\n"]);
    FencedLayout(lines, DocHeadLines(), LetterRun('A', 'B', 'C', 'D'), ["\n"], LetterRun('E', 'F', 'G', 'H'));
    FencedRunScan(TableFormatterOf(eaw), lines, DocHeadLines(), LetterRun('A', 'B', 'C', 'D'), ["\n"],
      LetterRun('E', 'F', 'G', 'H'));
    CodeBlockReplacement(eaw, lines);
    CodeBlockOutput(lines, Replacement(TableFormatterOf(eaw), LetterRun('E', 'F', 'G', 'H'), lines[10]));
  }
}
