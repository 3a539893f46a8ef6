/** The Python string operations the formatter is built from, on `string == seq<char>`:
    `strip`/`lstrip`/`rstrip` with and without a character set, `split` on one character,
    `join`, `splitlines` (line breaks are '\n' only) and `" " * n`. */
module Text {

  /** The characters `str.isspace()` accepts, which is also the class `\s` of a `re` pattern
      over `str`: U+0009..U+000D, U+001C..U+001F, U+0020, U+0085, U+00A0, U+1680,
      U+2000..U+200A, U+2028, U+2029, U+202F, U+205F and U+3000. */
  predicate IsSpace(c: char) {
    ('\t' <= c <= '\r') || ('\U{1C}' <= c <= ' ') || c == '\U{85}' || c == '\U{A0}'
    || c == '\U{1680}' || ('\U{2000}' <= c <= '\U{200A}') || c == '\U{2028}' || c == '\U{2029}'
    || c == '\U{202F}' || c == '\U{205F}' || c == '\U{3000}'
  }

  /** The `chars` argument of `strip`/`lstrip`/`rstrip`: omitted (whitespace) or given. */
  datatype CharSet = AnyWhitespace | Only(chars: set<char>)

  predicate InSet(c: char, chars: CharSet) {
    match chars
    case AnyWhitespace => IsSpace(c)
    case Only(s) => c in s
  }

  /** `s.lstrip(chars)`: `s` without its longest prefix of characters from `chars`. */
  function LStrip(s: string, chars: CharSet): string
    decreases |s|
  {
    if s != [] && InSet(s[0], chars) then LStrip(s[1..], chars) else s
  }

  /** `lstrip` removes a prefix made of `chars` and stops at the first character outside. */
  lemma {:induction false} LStripSpec(s: string, chars: CharSet)
    ensures var r := LStrip(s, chars);
      |r| <= |s| && r == s[|s| - |r|..]
      && (forall i :: 0 <= i < |s| - |r| ==> InSet(s[i], chars))
      && (r != [] ==> !InSet(r[0], chars))
    decreases |s|
  {
    if s != [] && InSet(s[0], chars) {
      LStripSpec(s[1..], chars);
    }
  }

  /** `s.rstrip(chars)`: `s` without its longest suffix of characters from `chars`. */
  function RStrip(s: string, chars: CharSet): string
    decreases |s|
  {
    if s != [] && InSet(s[|s| - 1], chars) then RStrip(s[..|s| - 1], chars) else s
  }

  /** `rstrip` removes a suffix made of `chars` and stops at the last character outside. */
  lemma {:induction false} RStripSpec(s: string, chars: CharSet)
    ensures var r := RStrip(s, chars);
      |r| <= |s| && r == s[..|r|]
      && (forall i :: |r| <= i < |s| ==> InSet(s[i], chars))
      && (r != [] ==> !InSet(r[|r| - 1], chars))
    decreases |s|
  {
    if s != [] && InSet(s[|s| - 1], chars) {
      RStripSpec(s[..|s| - 1], chars);
    }
  }

  /** Neither end of `s` is a character from `chars`. */
  predicate StrippedOf(s: string, chars: CharSet) {
    s == [] || (!InSet(s[0], chars) && !InSet(s[|s| - 1], chars))
  }

  /** `s.strip(chars)`. */
  function StripChars(s: string, chars: CharSet): (r: string)
  {
    RStrip(LStrip(s, chars), chars)
  }

  /** `s.strip()`: both ends freed of whitespace. */
  function Strip(s: string): (r: string)
  {
    StripChars(s, AnyWhitespace)
  }

  predicate IsStripped(s: string) {
    StrippedOf(s, AnyWhitespace)
  }

  predicate AllIn(s: string, chars: CharSet) {
    forall i :: 0 <= i < |s| ==> InSet(s[i], chars)
  }

  /** `StripChars` removes exactly the two runs of `chars` around a core that does not begin
      or end with one of them. */
  lemma {:induction false} StripCharsFramed(a: string, m: string, b: string, chars: CharSet)
    requires AllIn(a, chars) && AllIn(b, chars) && StrippedOf(m, chars)
    ensures StripChars(a + m + b, chars) == m
  {
    if m == [] {
      assert a + m + b == (a + b) + [];
      LStripPrefix(a + b, [], chars);
    } else {
      assert a + m + b == a + (m + b);
      LStripPrefix(a, m + b, chars);
      RStripSuffix(m, b, chars);
    }
  }

  lemma {:induction false} LStripPrefix(a: string, rest: string, chars: CharSet)
    requires AllIn(a, chars) && (rest == [] || !InSet(rest[0], chars))
    ensures LStrip(a + rest, chars) == rest
    decreases |a|
  {
    if a != [] {
      assert (a + rest)[1..] == a[1..] + rest;
      LStripPrefix(a[1..], rest, chars);
    } else {
      assert a + rest == rest;
    }
  }

  lemma {:induction false} RStripSuffix(m: string, b: string, chars: CharSet)
    requires AllIn(b, chars) && (m == [] || !InSet(m[|m| - 1], chars))
    ensures RStrip(m + b, chars) == m
    decreases |b|
  {
    if b != [] {
      assert (m + b)[..|m + b| - 1] == m + b[..|b| - 1];
      RStripSuffix(m, b[..|b| - 1], chars);
    } else {
      assert m + b == m;
    }
  }

  /** `strip` never brings in a character: what is absent from `s` is absent from the result. */
  lemma StripCharsAvoids(s: string, chars: CharSet, c: char)
    requires c !in s
    ensures c !in StripChars(s, chars) && c !in LStrip(s, chars) && c !in RStrip(s, chars)
  {
    var l := LStrip(s, chars);
    LStripSpec(s, chars);
    assert l == s[|s| - |l|..];
    var r := RStrip(l, chars);
    RStripSpec(l, chars);
    assert r == l[..|r|];
    var r2 := RStrip(s, chars);
    RStripSpec(s, chars);
    assert r2 == s[..|r2|];
  }

  /** The result of `strip()` is stripped. */
  lemma StripIsStripped(s: string)
    ensures IsStripped(Strip(s))
  {
    var l := LStrip(s, AnyWhitespace);
    var r := RStrip(l, AnyWhitespace);
    LStripSpec(s, AnyWhitespace);
    RStripSpec(l, AnyWhitespace);
    if r != [] {
      assert r == l[..|r|];
      assert r[0] == l[0];
    }
  }

  /** `strip()` leaves stripped text as it is. */
  lemma StripStripped(s: string)
    requires IsStripped(s)
    ensures Strip(s) == s
  {
    assert [] + s + [] == s;
    StripCharsFramed([], s, [], AnyWhitespace);
  }

  /** Index of the first `c` in `s`. */
  function IndexOf(s: string, c: char): (i: nat)
    requires c in s
    ensures i < |s| && s[i] == c && c !in s[..i]
  {
    if s[0] == c then 0
    else
      assert c in s[1..] by {
        var k :| 0 <= k < |s| && s[k] == c;
        assert s[1..][k - 1] == c;
      }
      var j := IndexOf(s[1..], c);
      assert s[..j + 1] == [s[0]] + s[1..][..j];
      j + 1
  }

  /** `sep.join(parts)`. */
  function Join(parts: seq<string>, sep: string): string
    decreases |parts|
  {
    if parts == [] then []
    else if |parts| == 1 then parts[0]
    else parts[0] + sep + Join(parts[1..], sep)
  }

  /** `s.split(sep)` for a one-character separator: the pieces between the separators, which
      `Join` puts back together. */
  function Split(s: string, sep: char): (parts: seq<string>)
    ensures |parts| >= 1
    ensures forall k :: 0 <= k < |parts| ==> sep !in parts[k]
    ensures Join(parts, [sep]) == s
    decreases |s|
  {
    if sep in s then
      var i := IndexOf(s, sep);
      var rest := Split(s[i + 1..], sep);
      assert s == s[..i] + [sep] + s[i + 1..];
      assert ([s[..i]] + rest)[1..] == rest;
      [s[..i]] + rest
    else [s]
  }

  /** Splitting undoes joining when no part holds the separator. */
  lemma {:induction false} SplitJoin(parts: seq<string>, sep: char)
    requires |parts| >= 1
    requires forall k :: 0 <= k < |parts| ==> sep !in parts[k]
    ensures Split(Join(parts, [sep]), sep) == parts
    decreases |parts|
  {
    if |parts| > 1 {
      var tail := Join(parts[1..], [sep]);
      assert Join(parts, [sep]) == parts[0] + [sep] + tail;
      SplitCons(parts[0], tail, sep);
      SplitJoin(parts[1..], sep);
      assert parts == [parts[0]] + parts[1..];
    }
  }

  /** A piece without the separator, then the separator, splits off as the first part. */
  lemma SplitCons(p: string, t: string, c: char)
    requires c !in p
    ensures Split(p + [c] + t, c) == [p] + Split(t, c)
  {
    var s := p + [c] + t;
    IndexOfAfter(p, t, c);
    assert s[..|p|] == p;
    assert s[|p| + 1..] == t;
  }

  /** The first `c` in `p + [c] + t` is the one after `p` when `p` has none. */
  lemma {:induction false} IndexOfAfter(p: string, t: string, c: char)
    requires c !in p
    ensures c in p + [c] + t && IndexOf(p + [c] + t, c) == |p|
    decreases |p|
  {
    var s := p + [c] + t;
    assert s[|p|] == c;
    if p != [] {
      assert s[0] == p[0];
      assert s[1..] == p[1..] + [c] + t;
      IndexOfAfter(p[1..], t, c);
    }
  }

  /** A text without the separator is one piece. */
  lemma SplitWithout(s: string, sep: char)
    requires sep !in s
    ensures Split(s, sep) == [s]
  {
  }

  /** Every character of every part shows up in the join. */
  lemma {:induction false} JoinMember(parts: seq<string>, sep: string, k: nat, c: char)
    requires k < |parts| && c in parts[k]
    ensures c in Join(parts, sep)
    decreases |parts|
  {
    if k > 0 {
      JoinMember(parts[1..], sep, k - 1, c);
    }
  }

  /** A character found in neither the parts nor the separator is not in the join. */
  lemma {:induction false} JoinAvoids(parts: seq<string>, sep: string, c: char)
    requires c !in sep && forall k :: 0 <= k < |parts| ==> c !in parts[k]
    ensures c !in Join(parts, sep)
    decreases |parts|
  {
    if |parts| > 1 {
      JoinAvoids(parts[1..], sep, c);
    }
  }

  /** A character of the join that is not in the separator comes from one of the parts. */
  lemma {:induction false} JoinSource(parts: seq<string>, sep: string, c: char)
    requires c in Join(parts, sep) && c !in sep
    ensures exists k :: 0 <= k < |parts| && c in parts[k]
    decreases |parts|
  {
    if |parts| > 1 {
      if c !in parts[0] {
        JoinSource(parts[1..], sep, c);
        var k :| 0 <= k < |parts| - 1 && c in parts[1..][k];
        assert parts[k + 1] == parts[1..][k];
      }
    }
  }

  /** `strip(chars)` keeps every character that is not in `chars`. */
  lemma StripCharsKeeps(s: string, chars: CharSet, c: char)
    requires c in s && !InSet(c, chars)
    ensures c in StripChars(s, chars)
  {
    var l := LStrip(s, chars);
    LStripSpec(s, chars);
    var r := RStrip(l, chars);
    RStripSpec(l, chars);
    var i :| 0 <= i < |s| && s[i] == c;
    assert l[i - (|s| - |l|)] == c;
    assert r[i - (|s| - |l|)] == c;
  }

  /** A character absent from a concatenation is absent from each piece. */
  lemma {:induction false} ConcatAvoids(pieces: seq<string>, c: char)
    requires c !in Concat(pieces)
    ensures forall k :: 0 <= k < |pieces| ==> c !in pieces[k]
    decreases |pieces|
  {
    if pieces != [] {
      assert Concat(pieces) == pieces[0] + Concat(pieces[1..]);
      ConcatAvoids(pieces[1..], c);
      assert forall k :: 1 <= k < |pieces| ==> pieces[k] == pieces[1..][k - 1];
    }
  }

  /** `s.splitlines()` with '\n' as the only line break. */
  function SplitLines(s: string): (lines: seq<string>)
    ensures forall k :: 0 <= k < |lines| ==> '\n' !in lines[k]
  {
    if s == [] then []
    else if s[|s| - 1] == '\n' then Split(s[..|s| - 1], '\n')
    else Split(s, '\n')
  }

  /** Lines without '\n' whose last one is not empty are split back out of their join. */
  lemma SplitLinesJoin(lines: seq<string>)
    requires |lines| >= 1 && lines[|lines| - 1] != []
    requires forall k :: 0 <= k < |lines| ==> '\n' !in lines[k]
    ensures SplitLines(Join(lines, "\n")) == lines
  {
    JoinLast(lines, "\n");
    SplitJoin(lines, '\n');
  }

  /** A join ends with the end of its last part. */
  lemma {:induction false} JoinLast(parts: seq<string>, sep: string)
    requires |parts| >= 1 && parts[|parts| - 1] != []
    ensures var j := Join(parts, sep); j != [] && j[|j| - 1] == parts[|parts| - 1][|parts[|parts| - 1]| - 1]
    decreases |parts|
  {
    if |parts| > 1 {
      JoinLast(parts[1..], sep);
    }
  }

  /** A join begins with the start of its first part. */
  lemma JoinFirst(parts: seq<string>, sep: string)
    requires |parts| >= 1 && parts[0] != []
    ensures var j := Join(parts, sep); j != [] && j[0] == parts[0][0]
  {
  }

  /** `"".join(pieces)`. */
  function Concat(pieces: seq<string>): string
    decreases |pieces|
  {
    if pieces == [] then [] else pieces[0] + Concat(pieces[1..])
  }

  /** A line as `splitlines(keepends=True)` yields it: not empty, with '\n' at most as its
      last character. */
  predicate LineShaped(line: string) {
    line != [] && '\n' !in line[..|line| - 1]
  }

  /** The line ends with its line break. */
  predicate Terminated(line: string) {
    line != [] && line[|line| - 1] == '\n'
  }

  /** `s.splitlines(keepends=True)` with '\n' as the only line break. */
  function SplitKeepEnds(s: string): seq<string>
    decreases |s|
  {
    if s == [] then []
    else if '\n' in s then
      var i := IndexOf(s, '\n');
      [s[..i + 1]] + SplitKeepEnds(s[i + 1..])
    else [s]
  }

  /** The lines concatenate back to the text; each is shaped like a line, and every line but
      the last ends with its line break. */
  lemma {:induction false} SplitKeepEndsSpec(s: string)
    ensures var lines := SplitKeepEnds(s);
      Concat(lines) == s
      && (forall k :: 0 <= k < |lines| ==> LineShaped(lines[k]))
      && (forall k :: 0 <= k < |lines| - 1 ==> Terminated(lines[k]))
    decreases |s|
  {
    if s != [] && '\n' in s {
      var i := IndexOf(s, '\n');
      var p, t := s[..i], s[i + 1..];
      FirstBreak(s);
      FirstLine(p, t);
      SplitKeepEndsSpec(t);
      assert (p + ['\n'])[..|p|] == p;
      LinesCons(p + ['\n'], SplitKeepEnds(t));
    } else if s != [] {
      assert s[..|s| - 1] <= s;
      assert Concat([s]) == s + Concat([]);
    }
  }

  /** A text with a line break is the text before its first one, the break, and the rest. */
  lemma FirstBreak(s: string)
    requires '\n' in s
    ensures var i := IndexOf(s, '\n'); s == s[..i] + ['\n'] + s[i + 1..] && '\n' !in s[..i]
  {
  }

  /** `splitlines(keepends=True)` cuts off the text up to and including its first line
      break as the first line. */
  lemma FirstLine(p: string, t: string)
    requires '\n' !in p
    ensures SplitKeepEnds(p + ['\n'] + t) == [p + ['\n']] + SplitKeepEnds(t)
  {
    var s := p + ['\n'] + t;
    IndexOfAfter(p, t, '\n');
    assert s[..|p| + 1] == p + ['\n'];
    assert s[|p| + 1..] == t;
  }

  /** A terminated line in front of well-shaped lines keeps them well shaped. */
  lemma LinesCons(first: string, rest: seq<string>)
    requires LineShaped(first) && Terminated(first)
    requires forall k :: 0 <= k < |rest| ==> LineShaped(rest[k])
    requires forall k :: 0 <= k < |rest| - 1 ==> Terminated(rest[k])
    ensures var lines := [first] + rest;
      Concat(lines) == first + Concat(rest)
      && (forall k :: 0 <= k < |lines| ==> LineShaped(lines[k]))
      && (forall k :: 0 <= k < |lines| - 1 ==> Terminated(lines[k]))
  {
    var lines := [first] + rest;
    assert lines[1..] == rest;
    assert forall k :: 1 <= k < |lines| ==> lines[k] == rest[k - 1];
  }

  /** Concatenation distributes over appending lists of pieces. */
  lemma {:induction false} ConcatAppend(a: seq<string>, b: seq<string>)
    ensures Concat(a + b) == Concat(a) + Concat(b)
    decreases |a|
  {
    if a == [] {
      assert a + b == b;
    } else {
      assert (a + b)[1..] == a[1..] + b;
      ConcatAppend(a[1..], b);
    }
  }

  /** Lines shaped as `splitlines(keepends=True)` yields them, every one but the last
      terminated, are what it splits their concatenation into. */
  lemma {:induction false} SplitKeepEndsConcat(lines: seq<string>)
    requires forall k :: 0 <= k < |lines| ==> LineShaped(lines[k])
    requires forall k :: 0 <= k < |lines| - 1 ==> Terminated(lines[k])
    ensures SplitKeepEnds(Concat(lines)) == lines
    decreases |lines|
  {
    if lines != [] {
      var first, rest := lines[0], lines[1..];
      var s := Concat(lines);
      assert s == first + Concat(rest);
      var p := first[..|first| - 1];
      assert first == p + [first[|first| - 1]];
      if Terminated(first) {
        IndexOfAfter(p, Concat(rest), '\n');
        assert s == p + ['\n'] + Concat(rest);
        assert s[..|p| + 1] == first;
        assert s[|p| + 1..] == Concat(rest);
        assert forall k :: 0 <= k < |rest| ==> rest[k] == lines[k + 1];
        SplitKeepEndsConcat(rest);
      } else {
        assert |lines| == 1 && rest == [];
        assert s == first;
      }
    }
  }

  /** `c * n` for a one-character string `c`; empty when `n <= 0`. */
  function Repeat(c: char, n: int): (r: string)
    ensures |r| == (if n <= 0 then 0 else n)
    ensures forall i :: 0 <= i < |r| ==> r[i] == c
  {
    seq(if n <= 0 then 0 else n, _ => c)
  }

  /** `s.startswith(prefix)`. */
  predicate StartsWith(s: string, prefix: string) {
    |prefix| <= |s| && s[..|prefix|] == prefix
  }

  /** `s.endswith(suffix)`. */
  predicate EndsWith(s: string, suffix: string) {
    |suffix| <= |s| && s[|s| - |suffix|..] == suffix
  }
}
