/** The two line patterns of server.py, as predicates over a stripped line.

    The separator regex appears twice, `^\|[\s\-:|]+(\|[\s\-:|]+)+\|?$` (server.py:29) and
    the same with `\s*` before `$` (server.py:70). Both describe one language: whitespace
    is in the class `[\s\-:|]`, so a trailing `\s*` can always be absorbed into the last
    group. The pipe-line regex is `^\|.+\|` used with `re.match` (server.py:71), which has
    no end anchor. */
module Patterns {
  import opened Text

  /** The class `[\s\-:|]`. */
  predicate IsSeparatorChar(c: char) {
    IsSpace(c) || c == '-' || c == ':' || c == '|'
  }

  /** A separator line: it starts with '|', uses only `[\s\-:|]`, and has a '|' with at least
      one character before it after the leading '|' and at least one character after it. */
  predicate IsSeparator(s: string) {
    |s| > 0 && s[0] == '|'
    && (forall i :: 0 <= i < |s| ==> IsSeparatorChar(s[i]))
    && (exists k :: 2 <= k <= |s| - 2 && s[k] == '|')
  }

  /** A pipe line: it starts with '|' and holds another '|' at index 2 or later, with no
      '\n' in between (`.` does not match '\n'). */
  predicate IsPipeLine(s: string) {
    |s| > 0 && s[0] == '|'
    && (exists k :: 2 <= k < |s| && s[k] == '|' && '\n' !in s[1..k])
  }

  // ----- Reference matchers that follow the regexes' structure -----

  /** `.+\|` matched at the start of `t`, as the regex engine tries it: one `.` and then
      either the closing '|' or one more `.`. */
  predicate DotsThenPipe(t: string)
    decreases |t|
  {
    |t| >= 2 && t[0] != '\n' && (t[1] == '|' || DotsThenPipe(t[1..]))
  }

  /** `re.match(r"^\|.+\|", s)` succeeds. */
  predicate PipeRegexMatches(s: string) {
    |s| > 0 && s[0] == '|' && DotsThenPipe(s[1..])
  }

  lemma {:induction false} DotsThenPipeIff(t: string)
    ensures DotsThenPipe(t) <==> exists k :: 1 <= k < |t| && t[k] == '|' && '\n' !in t[..k]
    decreases |t|
  {
    if |t| >= 2 {
      DotsThenPipeIff(t[1..]);
      if DotsThenPipe(t) {
        if t[1] == '|' {
          assert t[..1] == [t[0]];
        } else {
          var k :| 1 <= k < |t| - 1 && t[1..][k] == '|' && '\n' !in t[1..][..k];
          assert t[..k + 1] == [t[0]] + t[1..][..k];
          assert t[k + 1] == '|';
        }
      }
      if exists k :: 1 <= k < |t| && t[k] == '|' && '\n' !in t[..k] {
        var k :| 1 <= k < |t| && t[k] == '|' && '\n' !in t[..k];
        assert t[0] == t[..k][0];
        if t[1] != '|' {
          assert k >= 2;
          assert t[..k] == [t[0]] + t[1..][..k - 1];
          assert t[1..][k - 1] == '|';
        }
      }
    }
  }

  /** The pipe-line predicate is the regex's language. */
  lemma PipeRegexAgrees(s: string)
    ensures PipeRegexMatches(s) <==> IsPipeLine(s)
  {
    if |s| > 0 && s[0] == '|' {
      var t := s[1..];
      DotsThenPipeIff(t);
      if PipeRegexMatches(s) {
        var k :| 1 <= k < |t| && t[k] == '|' && '\n' !in t[..k];
        assert s[1..k + 1] == t[..k];
        assert s[k + 1] == '|';
      }
      if IsPipeLine(s) {
        var k :| 2 <= k < |s| && s[k] == '|' && '\n' !in s[1..k];
        assert t[..k - 1] == s[1..k];
        assert t[k - 1] == '|';
      }
    }
  }

  /** States of the deterministic automaton for `[\s\-:|]+(\|[\s\-:|]+)+\|?$`, the separator
      regex after its leading '|': nothing read yet; inside the first group; just after a
      '|' that closed a non-empty first group; at least one `\|[\s\-:|]+` group complete;
      rejected. */
  datatype SeparatorState = Start | FirstGroup | AfterPipe | Complete | Rejected

  function SeparatorStep(q: SeparatorState, c: char): SeparatorState {
    if !IsSeparatorChar(c) then Rejected
    else match q
      case Start => FirstGroup
      case FirstGroup => if c == '|' then AfterPipe else FirstGroup
      case AfterPipe => Complete
      case Complete => Complete
      case Rejected => Rejected
  }

  function SeparatorRun(q: SeparatorState, t: string): SeparatorState
    decreases |t|
  {
    if t == [] then q else SeparatorRun(SeparatorStep(q, t[0]), t[1..])
  }

  /** `re.match(r"^\|[\s\-:|]+(\|[\s\-:|]+)+\|?$", s)` succeeds. */
  predicate SeparatorRegexMatches(s: string) {
    |s| > 0 && s[0] == '|' && SeparatorRun(Start, s[1..]) == Complete
  }

  predicate AllSeparatorChars(t: string) {
    forall i :: 0 <= i < |t| ==> IsSeparatorChar(t[i])
  }

  lemma {:induction false} RejectedStays(t: string)
    ensures SeparatorRun(Rejected, t) == Rejected
    decreases |t|
  {
    if t != [] {
      RejectedStays(t[1..]);
    }
  }

  lemma {:induction false} FromComplete(t: string)
    ensures SeparatorRun(Complete, t) == Complete <==> AllSeparatorChars(t)
    decreases |t|
  {
    if t != [] {
      if IsSeparatorChar(t[0]) {
        FromComplete(t[1..]);
        assert AllSeparatorChars(t) <==> AllSeparatorChars(t[1..]) by {
          assert forall i :: 0 <= i < |t[1..]| ==> t[1..][i] == t[i + 1];
        }
      } else {
        RejectedStays(t[1..]);
      }
    }
  }

  lemma FromAfterPipe(t: string)
    ensures SeparatorRun(AfterPipe, t) == Complete <==> |t| >= 1 && AllSeparatorChars(t)
  {
    if t != [] {
      if IsSeparatorChar(t[0]) {
        FromComplete(t[1..]);
        assert AllSeparatorChars(t) <==> AllSeparatorChars(t[1..]) by {
          assert forall i :: 0 <= i < |t[1..]| ==> t[1..][i] == t[i + 1];
        }
      } else {
        RejectedStays(t[1..]);
      }
    }
  }

  lemma {:induction false} FromFirstGroup(t: string)
    ensures SeparatorRun(FirstGroup, t) == Complete
      <==> AllSeparatorChars(t) && exists k :: 0 <= k <= |t| - 2 && t[k] == '|'
    decreases |t|
  {
    if t != [] {
      var rest := t[1..];
      assert AllSeparatorChars(t) <==> IsSeparatorChar(t[0]) && AllSeparatorChars(rest) by {
        assert forall i :: 0 <= i < |rest| ==> rest[i] == t[i + 1];
      }
      if !IsSeparatorChar(t[0]) {
        RejectedStays(rest);
      } else if t[0] == '|' {
        FromAfterPipe(rest);
        FromFirstGroup(rest);
        if SeparatorRun(FirstGroup, t) == Complete {
          assert 0 <= |t| - 2 && t[0] == '|';
        }
      } else {
        FromFirstGroup(rest);
        if exists k :: 0 <= k <= |t| - 2 && t[k] == '|' {
          var k :| 0 <= k <= |t| - 2 && t[k] == '|';
          assert rest[k - 1] == '|';
        }
        if exists k :: 0 <= k <= |rest| - 2 && rest[k] == '|' {
          var k :| 0 <= k <= |rest| - 2 && rest[k] == '|';
          assert t[k + 1] == '|';
        }
      }
    }
  }

  lemma FromStart(t: string)
    ensures SeparatorRun(Start, t) == Complete
      <==> AllSeparatorChars(t) && exists k :: 1 <= k <= |t| - 2 && t[k] == '|'
  {
    if t != [] {
      var rest := t[1..];
      assert AllSeparatorChars(t) <==> IsSeparatorChar(t[0]) && AllSeparatorChars(rest) by {
        assert forall i :: 0 <= i < |rest| ==> rest[i] == t[i + 1];
      }
      if !IsSeparatorChar(t[0]) {
        RejectedStays(rest);
      } else {
        FromFirstGroup(rest);
        if exists k :: 1 <= k <= |t| - 2 && t[k] == '|' {
          var k :| 1 <= k <= |t| - 2 && t[k] == '|';
          assert rest[k - 1] == '|';
        }
        if exists k :: 0 <= k <= |rest| - 2 && rest[k] == '|' {
          var k :| 0 <= k <= |rest| - 2 && rest[k] == '|';
          assert t[k + 1] == '|';
        }
      }
    }
  }

  /** The separator predicate is the regex's language. */
  lemma SeparatorRegexAgrees(s: string)
    ensures SeparatorRegexMatches(s) <==> IsSeparator(s)
  {
    if |s| > 0 && s[0] == '|' {
      var t := s[1..];
      FromStart(t);
      assert AllSeparatorChars(s) <==> AllSeparatorChars(t) by {
        assert forall i :: 0 <= i < |t| ==> t[i] == s[i + 1];
      }
      if exists k :: 1 <= k <= |t| - 2 && t[k] == '|' {
        var k :| 1 <= k <= |t| - 2 && t[k] == '|';
        assert s[k + 1] == '|';
      }
      if exists k :: 2 <= k <= |s| - 2 && s[k] == '|' {
        var k :| 2 <= k <= |s| - 2 && s[k] == '|';
        assert t[k - 1] == '|';
      }
    }
  }

  /** A one-column separator such as `|---|` or `| --- |` is not a separator: its only pipes
      are at the two ends. */
  lemma OneColumnNotSeparator(s: string)
    requires |s| >= 2 && s[0] == '|' && s[|s| - 1] == '|'
    requires forall i :: 0 < i < |s| - 1 ==> s[i] != '|'
    ensures !IsSeparator(s)
  {
  }
}
