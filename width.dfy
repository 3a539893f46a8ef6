/** Display width under the East Asian Width convention (server.py `display_width`, `pad`). */
module Width {
  import opened Text

  /** The East Asian Width property of a character (Unicode Standard Annex #11). */
  datatype EastAsianWidth = Fullwidth | Halfwidth | Wide | Narrow | Ambiguous | Neutral

  /** `unicodedata.east_asian_width`. Its table is not part of this model, so every operation
      takes the classification as a parameter. */
  type Classifier = char -> EastAsianWidth

  /** In the Unicode table every printable ASCII character (U+0020..U+007E) is Narrow. */
  predicate AsciiNarrow(eaw: Classifier) {
    forall c: char :: ' ' <= c <= '~' ==> eaw(c) == Narrow
  }

  /** Occupies two terminal columns: the classes F and W. */
  predicate IsWide(eaw: Classifier, c: char) {
    eaw(c) == Fullwidth || eaw(c) == Wide
  }

  function CharWidth(eaw: Classifier, c: char): nat {
    if IsWide(eaw, c) then 2 else 1
  }

  /** `display_width(s)`: the sum of the characters' widths. */
  function DisplayWidth(eaw: Classifier, s: string): (w: nat)
    ensures |s| <= w <= 2 * |s|
    decreases |s|
  {
    if s == [] then 0 else DisplayWidth(eaw, s[..|s| - 1]) + CharWidth(eaw, s[|s| - 1])
  }

  /** `display_width` as the source computes it, accumulating over the characters. */
  method MeasureWidth(eaw: Classifier, s: string) returns (width: nat)
    ensures width == DisplayWidth(eaw, s)
  {
    width := 0;
    for i := 0 to |s|
      invariant width == DisplayWidth(eaw, s[..i])
    {
      assert s[..i + 1][..i] == s[..i];
      width := width + if eaw(s[i]) == Fullwidth || eaw(s[i]) == Wide then 2 else 1;
    }
    assert s[..|s|] == s;
  }

  /** Display width is additive over concatenation. */
  lemma {:induction false} DisplayWidthAppend(eaw: Classifier, a: string, b: string)
    ensures DisplayWidth(eaw, a + b) == DisplayWidth(eaw, a) + DisplayWidth(eaw, b)
    decreases |b|
  {
    if b == [] {
      assert a + b == a;
    } else {
      assert (a + b)[..|a + b| - 1] == a + b[..|b| - 1];
      DisplayWidthAppend(eaw, a, b[..|b| - 1]);
    }
  }

  /** The width equals the length exactly when no character is wide. */
  lemma {:induction false} DisplayWidthIsLength(eaw: Classifier, s: string)
    ensures DisplayWidth(eaw, s) == |s| <==> forall i :: 0 <= i < |s| ==> !IsWide(eaw, s[i])
    decreases |s|
  {
    if s != [] {
      var init := s[..|s| - 1];
      DisplayWidthIsLength(eaw, init);
      assert forall i :: 0 <= i < |init| ==> init[i] == s[i];
    }
  }

  /** The width is twice the length exactly when every character is wide. */
  lemma {:induction false} DisplayWidthAllWide(eaw: Classifier, s: string)
    ensures DisplayWidth(eaw, s) == 2 * |s| <==> forall i :: 0 <= i < |s| ==> IsWide(eaw, s[i])
    decreases |s|
  {
    if s != [] {
      var init := s[..|s| - 1];
      DisplayWidthAllWide(eaw, init);
      assert forall i :: 0 <= i < |init| ==> init[i] == s[i];
    }
  }

  /** Text made of printable ASCII is as wide as it is long. */
  lemma AsciiWidth(eaw: Classifier, s: string)
    requires AsciiNarrow(eaw)
    requires forall i :: 0 <= i < |s| ==> ' ' <= s[i] <= '~'
    ensures DisplayWidth(eaw, s) == |s|
  {
    DisplayWidthIsLength(eaw, s);
  }

  /** The widths the source's tests expect: "" is 0, "hello" is 5, "日本語" is 6 and
      "abc日本" is 7 (the three ideographs are Wide in the Unicode table). */
  lemma DisplayWidthExamples(eaw: Classifier)
    requires AsciiNarrow(eaw)
    requires eaw('日') == Wide && eaw('本') == Wide && eaw('語') == Wide
    ensures DisplayWidth(eaw, "") == 0
    ensures DisplayWidth(eaw, "hello") == 5
    ensures DisplayWidth(eaw, "日本語") == 6
    ensures DisplayWidth(eaw, "abc日本") == 7
  {
    AsciiWidth(eaw, "hello");
    DisplayWidthAllWide(eaw, "日本語");
    AsciiWidth(eaw, "abc");
    DisplayWidthAllWide(eaw, "日本");
    assert "abc日本" == "abc" + "日本";
    DisplayWidthAppend(eaw, "abc", "日本");
  }

  /** `pad(s, width)`: `s` followed by `width - display_width(s)` spaces (none when that is
      not positive, as with Python's `" " * n`). */
  function Pad(eaw: Classifier, s: string, width: int): string {
    s + Repeat(' ', width - DisplayWidth(eaw, s))
  }

  /** Padding to at least the text's own width reaches exactly the requested width. */
  lemma PadWidth(eaw: Classifier, s: string, width: int)
    requires AsciiNarrow(eaw) && width >= DisplayWidth(eaw, s)
    ensures DisplayWidth(eaw, Pad(eaw, s, width)) == width
  {
    var spaces := Repeat(' ', width - DisplayWidth(eaw, s));
    AsciiWidth(eaw, spaces);
    DisplayWidthAppend(eaw, s, spaces);
  }

  /** Padding only appends spaces, and none when the text is already at least that wide. */
  lemma PadShape(eaw: Classifier, s: string, width: int)
    ensures var r := Pad(eaw, s, width);
      |r| >= |s| && r[..|s|] == s && forall i :: |s| <= i < |r| ==> r[i] == ' '
    ensures width <= DisplayWidth(eaw, s) ==> Pad(eaw, s, width) == s
  {
    var r := Pad(eaw, s, width);
    assert r[..|s|] == s;
    assert r[|s|..] == Repeat(' ', width - DisplayWidth(eaw, s));
  }

  /** `strip()` undoes padding on stripped text. */
  lemma PadStrip(eaw: Classifier, s: string, width: int)
    requires IsStripped(s)
    ensures Strip(Pad(eaw, s, width)) == s
  {
    var spaces := Repeat(' ', width - DisplayWidth(eaw, s));
    assert AllIn(spaces, AnyWhitespace);
    assert [] + s + spaces == Pad(eaw, s, width);
    StripCharsFramed([], s, spaces, AnyWhitespace);
  }

  /** The source's padding tests: "hello" to 10, "日本語" to 10 and "hello" to 5. */
  lemma PadExamples(eaw: Classifier)
    requires AsciiNarrow(eaw)
    requires eaw('日') == Wide && eaw('本') == Wide && eaw('語') == Wide
    ensures Pad(eaw, "hello", 10) == "hello     "
    ensures Pad(eaw, "日本語", 10) == "日本語    "
    ensures Pad(eaw, "hello", 5) == "hello"
  {
    DisplayWidthExamples(eaw);
  }
}
