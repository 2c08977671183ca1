/** Putting the introduction before a changelog: the text loses its indent, and what that makes of its
    first line. */
module Unindent {
  import opened Strings
  import opened Items
  import opened TextLines
  import opened Headings
  import opened ReleaseNotes
  import opened Changelog
  import opened Archive
  import opened Consume

  // ---------------------------------------------------------------- what un-indenting reveals

  /** What `lstrip` takes away. */
  function Indent(text: string): (gap: string)
    ensures Blank(gap) && text == gap + TrimLeft(text)
  {
    if text != "" && IsSpace(text[0]) then
      assert text == [text[0]] + text[1..];
      [text[0]] + Indent(text[1..])
    else ""
  }

  /** The first line that is not blank does not start at the margin. */
  predicate Indented(text: string) {
    Indent(text) != "" && Indent(text)[|Indent(text)| - 1] != '\n'
  }

  /** The section a heading makes of the lines after it up to the next one. */
  function SectionOf(first: string, rest: seq<string>): seq<Section> {
    if IsH2(first) then [Section(H2Title(first), Group(H2(), rest).preamble)] else []
  }

  /** The section that un-indenting the first line adds: none unless that line is an indented heading. */
  function Revealed(text: string): seq<Section> {
    var lines := Lines(TrimLeft(text));
    if Indented(text) && lines != [] then SectionOf(lines[0], lines[1..]) else []
  }

  lemma {:induction false} BlankLines(s: string)
    requires Blank(s)
    ensures NoHeading(H2(), Split(s))
    decreases |s|
  {
    var i := Newline(s);
    if i < |s| { BlankLines(s[i + 1..]); }
  }

  /** Blank text is whole lines and a last one. */
  lemma {:induction false} LastLine(s: string) returns (before: string, last: string)
    ensures OneLine(last) && (s == last || s == before + "\n" + last)
    ensures s != "" ==> (last == "" <==> s[|s| - 1] == '\n')
    ensures s == last ==> before == ""
  {
    if s == "" {
      before, last := "", "";
    } else {
      var n := |s| - 1;
      assert s == s[..n] + [s[n]];
      if s[n] == '\n' {
        before, last := s[..n], "";
      } else {
        before, last := LastLine(s[..n]);
        last := last + [s[n]];
      }
    }
  }

  /** Blanks before the first line change that line only. */
  lemma IndentedLines(w: string, bare: string) returns (first: string, rest: seq<string>)
    requires OneLine(w) && bare != "" && !IsSpace(bare[0])
    ensures Lines(bare) == [first] + rest && Lines(w + bare) == [w + first] + rest
  {
    var i := Newline(bare);
    if i == |bare| {
      first, rest := bare, [];
      OnlyPiece(bare);
      OnlyPiece(w + bare);
    } else {
      var tail := bare[i + 1..];
      first, rest := bare[..i], Lines(tail);
      assert bare == first + "\n" + tail;
      LinesFromFirst(bare, first, tail);
      Regroup(w, first + "\n", tail);
      LinesFromFirst(w + bare, w + first, tail);
    }
  }

  lemma LinesFromFirst(s: string, first: string, tail: string)
    requires OneLine(first) && s == first + "\n" + tail
    ensures Lines(s) == [first] + Lines(tail)
  {
    OnlyPiece(first);
    LinesOfConcat(s, first, tail);
  }

  lemma IndentedIsNoHeading(w: string, line: string)
    requires Blank(w) && w != ""
    ensures H2()(w + line).None?
  {
    var s := w + line;
    assert IsSpace(w[0]) && s[0] == w[0];
    if |s| >= 4 { assert s[..2][0] == s[0]; }
  }

  lemma UnindentedLines(w: string, first: string, rest: seq<string>)
    requires Blank(w) && w != ""
    ensures Group(H2(), [first] + rest).sections == SectionOf(first, rest) + Group(H2(), [w + first] + rest).sections
  {
    IndentedIsNoHeading(w, first);
    SectionsAfterPlain(H2(), [w + first], rest);
    if IsH2(first) {
      HeadingFirst(H2(), first, rest);
    } else {
      SectionsAfterPlain(H2(), [first], rest);
    }
  }

  lemma NoSectionsInBlank(s: string)
    requires Blank(s)
    ensures Sections(s) == []
  {
    BlankLines(s);
    NoHeadingInLines(s);
    GroupWithoutHeading(H2(), Lines(s));
  }

  lemma {:induction false} TrimLeftStarts(s: string)
    ensures TrimLeft(s) == "" || !IsSpace(TrimLeft(s)[0])
  {
    if s != "" { TrimLeftStarts(s[1..]); }
  }

  /** Whole blank lines in front add no section. */
  lemma BlankLinesAddNothing(text: string, before: string, rest: string)
    requires Blank(before) && text == before + "\n" + rest
    ensures Sections(text) == Sections(rest)
  {
    BlankLines(before);
    LinesOfConcat(text, before, rest);
    SectionsAfterPlain(H2(), Split(before), Lines(rest));
  }

  /** The blank whole lines and the indent of the first other line. */
  lemma IndentParts(text: string) returns (before: string, last: string)
    ensures Blank(last) && OneLine(last) && Blank(before)
    ensures last != "" <==> Indented(text)
    ensures var rest := last + TrimLeft(text);
      if Indent(text) == last then text == rest else text == before + "\n" + rest
  {
    var gap := Indent(text);
    before, last := LastLine(gap);
    if gap != last {
      GapParts(gap, before, last);
      Regroup(before + "\n", last, TrimLeft(text));
    }
  }

  /** The sections of a text without its indent. */
  lemma TrimmingReveals(text: string)
    ensures Sections(TrimLeft(text)) == Revealed(text) + Sections(text)
  {
    TrimLeftStarts(text);
    if TrimLeft(text) == "" {
      assert Indent(text) + "" == Indent(text);
      NoSectionsInBlank(text);
      NoSectionsInBlank("");
    } else {
      var before, last := IndentParts(text);
      MarginReveals(text, last, TrimLeft(text));
      if Indent(text) != last {
        BlankLinesAddNothing(text, before, last + TrimLeft(text));
      }
    }
  }

  lemma MarginReveals(text: string, w: string, bare: string)
    requires Blank(w) && OneLine(w) && bare == TrimLeft(text) && bare != "" && !IsSpace(bare[0])
    requires w != "" <==> Indented(text)
    ensures Sections(bare) == Revealed(text) + Sections(w + bare)
  {
    if w == "" {
      assert w + bare == bare;
    } else {
      var first, rest := IndentedLines(w, bare);
      UnindentedLines(w, first, rest);
      assert Lines(bare)[0] == first && Lines(bare)[1..] == rest;
    }
  }

  lemma GapParts(gap: string, before: string, last: string)
    requires Blank(gap) && gap == before + "\n" + last
    ensures Blank(before) && Blank(last)
  {
    forall i | 0 <= i < |before| ensures IsSpace(before[i]) { assert gap[i] == before[i]; }
    forall i | 0 <= i < |last| ensures IsSpace(last[i]) { assert gap[|before| + 1 + i] == last[i]; }
  }

  lemma IntroIsPlain(prose: seq<string>)
    requires GoodProse(prose)
    ensures NoHeading(H2(), Split(Intro(prose))) && MARK <= Intro(prose)
  {
    AllOneLineConcat([MARK, ""], prose);
    AllOneLineConcat([MARK, ""] + prose, [""]);
    SplitOfJoin([MARK, ""] + prose + [""]);
    assert MARK[..2] == "# ";
    PlainConcat([MARK, ""], prose);
    PlainConcat([MARK, ""] + prose, [""]);
    JoinOfThree([MARK, ""], prose, [""]);
    JoinOfTwo(MARK, "");
  }

  /** The repair adds what un-indenting reveals, and nothing to a text that has its title. */
  lemma RepairReveals(prose: seq<string>, text: string)
    requires GoodProse(prose)
    ensures Sections(Repaired(prose, text)) == (if MARK <= text then [] else Revealed(text)) + Sections(text)
    ensures MARK <= Repaired(prose, text)
  {
    if !(MARK <= text) {
      IntroIsPlain(prose);
      LinesOfConcat(Intro(prose) + "\n" + TrimLeft(text), Intro(prose), TrimLeft(text));
      SectionsAfterPlain(H2(), Split(Intro(prose)), Lines(TrimLeft(text)));
      TrimmingReveals(text);
    }
  }

  // ---------------------------------------------------------------- what stands before the insertion point

  /** What an insertion leaves of the text before it, with the blank line it adds. */
  function Front(original: string): string {
    var k := FindH2(original);
    TrimRight(if k.None? then original else original[..k.value]) + "\n\n"
  }

  lemma {:induction false} TrimLeftOfConcat(a: string, b: string)
    requires TrimLeft(a) != ""
    ensures TrimLeft(a + b) == TrimLeft(a) + b && Indent(a + b) == Indent(a)
  {
    if IsSpace(a[0]) {
      assert (a + b)[1..] == a[1..] + b;
      TrimLeftOfConcat(a[1..], b);
    }
  }

  lemma {:induction false} TrimmedHasText(s: string)
    ensures TrimRight(s) == "" || TrimLeft(TrimRight(s)) != ""
  {
    if s != "" && IsSpace(s[|s| - 1]) {
      TrimmedHasText(s[..|s| - 1]);
    } else if s != "" {
      EndsInText(s);
    }
  }

  lemma {:induction false} EndsInText(s: string)
    requires s != "" && !IsSpace(s[|s| - 1])
    ensures TrimLeft(s) != ""
  {
    if IsSpace(s[0]) { EndsInText(s[1..]); }
  }

  /** Lines before a heading are told apart from it. */
  lemma SameBeforeHeading(first: string, a: seq<string>, b: seq<string>)
    requires b != [] && H2()(b[0]).Some?
    ensures SectionOf(first, a + b) == SectionOf(first, a)
  {
    GroupFromHeading(H2(), a, b);
  }

  lemma GapOnly(s: string)
    requires s == "" || !IsSpace(s[0])
    ensures TrimLeft("\n\n" + s) == s && Revealed("\n\n" + s) == []
  {
    TrimLeftOfPadded("\n\n", s);
    var text := "\n\n" + s;
    assert |Indent(text)| == 2 && Indent(text) == text[..2];
  }

  lemma FrontLines(bare: string, s: string, whole: string, front: string)
    requires whole == bare + "\n\n" + s && front == bare + "\n\n"
    ensures Lines(front) == Split(bare) + [""] && Lines(whole) == Lines(front) + Lines(s)
  {
    GapLines(whole, bare, s);
    assert front == bare + "\n\n" + "";
    GapLines(front, bare, "");
    OnlyPiece("");
    assert Split(bare) + [""] + Lines("") == Split(bare) + [""];
  }

  lemma SameFirstSection(a: seq<string>, b: seq<string>)
    requires a != [] && b != [] && H2()(b[0]).Some?
    ensures SectionOf((a + b)[0], (a + b)[1..]) == SectionOf(a[0], a[1..])
  {
    assert (a + b)[1..] == a[1..] + b;
    SameBeforeHeading(a[0], a[1..], b);
  }

  lemma RevealedByFront(text: string, front: string, lines: seq<string>, after: seq<string>)
    requires Indent(text) == Indent(front) && lines != [] && after != [] && H2()(after[0]).Some?
    requires Lines(TrimLeft(front)) == lines && Lines(TrimLeft(text)) == lines + after
    ensures Revealed(text) == Revealed(front)
  {
    SameFirstSection(lines, after);
  }

  /** With text before the insertion point, what follows it does not matter. */
  lemma FrontDecides(t: string, s: string)
    requires TrimLeft(t) != "" && Lines(s) != [] && H2()(Lines(s)[0]).Some?
    ensures Revealed(t + "\n\n" + s) == Revealed(t + "\n\n")
  {
    var bare := TrimLeft(t);
    Regroup(t, "\n\n", s);
    TrimLeftOfConcat(t, "\n\n" + s);
    TrimLeftOfConcat(t, "\n\n");
    Regroup(bare, "\n\n", s);
    FrontLines(bare, s, bare + "\n\n" + s, bare + "\n\n");
    RevealedByFront(t + "\n\n" + s, t + "\n\n", Split(bare) + [""], Lines(s));
  }

  lemma SectionStarts(title: string, n: Notes, after: string)
    requires Publishable(n) && GoodTitle(title)
    ensures var s := RenderSection(title, n) + "\n\n" + after;
      s != "" && s[0] == '#' && Lines(s) != [] && H2()(Lines(s)[0]).Some?
  {
    TitleLine(title);
    SplitOfSection(title, n);
    JoinOfSplit(RenderSection(title, n));
    assert SectionLines(title, n)[0] == "## " + title;
    GapLines(RenderSection(title, n) + "\n\n" + after, RenderSection(title, n), after);
  }

  lemma InsertIsFrontAndMore(original: string, title: string, n: Notes, k: nat)
    requires FindH2(original) == Some(k)
    ensures Insert(original, title, n) == Front(original) + (RenderSection(title, n) + "\n\n" + original[k..])
  {
    InsertedText(TrimRight(original[..k]), RenderSection(title, n), original[k..]);
    Regroup(TrimRight(original[..k]), "\n\n", RenderSection(title, n) + "\n\n" + original[k..]);
  }

  lemma FrontReveals(t: string, s: string)
    requires t == "" || TrimLeft(t) != ""
    requires s != "" && s[0] == '#' && Lines(s) != [] && H2()(Lines(s)[0]).Some?
    ensures Revealed(t + "\n\n" + s) == Revealed(t + "\n\n")
  {
    if t == "" {
      GapOnly(s);
      GapOnly("");
      assert "" + "\n\n" + s == "\n\n" + s && "" + "\n\n" == "\n\n" + "";
    } else {
      FrontDecides(t, s);
    }
  }

  /** Un-indenting the text after an insertion reveals what is before the insertion point. */
  lemma InsertReveals(original: string, title: string, n: Notes)
    requires Publishable(n) && GoodTitle(title) && FindH2(original).Some?
    ensures Revealed(Insert(original, title, n)) == Revealed(Front(original))
  {
    var k := FindH2(original).value;
    SectionStarts(title, n, original[k..]);
    TrimmedHasText(original[..k]);
    InsertIsFrontAndMore(original, title, n, k);
    FrontReveals(TrimRight(original[..k]), RenderSection(title, n) + "\n\n" + original[k..]);
  }

  lemma {:induction false} TrimRightKeepsStart(s: string, m: nat)
    requires 0 < m <= |s| && !IsSpace(s[m - 1])
    ensures |TrimRight(s)| >= m && TrimRight(s)[..m] == s[..m]
  {
    if IsSpace(s[|s| - 1]) {
      TrimRightKeepsStart(s[..|s| - 1], m);
      assert s[..|s| - 1][..m] == s[..m];
    }
  }

  lemma {:induction false} TrimRightIsPrefix(s: string)
    ensures TrimRight(s) <= s
  {
    if s != "" { TrimRightIsPrefix(s[..|s| - 1]); }
  }

  lemma FirstLineIsBeforeHeading(original: string, k: nat)
    requires MARK <= original && FindH2(original) == Some(k)
    ensures MARK <= original[..k]
  {
    var i := Newline(original);
    assert original[..2] == "# " by { assert MARK[..2] == "# "; assert original[..2] == MARK[..2]; }
    assert !LooksLikeH2(original);
    forall j | 0 <= j < |MARK| ensures original[j] == MARK[j] != '\n' {}
    assert i >= |MARK|;
  }

  lemma MarkIsBeforeGap(text: string, t: string, rest: string)
    requires text == t + "\n\n" + rest && MARK <= text
    ensures MARK <= t
  {
    assert text[|t|] == '\n';
    assert forall j :: 0 <= j < |MARK| ==> MARK[j] == text[j] && MARK[j] != '\n';
    assert |MARK| <= |t|;
  }

  lemma MarkStaysInFront(s: string, t: string, rest: string)
    requires MARK <= s && t == TrimRight(s)
    ensures MARK <= t + "\n\n" + rest
  {
    TrimRightKeepsStart(s, |MARK|);
  }

  /** An insertion keeps the archive's title, and makes none. */
  lemma InsertKeepsMark(original: string, title: string, n: Notes)
    requires FindH2(original).Some?
    ensures MARK <= Insert(original, title, n) <==> MARK <= original
  {
    var k := FindH2(original).value;
    var rest := RenderSection(title, n) + "\n\n" + original[k..];
    InsertIsFrontAndMore(original, title, n, k);
    if MARK <= original {
      FirstLineIsBeforeHeading(original, k);
      MarkStaysInFront(original[..k], TrimRight(original[..k]), rest);
    } else {
      TrimRightIsPrefix(original[..k]);
      if MARK <= Insert(original, title, n) {
        MarkIsBeforeGap(Insert(original, title, n), TrimRight(original[..k]), rest);
      }
    }
  }
}
