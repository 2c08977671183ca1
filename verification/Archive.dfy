/** What inserting a section and consuming a release do to the parsed archive. */
module Archive {
  import opened Strings
  import opened Items
  import opened TextLines
  import opened Headings
  import opened ReleaseNotes
  import opened Changelog

  lemma GapLines(s: string, a: string, b: string)
    requires s == a + "\n\n" + b
    ensures Lines(s) == Split(a) + [""] + Lines(b)
  {
    var rest := "\n" + b;
    assert rest == "" + "\n" + b && s == a + "\n" + rest;
    LinesOfConcat(rest, "", b);
    OnlyPiece("");
    LinesOfConcat(s, a, rest);
    Regroup(Split(a), [""], Lines(b));
  }

  lemma EndedLines(s: string)
    ensures Lines(s + "\n") == Split(s)
  {
    assert s + "\n" == s + "\n" + "";
    LinesOfConcat(s + "\n", s, "");
    OnlyPiece("");
    assert Split(s) + [] == Split(s);
  }

  lemma LinesOfAppend(original: string, title: string, n: Notes)
    requires Publishable(n) && GoodTitle(title) && FindH2(original).None?
    ensures Lines(Insert(original, title, n)) == Split(TrimRight(original)) + [""] + SectionLines(title, n)
  {
    var section := RenderSection(title, n);
    GapLines(Insert(original, title, n), TrimRight(original), section + "\n");
    EndedLines(section);
    SplitOfSection(title, n);
  }

  lemma InsertedText(t: string, s: string, r: string)
    ensures t + "\n\n" + (s + "\n") + "\n" + r == t + "\n\n" + (s + "\n\n" + r)
  {
  }

  lemma LinesOfInsert(original: string, title: string, n: Notes, k: nat)
    requires Publishable(n) && GoodTitle(title) && FindH2(original) == Some(k)
    ensures Lines(Insert(original, title, n)) ==
      Split(TrimRight(original[..k])) + [""] + (SectionLines(title, n) + [""] + Lines(original[k..]))
  {
    var t, section, r := TrimRight(original[..k]), RenderSection(title, n), original[k..];
    InsertedText(t, section, r);
    GapLines(t + "\n\n" + (section + "\n\n" + r), t, section + "\n\n" + r);
    GapLines(section + "\n\n" + r, section, r);
    SplitOfSection(title, n);
  }

  lemma PlainConcat(a: seq<string>, b: seq<string>)
    requires NoHeading(H2(), a) && NoHeading(H2(), b)
    ensures NoHeading(H2(), a + b)
  {
  }

  /** A section's heading and lines, whatever plain lines come before. */
  lemma GroupSection(before: seq<string>, title: string, n: Notes, after: seq<string>)
    requires NoHeading(H2(), before) && NoHeading(H2(), after) && Plain(H2(), n) && GoodTitle(title)
    ensures Group(H2(), before + (SectionLines(title, n) + after)).sections == [Section(title, SectionBody(n) + after)]
  {
    TitleLine(title);
    SectionBodyIsPlain(n);
    PlainConcat(SectionBody(n), after);
    GroupWithoutHeading(H2(), before);
    GroupOneSection(H2(), before, "## " + title, SectionBody(n) + after);
    Regroup(["## " + title], SectionBody(n), after);
    Regroup(before, ["## " + title], SectionBody(n) + after);
  }

  /** Without anything like a heading in the archive, the section becomes its only one. */
  lemma AppendedSections(original: string, title: string, n: Notes)
    requires Publishable(n) && Plain(H2(), n) && GoodTitle(title) && FindH2(original).None?
    ensures Sections(original) == [] && Sections(Insert(original, title, n)) == [Section(title, SectionBody(n))]
  {
    var before := BeforeInsertion(original);
    TrimRightKeepsPlain(original);
    PlainConcat(Split(TrimRight(original)), [""]);
    LinesOfAppend(original, title, n);
    GroupSection(Split(TrimRight(original)) + [""], title, n, []);
    assert SectionLines(title, n) + [] == SectionLines(title, n) && SectionBody(n) + [] == SectionBody(n);
    LinesArePlain(original);
    GroupWithoutHeading(H2(), Lines(original));
  }

  lemma LinesArePlain(s: string)
    requires NoHeading(H2(), Split(s))
    ensures NoHeading(H2(), Lines(s))
  {
    NoHeadingInLines(s);
  }

  lemma PreambleIsPlain(original: string, k: nat, before: seq<string>)
    requires NoHeading(H2(), before) && CutAt(original, k, before)
    ensures NoHeading(H2(), Split(TrimRight(original[..k])) + [""])
  {
    PlainConcat(before, [""]);
    TrimRightKeepsPlain(original[..k]);
    PlainConcat(Split(TrimRight(original[..k])), [""]);
  }

  lemma LooseHasLines(s: string)
    requires LooksLikeH2(s)
    ensures Lines(s) != [] && Lines(s)[0] == Split(s)[0]
  {
    var i := Newline(s);
    assert s[0] == '#';
    if i == |s| {
    } else {
      assert Split(s)[0] == s[..i];
    }
  }

  lemma InsertsAtFirstLine(original: string, k: nat)
    requires FindH2(original) == Some(k) && LooksLikeH2(original[k..])
    ensures Lines(original[k..]) != []
    ensures InsertsAtHeading(original) <==> H2()(Lines(original[k..])[0]).Some?
  {
    LooseHasLines(original[k..]);
  }

  /** The lines between the insertion point and the first heading: none when there is a heading. */
  function Swallowed(original: string): seq<string> {
    var k := FindH2(original);
    if k.None? then [] else Group(H2(), Lines(original[k.value..])).preamble
  }

  lemma SectionsAroundInsertion(before: seq<string>, title: string, n: Notes, rest: seq<string>)
    requires NoHeading(H2(), before) && Plain(H2(), n) && GoodTitle(title)
    ensures Group(H2(), before + (SectionLines(title, n) + [""] + rest)).sections ==
      [Section(title, SectionBody(n) + [""] + Group(H2(), rest).preamble)] + Group(H2(), rest).sections
  {
    LevelThreeHeadings();
    GroupSection(before, title, n, [""]);
    OneSectionAndMore(H2(), before + (SectionLines(title, n) + [""]), rest, Section(title, SectionBody(n) + [""]));
    Regroup(before, SectionLines(title, n) + [""], rest);
  }

  /** Inserting before anything like a heading puts the section in front of the old ones; it takes the
      lines up to the first heading along. */
  lemma InsertSwallows(original: string, title: string, n: Notes)
    requires Publishable(n) && Plain(H2(), n) && GoodTitle(title)
    ensures Sections(Insert(original, title, n)) ==
      [Section(title, SectionBody(n) + Gap(original) + Swallowed(original))] + Sections(original)
  {
    match FindH2(original)
    case None =>
      AppendedSections(original, title, n);
      assert SectionBody(n) + [] + [] == SectionBody(n);
    case Some(k) =>
      var before := BeforeInsertion(original);
      var rest := Lines(original[k..]);
      PreambleIsPlain(original, k, before);
      LinesOfInsert(original, title, n, k);
      SectionsAroundInsertion(Split(TrimRight(original[..k])) + [""], title, n, rest);
      SectionsAfterPlain(H2(), before, rest);
  }

  /** The blank line that parts an inserted section from the next. */
  function Gap(original: string): seq<string> {
    if FindH2(original).Some? then [""] else []
  }

  lemma SwallowsNothingAtHeading(original: string)
    ensures Swallowed(original) == [] <==> InsertsAtHeading(original)
  {
    if FindH2(original).Some? {
      var k := FindH2(original).value;
      var before := BeforeInsertion(original);
      InsertsAtFirstLine(original, k);
      var lines := Lines(original[k..]);
      var tail := PreambleFirst(H2(), lines);
      assert lines == Swallowed(original) + tail;
    }
  }

  /** Inserting a section makes the parsed archive that section followed by the old ones, unchanged,
      exactly when the text has a heading, or nothing, where the section is put. */
  lemma InsertPutsFirst(original: string, title: string, n: Notes)
    requires Publishable(n) && Plain(H2(), n) && GoodTitle(title)
    ensures InsertsAtHeading(original) <==>
      Sections(Insert(original, title, n)) == [Section(title, SectionBody(n) + Gap(original))] + Sections(original)
  {
    InsertSwallows(original, title, n);
    SwallowsNothingAtHeading(original);
    var body := SectionBody(n) + Gap(original);
    assert body + [] == body;
    assert ([Section(title, body)] + Sections(original))[0].body == body;
    assert |body + Swallowed(original)| == |body| + |Swallowed(original)|;
    assert Sections(Insert(original, title, n))[0].body == body + Swallowed(original);
  }

  lemma MarksLookLikeH2(s: string, rest: string)
    requires s == "##" + "\n" + rest
    ensures FindH2(s) == Some(0) && s[0..] == s && Lines(s) == ["##"] + Lines(rest)
  {
    assert s[..2] == "##" && s[2] == '\n';
    OnlyPiece("##");
    LinesOfConcat(s, "##", rest);
  }

  lemma BareMarks(s: string)
    requires s == "##\nold"
    ensures FindH2(s) == Some(0) && Swallowed(s) == ["##", "old"] && Sections(s) == []
  {
    assert s == "##" + "\n" + "old";
    MarksLookLikeH2(s, "old");
    OnlyPiece("old");
    assert Lines("old") == ["old"];
    GroupWithoutHeading(H2(), ["##", "old"]);
  }

  /** A line of two marks and nothing else is an insertion point but no heading: the archive's old
      preamble becomes part of the new section, bare marks included. */
  lemma BareMarksAreSwallowed(original: string, title: string, n: Notes)
    requires Publishable(n) && Plain(H2(), n) && GoodTitle(title) && original == "##\nold"
    ensures Sections(Insert(original, title, n)) == [Section(title, SectionBody(n) + ([""] + ["##", "old"]))]
  {
    BareMarks(original);
    InsertSwallows(original, title, n);
    Regroup(SectionBody(n), [""], ["##", "old"]);
  }
}
