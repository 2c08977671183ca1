/** The changelog archive: reading a section's notes, inserting a section, consuming a release. */
module Changelog {
  import opened Strings
  import opened Items
  import opened TextLines
  import opened Headings
  import opened ReleaseNotes

  // ---------------------------------------------------------------- reading a section

  /** Nothing but blank lines before the first language, only known languages, and no language under
      two spellings; one spelling may repeat, and the last block stands. */
  predicate WellTitled(g: Grouped) {
    && (forall i :: 0 <= i < |g.preamble| ==> Trim(g.preamble[i]) == "")
    && (forall i :: 0 <= i < |g.sections| ==> Alias(g.sections[i].title).Some?)
    && (forall i, j :: 0 <= i < j < |g.sections| && Alias(g.sections[i].title) == Alias(g.sections[j].title) ==>
          g.sections[i].title == g.sections[j].title)
  }

  /** `notes_from_section`; `None` stands for any of its errors. */
  function NotesFromSection(body: seq<string>): Option<Notes> {
    var g := Group(H3(), body);
    if WellTitled(g) then RequireNotes(LastBlock(g.sections, English), LastBlock(g.sections, Chinese)) else None
  }

  // ---------------------------------------------------------------- writing a section

  const H3_ENGLISH: string := "### English"
  const H3_CHINESE: string := "### 中文"

  /** The lines a rendered section holds under its heading. */
  function SectionBody(n: Notes): seq<string> {
    [""] + Titled(H3_ENGLISH, n.english, [""]) + Titled(H3_CHINESE, n.chinese, [])
  }

  /** `render_version_section(title, notes).rstrip()` */
  function RenderSection(title: string, n: Notes): string {
    TrimRight(Join(["## " + title, "", H3_ENGLISH, "", Trim(n.english), "", H3_CHINESE, "", Trim(n.chinese), ""]))
  }

  /** `^##\s+` at the start of the text: looser than a heading, since the blank may be the line's end. */
  predicate LooksLikeH2(s: string) {
    |s| >= 3 && s[..2] == "##" && IsSpace(s[2])
  }

  function Shifted(k: Option<nat>, distance: nat): Option<nat> {
    match k
    case None => None
    case Some(i) => Some(distance + i)
  }

  /** The first line start where the pattern matches; `None` when it never does. */
  function FindH2(s: string): (k: Option<nat>)
    ensures k.Some? ==> k.value <= |s|
    decreases |s|
  {
    if LooksLikeH2(s) then Some(0)
    else
      var i := Newline(s);
      if i == |s| then None else Shifted(FindH2(s[i + 1..]), i + 1)
  }

  /** `insert_version_section` */
  function Insert(original: string, title: string, n: Notes): string {
    var section := RenderSection(title, n) + "\n";
    match FindH2(original)
    case None => TrimRight(original) + "\n\n" + section
    case Some(k) => TrimRight(original[..k]) + "\n\n" + section + "\n" + original[k..]
  }

  function Sections(text: string): seq<Section> {
    Group(H2(), Lines(text)).sections
  }

  /** What is inserted before is a heading, or nothing is. A line holding only the marks, or the marks
      and one blank, is not a heading although the insertion point is found by it. */
  predicate InsertsAtHeading(original: string) {
    var k := FindH2(original);
    k.None? || IsH2(Split(original[k.value..])[0])
  }

  /** A section title: one line, trimmed, not empty. */
  predicate GoodTitle(title: string) {
    title != "" && Trimmed(title) && OneLine(title)
  }

  // ---------------------------------------------------------------- a section's own lines

  lemma LevelThreeHeadings()
    ensures H3()(H3_ENGLISH) == Some("English") && H3()(H3_CHINESE) == Some("中文")
    ensures H2()(H3_ENGLISH).None? && H2()(H3_CHINESE).None? && H2()("").None? && H3()("").None?
    ensures OneLine(H3_ENGLISH) && OneLine(H3_CHINESE)
  {
    assert H3_ENGLISH[3..] == " English" && H3_CHINESE[3..] == " 中文";
    assert Trim(" English") == "English" by {
      TrimOfPadded(" ", "English", "");
      assert " " + "English" + "" == " English";
    }
    assert Trim(" 中文") == "中文" by { TrimOfPadded(" ", "中文", ""); assert " " + "中文" + "" == " 中文"; }
  }

  lemma TitleLine(title: string)
    requires GoodTitle(title)
    ensures H2()("## " + title) == Some(title) && OneLine("## " + title)
  {
    var line := "## " + title;
    assert line[2..] == " " + title + "";
    TrimOfPadded(" ", title, "");
  }

  function SectionLines(title: string, n: Notes): seq<string> {
    ["## " + title] + SectionBody(n)
  }

  lemma JoinOfTwo(a: string, b: string)
    ensures Join([a, b]) == a + "\n" + b
  {
    assert [a, b] == [a] + [b];
    JoinOfConcat([a], [b]);
  }

  lemma JoinOfTitledChunks(heading: string, text: string)
    ensures Join([heading, "", text, ""]) == heading + "\n\n" + text + "\n"
  {
    assert [heading, "", text, ""] == [heading, ""] + [text, ""];
    JoinOfConcat([heading, ""], [text, ""]);
    JoinOfTwo(heading, "");
    JoinOfTwo(text, "");
  }

  lemma JoinOfThree(a: seq<string>, b: seq<string>, c: seq<string>)
    requires a != [] && b != [] && c != []
    ensures Join(a + b + c) == Join(a) + "\n" + Join(b) + "\n" + Join(c)
  {
    JoinOfConcat(a, b);
    JoinOfConcat(a + b, c);
  }

  /** The chunks a section is rendered from, one text each, join to its lines and a newline. */
  lemma ChunksAreLines(title: string, n: Notes)
    ensures Join(["## " + title, "", H3_ENGLISH, "", n.english, "", H3_CHINESE, "", n.chinese, ""]) ==
      Join(SectionLines(title, n)) + "\n"
  {
    var a := ["## " + title, ""];
    var b, c := [H3_ENGLISH, "", n.english, ""], [H3_CHINESE, "", n.chinese, ""];
    var b', c' := Titled(H3_ENGLISH, n.english, [""]), Titled(H3_CHINESE, n.chinese, []);
    assert ["## " + title, "", H3_ENGLISH, "", n.english, "", H3_CHINESE, "", n.chinese, ""] == a + b + c;
    assert SectionLines(title, n) == a + b' + c';
    JoinOfThree(a, b, c);
    JoinOfThree(a, b', c');
    JoinOfTitledChunks(H3_ENGLISH, n.english);
    JoinOfTitledChunks(H3_CHINESE, n.chinese);
    JoinOfTitled(H3_ENGLISH, n.english);
    JoinOfTitled(H3_CHINESE, n.chinese);
    assert Join(c) == Join(c') + "\n" && Join(b) == Join(b');
    Regroup(Join(a) + "\n" + Join(b) + "\n", Join(c'), "\n");
  }

  lemma SectionEndsInText(title: string, n: Notes)
    requires Publishable(n)
    ensures var text := Join(SectionLines(title, n)); text != "" && !IsSpace(text[|text| - 1])
  {
    PublishableIsTrimmed(n);
    var a := ["## " + title, ""];
    var b, c := Titled(H3_ENGLISH, n.english, [""]), Titled(H3_CHINESE, n.chinese, []);
    assert SectionLines(title, n) == a + b + c;
    JoinOfThree(a, b, c);
    JoinOfTitled(H3_CHINESE, n.chinese);
  }

  /** A rendered section splits into its lines. */
  lemma SplitOfSection(title: string, n: Notes)
    requires Publishable(n) && GoodTitle(title)
    ensures Split(RenderSection(title, n)) == SectionLines(title, n)
  {
    PublishableIsTrimmed(n);
    ChunksAreLines(title, n);
    SectionEndsInText(title, n);
    TrimRightOfPadded(Join(SectionLines(title, n)), "\n");
    SectionLinesAreLines(title, n);
    SplitOfJoin(SectionLines(title, n));
  }

  lemma SectionLinesAreLines(title: string, n: Notes)
    requires GoodTitle(title)
    ensures AllOneLine(SectionLines(title, n))
  {
    LevelThreeHeadings();
    TitleLine(title);
    var en, zh := Titled(H3_ENGLISH, n.english, [""]), Titled(H3_CHINESE, n.chinese, []);
    TitledIsLines(H3_ENGLISH, n.english, [""]);
    TitledIsLines(H3_CHINESE, n.chinese, []);
    AllOneLineConcat([""], en);
    AllOneLineConcat([""] + en, zh);
    AllOneLineConcat(["## " + title], SectionBody(n));
  }

  lemma TitledIsPlain(heading: string, text: string, after: seq<string>)
    requires H2()(heading).None? && NoHeading(H2(), Lines(text)) && (after == [] || after == [""])
    ensures NoHeading(H2(), Titled(heading, text, after))
  {
    LevelThreeHeadings();
    PlainPieces(H2(), text);
  }

  lemma SectionBodyIsPlain(n: Notes)
    requires Plain(H2(), n)
    ensures NoHeading(H2(), SectionBody(n))
  {
    LevelThreeHeadings();
    TitledIsPlain(H3_ENGLISH, n.english, [""]);
    TitledIsPlain(H3_CHINESE, n.chinese, []);
  }

  lemma EnglishGroups(n: Notes)
    requires Plain(H3(), n)
    ensures Group(H3(), [""] + Titled(H3_ENGLISH, n.english, [""])) ==
      Grouped([""], [Section("English", [""] + Split(n.english) + [""])])
  {
    LevelThreeHeadings();
    GroupWithoutHeading(H3(), [""]);
    GroupTitled(H3(), [""], H3_ENGLISH, n.english, [""]);
  }

  lemma SectionGroups(n: Notes, after: seq<string>)
    requires Plain(H3(), n) && NoHeading(H3(), after)
    ensures Group(H3(), SectionBody(n) + after) ==
      Grouped([""],
        [Section("English", [""] + Split(n.english) + [""]), Section("中文", [""] + Split(n.chinese) + after)])
  {
    LevelThreeHeadings();
    var en := Titled(H3_ENGLISH, n.english, [""]);
    TitledAfter(H3_CHINESE, n.chinese, after);
    Regroup([""] + en, Titled(H3_CHINESE, n.chinese, []), after);
    EnglishGroups(n);
    GroupTitled(H3(), [""] + en, H3_CHINESE, n.chinese, after);
  }

  /** A section's body reads back as its notes, with or without a blank line at its end. */
  lemma SectionReadsBack(n: Notes, after: seq<string>)
    requires Publishable(n) && Plain(H3(), n) && (after == [] || after == [""])
    ensures NotesFromSection(SectionBody(n) + after) == Some(n)
  {
    HeadingsAreAliases();
    SectionGroups(n, after);
    var en, zh := Section("English", [""] + Split(n.english) + [""]), Section("中文", [""] + Split(n.chinese) + after);
    TwoLanguagesAreWellTitled(en, zh);
    BlocksOfTwo(en, zh);
    PublishableIsTrimmed(n);
    BlockOfText(n.english, [""]);
    BlockOfText(n.chinese, after);
  }

  lemma TwoLanguagesAreWellTitled(a: Section, b: Section)
    requires Alias(a.title) == Some(English) && Alias(b.title) == Some(Chinese)
    ensures WellTitled(Grouped([""], [a, b]))
  {
    assert Trim("") == "";
  }

  lemma TitledAfter(heading: string, text: string, after: seq<string>)
    ensures Titled(heading, text, []) + after == Titled(heading, text, after)
  {
  }

  // ---------------------------------------------------------------- the text before the insertion point

  lemma LooseUnlessPlain(s: string, head: string)
    requires head <= s && !LooksLikeH2(s)
    ensures H2()(head).None?
  {
  }

  /** The text is cut at `k` into whole lines `before` and the rest, which looks like a heading. */
  ghost predicate CutAt(s: string, k: nat, before: seq<string>) {
    k <= |s| && LooksLikeH2(s[k..]) && Split(s[..k]) == before + [""] && Lines(s) == before + Lines(s[k..])
  }

  lemma CutMoves(s: string, head: string, rest: string, k: nat)
    requires s == head + "\n" + rest && k <= |rest|
    ensures s[..|head| + 1 + k] == head + "\n" + rest[..k] && s[|head| + 1 + k..] == rest[k..]
  {
  }

  lemma CutAfterLine(s: string, head: string, rest: string, k: nat, before: seq<string>)
    requires s == head + "\n" + rest && OneLine(head) && CutAt(rest, k, before)
    ensures CutAt(s, |head| + 1 + k, [head] + before)
  {
    CutMoves(s, head, rest, k);
    OnlyPiece(head);
    LinesOfConcat(s, head, rest);
    SplitOfConcat(s[..|head| + 1 + k], head, rest[..k]);
    Regroup([head], before, [""]);
    Regroup([head], before, Lines(rest[k..]));
  }

  lemma OneMorePlain(head: string, before: seq<string>)
    requires H2()(head).None? && NoHeading(H2(), before)
    ensures NoHeading(H2(), [head] + before)
  {
  }

  /** `before` are the lines before the insertion point, or all of them without one. */
  ghost predicate Precedes(s: string, k: Option<nat>, before: seq<string>) {
    match k
    case None => before == Split(s)
    case Some(cut) => CutAt(s, cut, before)
  }

  lemma AllAfterLine(s: string, head: string, rest: string, before: seq<string>)
    requires s == head + "\n" + rest && OneLine(head) && before == Split(rest)
    ensures [head] + before == Split(s)
  {
    FirstPiece(s, head, rest);
  }

  lemma PrecedesAfterLine(s: string, head: string, rest: string, k: Option<nat>, before: seq<string>)
    requires s == head + "\n" + rest && OneLine(head) && Precedes(rest, k, before)
    ensures Precedes(s, Shifted(k, |head| + 1), [head] + before)
  {
    match k
    case None => AllAfterLine(s, head, rest, before);
    case Some(i) => CutAfterLine(s, head, rest, i, before);
  }

  /** The lines before the insertion point hold no heading. */
  lemma {:induction false} BeforeInsertion(s: string) returns (before: seq<string>)
    ensures NoHeading(H2(), before) && Precedes(s, FindH2(s), before)
    decreases |s|
  {
    var i := Newline(s);
    if LooksLikeH2(s) {
      before := [];
      assert s[..0] == "" && s[0..] == s;
    } else if i == |s| {
      before := [s];
      LooseUnlessPlain(s, s);
      OnlyPiece(s);
    } else {
      var head, rest := s[..i], s[i + 1..];
      assert s == head + "\n" + rest;
      LooseUnlessPlain(s, head);
      var tail := BeforeInsertion(rest);
      PrecedesAfterLine(s, head, rest, FindH2(rest), tail);
      OneMorePlain(head, tail);
      before := [head] + tail;
    }
  }

  /** Dropping a text's last character shortens its last piece. */
  lemma {:induction false} SplitOfSnoc(s: string, t: string, c: char) returns (init: seq<string>, last: string)
    requires s == t + [c] && c != '\n'
    ensures Split(t) == init + [last] && Split(s) == init + [last + [c]]
    decreases |t|
  {
    var i := Newline(t);
    if i == |t| {
      OnlyPiece(t);
      OnlyPiece(s);
      init, last := [], t;
    } else {
      var head, tail := t[..i], t[i + 1..];
      assert t == head + "\n" + tail;
      assert s == head + "\n" + (tail + [c]);
      init, last := SplitOfSnoc(tail + [c], tail, c);
      FirstPiece(t, head, tail);
      FirstPiece(s, head, tail + [c]);
      Regroup([head], init, [last]);
      Regroup([head], init, [last + [c]]);
      init := [head] + init;
    }
  }

  lemma {:induction false} TrimRightKeepsPlain(s: string)
    requires NoHeading(H2(), Split(s))
    ensures NoHeading(H2(), Split(TrimRight(s)))
  {
    if s == "" || !IsSpace(s[|s| - 1]) {
    } else {
      var t, c := s[..|s| - 1], s[|s| - 1];
      assert s == t + [c];
      DroppingOneKeepsPlain(s, t, c);
      TrimRightKeepsPlain(t);
    }
  }

  lemma DroppingOneKeepsPlain(s: string, t: string, c: char)
    requires s == t + [c] && NoHeading(H2(), Split(s))
    ensures NoHeading(H2(), Split(t))
  {
    if c == '\n' {
      assert s == t + "\n" + "";
      SplitOfConcat(s, t, "");
      PrefixIsPlain(Split(t), [""]);
    } else {
      var init, last := SplitOfSnoc(s, t, c);
      PrefixIsPlain(init, [last + [c]]);
      assert (init + [last + [c]])[|init|] == last + [c];
      ShorterIsPlain(last, c);
    }
  }

  lemma PrefixIsPlain(a: seq<string>, b: seq<string>)
    requires NoHeading(H2(), a + b)
    ensures NoHeading(H2(), a)
  {
    forall i | 0 <= i < |a| ensures H2()(a[i]).None? { assert (a + b)[i] == a[i]; }
  }

  lemma ShorterIsPlain(line: string, c: char)
    requires H2()(line + [c]).None?
    ensures H2()(line).None?
  {
  }
}
