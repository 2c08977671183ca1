/** Bilingual release notes: parsing, rendering, and archiving them in the changelog. */
module ReleaseNotes {
  import opened Strings
  import opened Items
  import opened TextLines
  import opened Headings

  datatype Lang = English | Chinese

  datatype Notes = Notes(english: string, chinese: string)

  const ENGLISH_HEADING: string := "## English"
  const CHINESE_HEADING: string := "## 中文"

  function Alias(title: string): Option<Lang> {
    var key := ToLower(Trim(title));
    if key in {"english", "en", "en-us"} then Some(English)
    else if key in {"中文", "chinese", "zh", "zh-cn", "zh-hans"} then Some(Chinese)
    else None
  }

  // ---------------------------------------------------------------- what notes need

  predicate IsBullet(line: string) {
    var text := Trim(line);
    |text| >= 2 && text[0] in {'-', '*'} && IsSpace(text[1]) && TrimLeft(text[1..]) != ""
  }

  function CountBullets(lines: seq<string>): nat {
    if lines == [] then 0
    else CountBullets(lines[..|lines| - 1]) + if IsBullet(lines[|lines| - 1]) then 1 else 0
  }

  /** Both languages present, each with bullets, and equally many. */
  function RequireNotes(english: Option<string>, chinese: Option<string>): Option<Notes> {
    if english.None? || chinese.None? then None
    else
      var n := Notes(Trim(english.value), Trim(chinese.value));
      var count := CountBullets(Lines(n.english));
      if count > 0 && count == CountBullets(Lines(n.chinese)) then Some(n) else None
  }

  /** Notes that the checks accept and return as they are. */
  predicate Publishable(n: Notes) {
    RequireNotes(Some(n.english), Some(n.chinese)) == Some(n)
  }

  function Block(body: seq<string>): string {
    Trim(Join(body))
  }

  /** The block of the last section in a language: a later one replaces an earlier one. */
  function LastBlock(sections: seq<Section>, lang: Lang): Option<string> {
    if sections == [] then None
    else
      var last := sections[|sections| - 1];
      if Alias(last.title) == Some(lang) then Some(Block(last.body)) else LastBlock(sections[..|sections| - 1], lang)
  }

  /** `parse_rendered_notes` */
  function ParseRendered(text: string): Option<Notes> {
    var sections := Group(H2(), Lines(text)).sections;
    RequireNotes(LastBlock(sections, English), LastBlock(sections, Chinese))
  }

  /** `render_notes` */
  function Render(n: Notes): string {
    Trim(ENGLISH_HEADING + "\n\n" + Trim(n.english) + "\n\n" + CHINESE_HEADING + "\n\n" + Trim(n.chinese)) + "\n"
  }

  // ---------------------------------------------------------------- round trip of rendered notes

  lemma PublishableIsTrimmed(n: Notes)
    requires Publishable(n)
    ensures Trim(n.english) == n.english && Trim(n.chinese) == n.chinese
    ensures Trimmed(n.english) && Trimmed(n.chinese) && n.english != "" && n.chinese != ""
  {
    TrimTrims(n.english);
    TrimTrims(n.chinese);
  }

  ghost function BulletLines(lines: seq<string>): set<nat> {
    set i: nat | i < |lines| && IsBullet(lines[i])
  }

  lemma {:induction false} BulletsAreCounted(lines: seq<string>)
    ensures CountBullets(lines) == |BulletLines(lines)|
  {
    if lines != [] {
      var n := |lines| - 1;
      BulletsAreCounted(lines[..n]);
      assert BulletLines(lines) == BulletLines(lines[..n]) + if IsBullet(lines[n]) then {n as nat} else {};
    }
  }

  /** Notes are publishable exactly when both texts are trimmed and have equally many bullet lines, at least one. */
  lemma PublishableExactly(n: Notes)
    ensures Publishable(n) <==>
      && Trim(n.english) == n.english && Trim(n.chinese) == n.chinese
      && 0 < |BulletLines(Lines(n.english))| == |BulletLines(Lines(n.chinese))|
  {
    BulletsAreCounted(Lines(n.english));
    BulletsAreCounted(Lines(n.chinese));
  }

  lemma HeadingsAreAliases()
    ensures H2()(ENGLISH_HEADING) == Some("English") && Alias("English") == Some(English)
    ensures H2()(CHINESE_HEADING) == Some("中文") && Alias("中文") == Some(Chinese)
  {
    assert ENGLISH_HEADING[2..] == " English" && CHINESE_HEADING[2..] == " 中文";
    assert Trim(" English") == "English" by {
      TrimOfPadded(" ", "English", "");
      assert " " + "English" + "" == " English";
    }
    assert Trim(" 中文") == "中文" by { TrimOfPadded(" ", "中文", ""); assert " " + "中文" + "" == " 中文"; }
    TrimTrims("English");
    TrimTrims("中文");
    assert ToLower("English") == "english" && ToLower("中文") == "中文";
  }

  /** Text in neither language's lines opens a section of the given level. */
  predicate Plain(p: Pattern, n: Notes) {
    NoHeading(p, Lines(n.english)) && NoHeading(p, Lines(n.chinese))
  }

  lemma PlainPieces(p: Pattern, text: string)
    requires NoHeading(p, Lines(text)) && p("").None?
    ensures NoHeading(p, Split(text))
  {
    var pieces := Split(text);
    forall i | 0 <= i < |pieces| ensures p(pieces[i]).None? {
      if i < |Lines(text)| { assert Lines(text)[i] == pieces[i]; }
    }
  }

  /** A heading, a blank line, the text, and what follows it. */
  function Titled(heading: string, text: string, after: seq<string>): seq<string> {
    [heading] + ([""] + Split(text) + after)
  }

  lemma JoinOfBlock(text: string)
    ensures Join([""] + Split(text)) == "\n" + text
    ensures Join([""] + Split(text) + [""]) == "\n" + text + "\n"
  {
    JoinOfSplit(text);
    JoinOfConcat([""], Split(text));
    JoinOfConcat([""] + Split(text), [""]);
  }

  lemma JoinOfTitled(heading: string, text: string)
    ensures Join(Titled(heading, text, [])) == heading + "\n\n" + text
    ensures Join(Titled(heading, text, [""])) == heading + "\n\n" + text + "\n"
  {
    var block := [""] + Split(text);
    assert block + [] == block;
    JoinOfBlock(text);
    JoinOfConcat([heading], block);
    JoinOfConcat([heading], block + [""]);
  }

  /** A block padded with blank lines is the text itself. */
  lemma BlockOfText(text: string, after: seq<string>)
    requires Trimmed(text) && text != "" && (after == [] || after == [""])
    ensures Block([""] + Split(text) + after) == text
  {
    JoinOfBlock(text);
    if after == [] {
      assert [""] + Split(text) + after == [""] + Split(text);
      assert "\n" + text == "\n" + text + "";
      TrimOfPadded("\n", text, "");
    } else {
      TrimOfPadded("\n", text, "\n");
    }
  }

  /** A titled block is one section of its pattern. */
  lemma GroupTitled(p: Pattern, lines: seq<string>, heading: string, text: string, after: seq<string>)
    requires p(heading).Some? && p("").None? && NoHeading(p, Lines(text)) && NoHeading(p, after)
    ensures Group(p, lines + Titled(heading, text, after)) ==
      Group(p, lines).(sections := Group(p, lines).sections + [Section(p(heading).value, [""] + Split(text) + after)])
  {
    PlainPieces(p, text);
    var body := [""] + Split(text) + after;
    Regroup(lines, [heading], body);
    GroupOneSection(p, lines, heading, body);
  }

  function RenderedLines(n: Notes): seq<string> {
    Titled(ENGLISH_HEADING, n.english, [""]) + Titled(CHINESE_HEADING, n.chinese, [])
  }

  lemma RenderIsJoin(n: Notes)
    requires Publishable(n)
    ensures Render(n) == Join(RenderedLines(n)) + "\n"
  {
    PublishableIsTrimmed(n);
    JoinOfTitled(ENGLISH_HEADING, n.english);
    JoinOfTitled(CHINESE_HEADING, n.chinese);
    JoinOfConcat(Titled(ENGLISH_HEADING, n.english, [""]), Titled(CHINESE_HEADING, n.chinese, []));
    var text := ENGLISH_HEADING + "\n\n" + n.english + "\n\n" + CHINESE_HEADING + "\n\n" + n.chinese;
    assert Join(RenderedLines(n)) == text;
    assert text[0] == '#' && text[|text| - 1] == n.chinese[|n.chinese| - 1];
    TrimTrims(text);
  }

  lemma RenderedSections(n: Notes)
    requires Plain(H2(), n)
    ensures Group(H2(), RenderedLines(n)).sections ==
      [Section("English", [""] + Split(n.english) + [""]), Section("中文", [""] + Split(n.chinese) + [])]
  {
    HeadingsAreAliases();
    EnglishSection(n.english);
    GroupTitled(H2(), Titled(ENGLISH_HEADING, n.english, [""]), CHINESE_HEADING, n.chinese, []);
  }

  lemma EnglishSection(text: string)
    requires NoHeading(H2(), Lines(text))
    ensures Group(H2(), Titled(ENGLISH_HEADING, text, [""])).sections == [Section("English", [""] + Split(text) + [""])]
  {
    HeadingsAreAliases();
    var en := Titled(ENGLISH_HEADING, text, [""]);
    assert [] + en == en;
    GroupTitled(H2(), [], ENGLISH_HEADING, text, [""]);
  }

  lemma AllOneLineConcat(a: seq<string>, b: seq<string>)
    requires AllOneLine(a) && AllOneLine(b)
    ensures AllOneLine(a + b)
  {
  }

  lemma TitledIsLines(heading: string, text: string, after: seq<string>)
    requires OneLine(heading) && AllOneLine(after)
    ensures AllOneLine(Titled(heading, text, after))
  {
    PiecesAreOneLine(text);
    AllOneLineConcat([""], Split(text));
    AllOneLineConcat([""] + Split(text), after);
    AllOneLineConcat([heading], [""] + Split(text) + after);
  }

  lemma RenderedLinesAreLines(n: Notes)
    ensures AllOneLine(RenderedLines(n))
  {
    TitledIsLines(ENGLISH_HEADING, n.english, [""]);
    TitledIsLines(CHINESE_HEADING, n.chinese, []);
    AllOneLineConcat(Titled(ENGLISH_HEADING, n.english, [""]), Titled(CHINESE_HEADING, n.chinese, []));
  }

  lemma BlocksOfTwo(a: Section, b: Section)
    requires Alias(a.title) == Some(English) && Alias(b.title) == Some(Chinese)
    ensures LastBlock([a, b], English) == Some(Block(a.body)) && LastBlock([a, b], Chinese) == Some(Block(b.body))
  {
    assert [a, b][..1] == [a] && [a, b][1] == b;
  }

  /** Parsing rendered notes gives them back, when no line of theirs is a level-two heading. */
  lemma RenderedNotesParseBack(n: Notes)
    requires Publishable(n) && Plain(H2(), n)
    ensures ParseRendered(Render(n)) == Some(n)
  {
    RenderIsJoin(n);
    RenderedLinesAreLines(n);
    LinesOfJoin(RenderedLines(n));
    RenderedSections(n);
    HeadingsAreAliases();
    var en, zh := Section("English", [""] + Split(n.english) + [""]), Section("中文", [""] + Split(n.chinese) + []);
    BlocksOfTwo(en, zh);
    PublishableIsTrimmed(n);
    BlockOfText(n.english, [""]);
    BlockOfText(n.chinese, []);
  }

  // ---------------------------------------------------------------- and only then

  /** Characters and line ends of the lines that are no heading. */
  function Weight(p: Pattern, lines: seq<string>): nat {
    if lines == [] then 0
    else
      var last := lines[|lines| - 1];
      Weight(p, lines[..|lines| - 1]) + if p(last).Some? then 0 else |last| + 1
  }

  function Size(lines: seq<string>): nat {
    if lines == [] then 0 else Size(lines[..|lines| - 1]) + |lines[|lines| - 1]| + 1
  }

  lemma {:induction false} WeightOfConcat(p: Pattern, a: seq<string>, b: seq<string>)
    ensures Weight(p, a + b) == Weight(p, a) + Weight(p, b)
  {
    if b == [] {
      assert a + b == a;
    } else {
      var n := |b| - 1;
      WeightOfConcat(p, a, b[..n]);
      assert (a + b)[..|a| + n] == a + b[..n] && (a + b)[|a| + n] == b[n];
    }
  }

  lemma {:induction false} SizeOfConcat(a: seq<string>, b: seq<string>)
    ensures Size(a + b) == Size(a) + Size(b)
  {
    if b == [] {
      assert a + b == a;
    } else {
      var n := |b| - 1;
      SizeOfConcat(a, b[..n]);
      assert (a + b)[..|a| + n] == a + b[..n] && (a + b)[|a| + n] == b[n];
    }
  }

  lemma {:induction false} SizeOfJoin(lines: seq<string>)
    ensures |Join(lines)| <= Size(lines)
    ensures lines != [] ==> |Join(lines)| + 1 == Size(lines)
  {
    if |lines| == 1 {
      assert lines[..0] == [];
    } else if |lines| > 1 {
      assert lines == [lines[0]] + lines[1..];
      SizeOfConcat([lines[0]], lines[1..]);
      SizeOfJoin(lines[1..]);
      assert [lines[0]][..0] == [];
    }
  }

  lemma {:induction false} TrimIsNoLonger(s: string)
    ensures |TrimLeft(s)| <= |s| && |TrimRight(s)| <= |s|
  {
    if s != "" {
      TrimIsNoLonger(s[1..]);
      TrimIsNoLonger(s[..|s| - 1]);
    }
  }

  /** No body holds more than the lines that are no heading. */
  lemma {:induction false} BodiesWeighLess(p: Pattern, lines: seq<string>, k: nat)
    requires k < |Group(p, lines).sections|
    ensures Size(Group(p, lines).sections[k].body) <= Weight(p, lines)
    decreases |lines|
  {
    var n := |lines| - 1;
    var before := Group(p, lines[..n]);
    if k < |before.sections| {
      BodiesWeighLess(p, lines[..n], k);
      if p(lines[n]).None? && k == |before.sections| - 1 {
        SizeOfConcat(before.sections[k].body, [lines[n]]);
        assert Size([lines[n]]) == |lines[n]| + 1 by { assert [lines[n]][..0] == []; }
      }
    }
  }

  lemma {:induction false} HeadingsWeighNothing(lines: seq<string>)
    ensures Weight(H2(), lines) <= Size(lines)
    ensures !NoHeading(H2(), lines) ==> Weight(H2(), lines) + 5 <= Size(lines)
  {
    if lines == [] {
    } else {
      var before, last := lines[..|lines| - 1], lines[|lines| - 1];
      HeadingsWeighNothing(before);
      assert before + [last] == lines;
      if !NoHeading(H2(), lines) && H2()(last).None? {
        var i :| 0 <= i < |lines| && H2()(lines[i]).Some?;
        assert before[i] == lines[i];
      }
    }
  }

  lemma {:induction false} LastBlockIsASection(sections: seq<Section>, lang: Lang) returns (k: nat)
    requires LastBlock(sections, lang).Some?
    ensures k < |sections| && LastBlock(sections, lang) == Some(Block(sections[k].body))
  {
    var n := |sections| - 1;
    if Alias(sections[n].title) == Some(lang) {
      k := n;
    } else {
      k := LastBlockIsASection(sections[..n], lang);
    }
  }

  lemma {:induction false} LastBlockOfConcat(a: seq<Section>, b: seq<Section>, lang: Lang)
    ensures LastBlock(a + b, lang) == if LastBlock(b, lang).Some? then LastBlock(b, lang) else LastBlock(a, lang)
  {
    if b == [] {
      assert a + b == a;
    } else {
      var n := |b| - 1;
      assert (a + b)[..|a| + n] == a + b[..n] && (a + b)[|a| + n] == b[n];
      LastBlockOfConcat(a, b[..n], lang);
    }
  }

  /** Text with a heading in it comes back shorter. */
  lemma CutBlockIsShorter(lines: seq<string>, text: string, lang: Lang)
    requires !NoHeading(H2(), Split(text)) && Weight(H2(), lines) <= Weight(H2(), Split(text)) + 2
    requires LastBlock(Group(H2(), lines).sections, lang).Some?
    ensures |LastBlock(Group(H2(), lines).sections, lang).value| < |text|
  {
    var sections := Group(H2(), lines).sections;
    var k := LastBlockIsASection(sections, lang);
    BodiesWeighLess(H2(), lines, k);
    HeadingsWeighNothing(Split(text));
    JoinOfSplit(text);
    SizeOfJoin(Split(text));
    SizeOfJoin(sections[k].body);
    TrimIsNoLonger(Join(sections[k].body));
    TrimIsNoLonger(TrimLeft(Join(sections[k].body)));
  }

  lemma WeightOfTitled(heading: string, text: string, after: seq<string>)
    requires H2()(heading).Some? && (after == [] || after == [""])
    ensures Weight(H2(), Titled(heading, text, after)) <= Weight(H2(), Split(text)) + 2
  {
    WeightOfConcat(H2(), [heading], [""] + Split(text) + after);
    WeightOfConcat(H2(), [""] + Split(text), after);
    WeightOfConcat(H2(), [""], Split(text));
    assert [heading][..0] == [] && [""][..0] == [];
  }

  /** A titled block has a section of its heading's language, whatever its text. */
  lemma {:induction false} TitledHasItsLanguage(heading: string, rest: seq<string>, lang: Lang)
    requires H2()(heading).Some? && Alias(H2()(heading).value) == Some(lang)
    ensures LastBlock(Group(H2(), [heading] + rest).sections, lang).Some?
    ensures Group(H2(), [heading] + rest).sections != []
    ensures Group(H2(), [heading] + rest).sections[0].title == H2()(heading).value
  {
    if rest == [] {
      assert [heading] + rest == [heading] && [heading][..0] == [];
      assert Group(H2(), [heading]) == AddLine(H2(), Group(H2(), []), heading);
    } else {
      var n := |rest| - 1;
      TitledHasItsLanguage(heading, rest[..n], lang);
      assert [heading] + rest == ([heading] + rest[..n]) + [rest[n]];
      GroupOneMore(H2(), [heading] + rest[..n], rest[n]);
      HasLanguageAfterLine(Group(H2(), [heading] + rest[..n]), rest[n], lang);
    }
  }

  lemma HasLanguageAfterLine(g: Grouped, line: string, lang: Lang)
    requires g.sections != [] && LastBlock(g.sections, lang).Some?
    ensures LastBlock(AddLine(H2(), g, line).sections, lang).Some?
  {
    var k, g' := |g.sections| - 1, AddLine(H2(), g, line);
    if H2()(line).Some? {
      assert g'.sections[..k + 1] == g.sections;
    } else {
      assert g'.sections[..k] == g.sections[..k];
    }
  }

  lemma HeadingInChineseIsFatal(n: Notes)
    requires Publishable(n) && !NoHeading(H2(), Split(n.chinese))
    ensures ParseRendered(Render(n)) != Some(n)
  {
    RenderIsJoin(n);
    RenderedLinesAreLines(n);
    LinesOfJoin(RenderedLines(n));
    HeadingsAreAliases();
    var en, zh := Titled(ENGLISH_HEADING, n.english, [""]), Titled(CHINESE_HEADING, n.chinese, []);
    TitledHasItsLanguage(CHINESE_HEADING, [""] + Split(n.chinese) + [], Chinese);
    GroupFromHeading(H2(), en, zh);
    LastBlockOfConcat(Group(H2(), en).sections, Group(H2(), zh).sections, Chinese);
    WeightOfTitled(CHINESE_HEADING, n.chinese, []);
    CutBlockIsShorter(zh, n.chinese, Chinese);
    TrimOfBlockIsNoLonger(LastBlock(Group(H2(), zh).sections, Chinese).value);
  }

  lemma TrimOfBlockIsNoLonger(s: string)
    ensures |Trim(s)| <= |s|
  {
    TrimIsNoLonger(s);
    TrimIsNoLonger(TrimLeft(s));
  }

  lemma HeadingInEnglishIsFatal(n: Notes)
    requires Publishable(n) && NoHeading(H2(), Split(n.chinese)) && !NoHeading(H2(), Split(n.english))
    ensures ParseRendered(Render(n)) != Some(n)
  {
    RenderIsJoin(n);
    RenderedLinesAreLines(n);
    LinesOfJoin(RenderedLines(n));
    HeadingsAreAliases();
    var en := Titled(ENGLISH_HEADING, n.english, [""]);
    TitledHasItsLanguage(ENGLISH_HEADING, [""] + Split(n.english) + [""], English);
    NoHeadingInLines(n.chinese);
    GroupTitled(H2(), en, CHINESE_HEADING, n.chinese, []);
    var last := Section("中文", [""] + Split(n.chinese) + []);
    LastBlockOfConcat(Group(H2(), en).sections, [last], English);
    assert LastBlock([last], English) == None by { assert [last][..0] == []; }
    WeightOfTitled(ENGLISH_HEADING, n.english, [""]);
    CutBlockIsShorter(en, n.english, English);
    TrimOfBlockIsNoLonger(LastBlock(Group(H2(), en).sections, English).value);
  }

  lemma NoHeadingInLines(text: string)
    ensures NoHeading(H2(), Lines(text)) <==> NoHeading(H2(), Split(text))
  {
    if NoHeading(H2(), Lines(text)) {
      PlainPieces(H2(), text);
    } else {
      var i :| 0 <= i < |Lines(text)| && H2()(Lines(text)[i]).Some?;
      assert Split(text)[i] == Lines(text)[i];
    }
  }

  /** Rendered notes parse back exactly when no line of either text is a level-two heading. */
  lemma RoundTripExactly(n: Notes)
    requires Publishable(n)
    ensures ParseRendered(Render(n)) == Some(n) <==> Plain(H2(), n)
  {
    NoHeadingInLines(n.english);
    NoHeadingInLines(n.chinese);
    if Plain(H2(), n) {
      RenderedNotesParseBack(n);
    } else if NoHeading(H2(), Split(n.chinese)) {
      HeadingInEnglishIsFatal(n);
    } else {
      HeadingInChineseIsFatal(n);
    }
  }
}
