/** Consuming the same notes a second time: exactly when that changes nothing. Two things can go wrong
    at the first time. The section may take along lines that stand between the insertion point and the
    first heading, and putting an introduction before the text un-indents its first line, which may
    then be a heading. */
module ConsumeTwice {
  import opened Strings
  import opened Items
  import opened TextLines
  import opened Headings
  import opened ReleaseNotes
  import opened Changelog
  import opened Archive
  import opened ArchiveRules
  import opened Consume
  import opened Unindent

  // ---------------------------------------------------------------- what a section takes along

  /** Lines taken along leave a section's notes as they are when there are none, or when they say the
      Chinese notes over again, and the English ones too if they have any, under those headings. */
  predicate RepeatsNotes(swallowed: seq<string>, n: Notes) {
    swallowed == [] ||
    var sections := Group(H3(), swallowed).sections;
    && (forall i :: 0 <= i < |sections| ==> sections[i].title in {"English", "中文"})
    && LastBlock(sections, Chinese) == Some(n.chinese)
    && (LastBlock(sections, English).None? || LastBlock(sections, English) == Some(n.english))
  }

  lemma SectionWithMoreGroups(n: Notes, more: seq<string>)
    requires Plain(H3(), n)
    ensures var g := Group(H3(), more);
      Group(H3(), SectionBody(n) + more) ==
        Grouped([""], [Section("English", [""] + Split(n.english) + [""])] +
                      [Section("中文", [""] + Split(n.chinese) + g.preamble)] + g.sections)
  {
    var tail := PreambleFirst(H3(), more);
    var plain := Group(H3(), more).preamble;
    SectionGroups(n, plain);
    Regroup(SectionBody(n), plain, tail);
    var en, zh := Section("English", [""] + Split(n.english) + [""]), Section("中文", [""] + Split(n.chinese) + plain);
    assert [en] + [zh] == [en, zh];
    if tail == [] {
      assert SectionBody(n) + plain + [] == SectionBody(n) + plain;
      assert [en] + [zh] + [] == [en, zh];
    } else {
      GroupFromHeading(H3(), SectionBody(n) + plain, tail);
    }
  }

  lemma KnownTitlesAreWell(sections: seq<Section>)
    requires forall i :: 0 <= i < |sections| ==> sections[i].title in {"English", "中文"}
    ensures WellTitled(Grouped([""], sections))
  {
    HeadingsAreAliases();
    assert Trim("") == "";
  }

  lemma Retitled(en: Section, zh: Section, more: seq<Section>)
    requires en.title == "English" && zh.title == "中文"
    ensures WellTitled(Grouped([""], [en] + [zh] + more)) <==>
      forall i :: 0 <= i < |more| ==> more[i].title in {"English", "中文"}
  {
    var sections := [en] + [zh] + more;
    assert sections[0] == en && sections[1] == zh && sections[2..] == more;
    if forall i :: 0 <= i < |more| ==> more[i].title in {"English", "中文"} {
      forall i | 0 <= i < |sections| ensures sections[i].title in {"English", "中文"} {
        if i >= 2 { assert sections[i] == more[i - 2]; }
      }
      KnownTitlesAreWell(sections);
    } else {
      var i :| 0 <= i < |more| && more[i].title !in {"English", "中文"};
      assert sections[i + 2] == more[i];
      OneSpellingEach(sections, i + 2);
    }
  }

  lemma OneSpellingEach(sections: seq<Section>, k: nat)
    requires 2 <= k < |sections| && sections[0].title == "English" && sections[1].title == "中文"
    requires sections[k].title !in {"English", "中文"}
    ensures !WellTitled(Grouped([""], sections))
  {
    HeadingsAreAliases();
    match Alias(sections[k].title)
    case None =>
    case Some(English) => assert Alias(sections[0].title) == Alias(sections[k].title);
    case Some(Chinese) => assert Alias(sections[1].title) == Alias(sections[k].title);
  }

  /** Text after a block's own makes the block longer. */
  lemma LongerBlock(text: string, more: seq<string>)
    requires Trimmed(text) && text != "" && more != [] && more[0] != "" && !IsSpace(more[0][0])
    ensures |Block([""] + Split(text) + ([""] + more))| > |text|
  {
    var whole := [""] + Split(text) + ([""] + more);
    JoinOfBlock(text);
    JoinOfConcat([""] + Split(text), [""] + more);
    JoinOfConcat([""], more);
    var tail := "\n" + Join(more);
    var joined := text + "\n" + tail;
    assert Join(whole) == "\n" + joined by { Regroup("\n", text + "\n", tail); }
    TrimLeftOfPadded("\n", joined);
    assert Join(more)[0] == more[0][0];
    assert joined[|text| + 2] == more[0][0];
    TrimRightKeepsStart(joined, |text| + 3);
  }

  /** The lines taken along, if any, begin with marks that are no heading of either level. */
  predicate StartsBare(swallowed: seq<string>) {
    swallowed != [] ==> swallowed[0] != "" && swallowed[0][0] == '#' && H3()(swallowed[0]).None?
  }

  lemma PreambleStartsBare(swallowed: seq<string>)
    requires StartsBare(swallowed) && swallowed != []
    ensures var more := Group(H3(), swallowed).preamble; more != [] && more[0] == swallowed[0]
  {
    var tail := PreambleFirst(H3(), swallowed);
  }

  lemma BlocksAreTrimmed(sections: seq<Section>, lang: Lang)
    requires LastBlock(sections, lang).Some?
    ensures Trim(LastBlock(sections, lang).value) == LastBlock(sections, lang).value
  {
    var k := LastBlockIsASection(sections, lang);
    TrimTrims(Join(sections[k].body));
  }

  lemma RequiresTheseNotes(english: Option<string>, chinese: Option<string>, n: Notes)
    requires Publishable(n)
    requires (english.Some? ==> Trim(english.value) == english.value) &&
      (chinese.Some? ==> Trim(chinese.value) == chinese.value)
    ensures RequireNotes(english, chinese) == Some(n) <==> english == Some(n.english) && chinese == Some(n.chinese)
  {
  }

  /** The blocks of a section that took lines along. */
  lemma BlocksWithMore(n: Notes, preamble: seq<string>, more: seq<Section>, sections: seq<Section>)
    requires Publishable(n)
    requires sections == [Section("English", [""] + Split(n.english) + [""])] +
                         [Section("中文", [""] + Split(n.chinese) + preamble)] + more
    ensures LastBlock(sections, English) ==
      if LastBlock(more, English).Some? then LastBlock(more, English) else Some(n.english)
    ensures LastBlock(sections, Chinese) ==
      if LastBlock(more, Chinese).Some? then LastBlock(more, Chinese)
      else Some(Block([""] + Split(n.chinese) + preamble))
  {
    HeadingsAreAliases();
    PublishableIsTrimmed(n);
    BlockOfText(n.english, [""]);
    var en, zh := Section("English", [""] + Split(n.english) + [""]), Section("中文", [""] + Split(n.chinese) + preamble);
    assert [en] + [zh] == [en, zh];
    BlocksOfTwo(en, zh);
    LastBlockOfConcat([en, zh], more, English);
    LastBlockOfConcat([en, zh], more, Chinese);
  }

  /** A section that took lines along still reads as its notes exactly when those lines repeat them. */
  lemma KeepsNotesExactly(n: Notes, swallowed: seq<string>)
    requires Publishable(n) && Plain(H3(), n) && StartsBare(swallowed)
    ensures NotesFromSection(SectionBody(n) + [""] + swallowed) == Some(n) <==> RepeatsNotes(swallowed, n)
  {
    if swallowed == [] {
      assert SectionBody(n) + [""] + [] == SectionBody(n) + [""];
      SectionReadsBack(n, [""]);
    } else {
      var g := Group(H3(), swallowed);
      LevelThreeHeadings();
      SectionsAfterPlain(H3(), [""], swallowed);
      Regroup(SectionBody(n), [""], swallowed);
      SectionWithMoreGroups(n, [""] + swallowed);
      var en, zh := Section("English", [""] + Split(n.english) + [""]),
                    Section("中文", [""] + Split(n.chinese) + ([""] + g.preamble));
      var sections := [en] + [zh] + g.sections;
      Retitled(en, zh, g.sections);
      BlocksWithMore(n, [""] + g.preamble, g.sections, sections);
      BlocksAreTrimmed(sections, English);
      BlocksAreTrimmed(sections, Chinese);
      RequiresTheseNotes(LastBlock(sections, English), LastBlock(sections, Chinese), n);
      PublishableIsTrimmed(n);
      PreambleStartsBare(swallowed);
      LongerBlock(n.chinese, g.preamble);
    }
  }

  lemma SwallowedStartsBare(original: string)
    ensures StartsBare(Swallowed(original))
  {
    if FindH2(original).Some? && Swallowed(original) != [] {
      var k := FindH2(original).value;
      var before := BeforeInsertion(original);
      LooseHasLines(original[k..]);
      var lines := Lines(original[k..]);
      var tail := PreambleFirst(H2(), lines);
      assert Swallowed(original)[0] == lines[0];
      BareLine(original[k..]);
    }
  }

  lemma BareLine(s: string)
    requires LooksLikeH2(s)
    ensures var line := Split(s)[0]; line != "" && line[0] == '#' && H3()(line).None?
  {
    var i := Newline(s);
    assert s[0] == '#' && s[1] == '#' by { assert s[..2][0] == s[0] && s[..2][1] == s[1]; }
    assert i >= 2;
    assert Split(s)[0] == s[..i];
    if i >= 3 { assert s[..i][..3][2] == s[2]; }
  }

  // ---------------------------------------------------------------- the second time

  /** A section that un-indenting revealed may stand in the archive beside the others. */
  predicate Fits(r: Reader, revealed: seq<Section>, sections: seq<Section>, version: string) {
    forall i :: 0 <= i < |revealed| ==>
      && ValidSection(r, revealed[i])
      && r.version(revealed[i].title) != Some(version)
      && !Has(r, sections, r.version(revealed[i].title).value)
  }

  /** Consuming once settles the archive: an inserted section takes along nothing but its own notes
      again; and an archive without its title has no indented heading up front, or one that makes a
      section of its own. */
  predicate Settles(r: Reader, original: string, version: string, n: Notes) {
    var sections := Sections(original);
    var present := Has(r, sections, version);
    && (present || RepeatsNotes(Swallowed(original), n))
    && (MARK <= original || Fits(r, Revealed(if present then original else Front(original)), sections, version))
  }

  lemma RevealedIsOneAtMost(text: string)
    ensures |Revealed(text)| <= 1
  {
  }

  predicate Archived(r: Reader, sections: seq<Section>, version: string, n: Notes) {
    ValidArchive(r, sections) && Agrees(r, sections, version, n)
  }

  /** One more section in front of an archive that holds the version. */
  lemma OneMoreSection(r: Reader, s: Section, sections: seq<Section>, version: string, n: Notes)
    requires Has(r, sections, version)
    ensures Archived(r, [s] + sections, version, n) <==>
      Archived(r, sections, version, n) && Fits(r, [s], sections, version)
  {
    var all := [s] + sections;
    assert all[0] == s && forall i :: 0 <= i < |sections| ==> all[i + 1] == sections[i];
    if Archived(r, all, version, n) {
      ArchivedTail(r, s, sections, version, n);
    } else if Archived(r, sections, version, n) && Fits(r, [s], sections, version) {
      assert [s][0] == s;
      ArchivedCons(r, s, sections, version, n);
    }
  }

  lemma ArchivedTail(r: Reader, s: Section, sections: seq<Section>, version: string, n: Notes)
    requires Has(r, sections, version) && Archived(r, [s] + sections, version, n)
    ensures Archived(r, sections, version, n) && Fits(r, [s], sections, version)
  {
    var all := [s] + sections;
    forall i | 0 <= i < |sections|
      ensures ValidSection(r, sections[i]) && r.version(sections[i].title) != r.version(s.title)
    {
      assert all[i + 1] == sections[i] && all[0] == s;
    }
    forall i, j | 0 <= i < j < |sections| ensures r.version(sections[i].title) != r.version(sections[j].title) {
      assert all[i + 1] == sections[i] && all[j + 1] == sections[j];
    }
    forall i | 0 <= i < |sections| && r.version(sections[i].title) == Some(version)
      ensures r.notes(sections[i].body) == Some(n)
    {
      assert all[i + 1] == sections[i];
    }
    assert all[0] == s;
  }

  lemma ArchivedCons(r: Reader, s: Section, sections: seq<Section>, version: string, n: Notes)
    requires Archived(r, sections, version, n)
    requires ValidSection(r, s) && r.version(s.title) != Some(version) && !Has(r, sections, r.version(s.title).value)
    ensures Archived(r, [s] + sections, version, n)
  {
    var all := [s] + sections;
    forall i | 0 <= i < |all|
      ensures ValidSection(r, all[i]) && (i > 0 ==> r.version(all[i].title) != r.version(s.title))
    {
      if i > 0 { assert all[i] == sections[i - 1]; }
    }
    forall i, j | 0 <= i < j < |all| ensures r.version(all[i].title) != r.version(all[j].title) {
      assert all[j] == sections[j - 1];
      if i > 0 { assert all[i] == sections[i - 1]; }
    }
    forall i | 0 <= i < |all| && r.version(all[i].title) == Some(version) ensures r.notes(all[i].body) == Some(n) {
      assert all[i] == sections[i - 1];
    }
  }

  /** What is consumed again is the text itself, or it is refused. */
  lemma SecondTime(r: Reader, prose: seq<string>, text: string, version: string, title: string, n: Notes)
    requires Has(r, Sections(text), version) && MARK <= text
    ensures Consumed(r, prose, text, version, title, n) ==
      if Archived(r, Sections(text), version, n) then Some(text) else None
  {
  }

  lemma RevealedFits(r: Reader, revealed: seq<Section>, sections: seq<Section>, version: string, n: Notes)
    requires |revealed| <= 1 && Has(r, sections, version)
    ensures Has(r, revealed + sections, version)
    ensures Archived(r, revealed + sections, version, n) <==>
      Archived(r, sections, version, n) && Fits(r, revealed, sections, version)
  {
    if revealed == [] {
      assert revealed + sections == sections;
    } else {
      assert revealed == [revealed[0]];
      OneMoreSection(r, revealed[0], sections, version, n);
      var i :| 0 <= i < |sections| && r.version(sections[i].title) == Some(version);
      assert (revealed + sections)[i + 1] == sections[i];
    }
  }

  /** A new version's section in front of a valid archive. */
  lemma NewSection(r: Reader, sections: seq<Section>, s: Section, version: string, n: Notes)
    requires ValidArchive(r, sections) && !Has(r, sections, version)
    requires r.version(s.title) == Some(version) && version != "unreleased"
    ensures Has(r, [s] + sections, version)
    ensures Archived(r, [s] + sections, version, n) <==> r.notes(s.body) == Some(n)
  {
    var all := [s] + sections;
    assert all[0] == s && r.version(all[0].title) == Some(version);
    if r.notes(s.body) == Some(n) {
      NewSectionIsValid(r, sections, version, s, n);
    }
  }

  /** A revealed section fits beside the new one exactly when it fits beside the old ones. */
  lemma FitsBesideNew(r: Reader, revealed: seq<Section>, s: Section, sections: seq<Section>, version: string)
    requires r.version(s.title) == Some(version)
    ensures Fits(r, revealed, [s] + sections, version) <==> Fits(r, revealed, sections, version)
  {
    var all := [s] + sections;
    assert all[0] == s && forall i :: 0 <= i < |sections| ==> all[i + 1] == sections[i];
    forall v | v != version ensures Has(r, all, v) <==> Has(r, sections, v) {
      if Has(r, all, v) {
        var i :| 0 <= i < |all| && r.version(all[i].title) == Some(v);
        assert all[i] == sections[i - 1];
      }
      if Has(r, sections, v) {
        var i :| 0 <= i < |sections| && r.version(sections[i].title) == Some(v);
        assert r.version(all[i + 1].title) == Some(v);
      }
    }
  }

  lemma PresentTwice(r: Reader, prose: seq<string>, original: string, version: string, title: string, n: Notes)
    requires GoodProse(prose) && Has(r, Sections(original), version)
    requires Archived(r, Sections(original), version, n)
    ensures var text := Repaired(prose, original);
      Consumed(r, prose, text, version, title, n) == if Settles(r, original, version, n) then Some(text) else None
  {
    var revealed := if MARK <= original then [] else Revealed(original);
    RevealedIsOneAtMost(original);
    RepairReveals(prose, original);
    RevealedFits(r, revealed, Sections(original), version, n);
    SecondTime(r, prose, Repaired(prose, original), version, title, n);
  }

  lemma HasSectionsHasPoint(original: string)
    requires Sections(original) != []
    ensures FindH2(original).Some?
  {
    if FindH2(original).None? {
      var before := BeforeInsertion(original);
      LinesArePlain(original);
      GroupWithoutHeading(H2(), Lines(original));
    }
  }

  lemma InsertedTwice(versions: string -> Option<string>, prose: seq<string>, original: string, version: string,
                      title: string, n: Notes)
    requires Publishable(n) && Plain(H2(), n) && Plain(H3(), n) && GoodTitle(title) && GoodProse(prose)
    requires versions(title) == Some(version) && version != "unreleased"
    requires var r := Reader(versions, NotesFromSection);
      ValidArchive(r, Sections(original)) && !Has(r, Sections(original), version)
    ensures var r := Reader(versions, NotesFromSection);
      var text := Repaired(prose, Insert(original, title, n));
      Consumed(r, prose, text, version, title, n) == if Settles(r, original, version, n) then Some(text) else None
  {
    var r := Reader(versions, NotesFromSection);
    var sections, inserted := Sections(original), Insert(original, title, n);
    HasSectionsHasPoint(original);
    InsertSwallows(original, title, n);
    var s := Section(title, SectionBody(n) + [""] + Swallowed(original));
    assert Sections(inserted) == [s] + sections;
    SwallowedStartsBare(original);
    KeepsNotesExactly(n, Swallowed(original));
    NewSection(r, sections, s, version, n);
    InsertReveals(original, title, n);
    InsertKeepsMark(original, title, n);
    var revealed := if MARK <= original then [] else Revealed(Front(original));
    RevealedIsOneAtMost(Front(original));
    RepairReveals(prose, inserted);
    RevealedFits(r, revealed, [s] + sections, version, n);
    FitsBesideNew(r, revealed, s, sections, version);
    SecondTime(r, prose, Repaired(prose, inserted), version, title, n);
  }

  /** Consuming is refused exactly when the archive is not valid or holds the version with other notes. */
  lemma RefusedExactly(r: Reader, prose: seq<string>, original: string, version: string, title: string, n: Notes)
    ensures var sections := Sections(original);
      var other := exists i :: 0 <= i < |sections| && r.version(sections[i].title) == Some(version) &&
                               r.notes(sections[i].body) != Some(n);
      Consumed(r, prose, original, version, title, n) == None <==> !ValidArchive(r, sections) || other
  {}

  lemma PresentOnce(r: Reader, prose: seq<string>, original: string, version: string, title: string, n: Notes)
    requires GoodProse(prose) && Has(r, Sections(original), version)
    ensures var rewritten := Consumed(r, prose, original, version, title, n);
      rewritten.Some? ==>
        && MARK <= rewritten.value && (MARK <= original ==> rewritten.value == original)
        && Sections(rewritten.value) == (if MARK <= original then [] else Revealed(original)) + Sections(original)
  {
    RepairReveals(prose, original);
  }

  lemma InsertedOnce(r: Reader, prose: seq<string>, original: string, version: string, title: string, n: Notes)
    requires GoodProse(prose) && Publishable(n) && GoodTitle(title) && Plain(H2(), n)
    requires ValidArchive(r, Sections(original)) && !Has(r, Sections(original), version)
    ensures var text := Repaired(prose, Insert(original, title, n));
      && MARK <= text
      && Sections(text) == (if MARK <= original then [] else Revealed(Front(original))) +
           ([Section(title, SectionBody(n) + [""] + Swallowed(original))] + Sections(original))
  {
    HasSectionsHasPoint(original);
    InsertSwallows(original, title, n);
    InsertReveals(original, title, n);
    InsertKeepsMark(original, title, n);
    RepairReveals(prose, Insert(original, title, n));
  }

  /** What consuming does to the parsed archive, unless it is refused. The rewritten text starts with the title;
      every old section is still there, unchanged and in order; before them comes the new version's unless it
      was there, and before that a section that un-indenting revealed in an archive without its title. */
  lemma ConsumedExactly(r: Reader, prose: seq<string>, original: string, version: string, title: string, n: Notes)
    requires GoodProse(prose) && Publishable(n) && GoodTitle(title) && Plain(H2(), n)
    requires Consumed(r, prose, original, version, title, n).Some?
    ensures
      var text := Consumed(r, prose, original, version, title, n).value;
      var present := Has(r, Sections(original), version);
      && "# Changelog" <= text && (present && "# Changelog" <= original ==> text == original)
      && Sections(text) ==
           (if "# Changelog" <= original then [] else Revealed(if present then original else Front(original))) +
           ((if present then [] else [Section(title, SectionBody(n) + [""] + Swallowed(original))]) +
            Sections(original))
  {
    if Has(r, Sections(original), version) {
      PresentOnce(r, prose, original, version, title, n);
      assert [] + Sections(original) == Sections(original);
    } else {
      InsertedOnce(r, prose, original, version, title, n);
    }
  }

  /** Consuming the same notes again changes nothing exactly when the first time settled the archive,
      and is refused otherwise. Notes that are inserted must hold no heading lines. */
  lemma ConsumingTwiceExactly(versions: string -> Option<string>, prose: seq<string>, original: string,
                              version: string, title: string, n: Notes)
    requires GoodProse(prose) && Publishable(n) && GoodTitle(title)
    requires versions(title) == Some(version) && version != "unreleased"
    requires Has(Reader(versions, NotesFromSection), Sections(original), version) || (Plain(H2(), n) && Plain(H3(), n))
    ensures var r := Reader(versions, NotesFromSection);
      Consumed(r, prose, original, version, title, n).Some? ==>
        var text := Consumed(r, prose, original, version, title, n).value;
        Consumed(r, prose, text, version, title, n) == if Settles(r, original, version, n) then Some(text) else None
  {
    var r := Reader(versions, NotesFromSection);
    if Consumed(r, prose, original, version, title, n).Some? {
      if Has(r, Sections(original), version) {
        PresentTwice(r, prose, original, version, title, n);
      } else {
        InsertedTwice(versions, prose, original, version, title, n);
      }
    }
  }

  lemma AtTheMargin(text: string)
    requires text != "" && !IsSpace(text[0])
    ensures Revealed(text) == []
  {
    assert Indent(text) == "";
  }

  lemma FrontIsAtTheMargin(original: string)
    requires original != "" && !IsSpace(original[0])
    ensures Revealed(Front(original)) == []
  {
    var k := FindH2(original);
    var s := if k.None? then original else original[..k.value];
    if s == "" {
      GapOnly("");
      assert Front(original) == "\n\n" + "";
    } else {
      TrimRightKeepsStart(s, 1);
      AtTheMargin(Front(original));
    }
  }

  /** An archive whose text starts at the margin, with a heading where a new version goes, settles. */
  lemma OrdinaryArchivesSettle(r: Reader, original: string, version: string, n: Notes)
    requires original != "" && !IsSpace(original[0])
    requires Has(r, Sections(original), version) || InsertsAtHeading(original)
    ensures Settles(r, original, version, n)
  {
    AtTheMargin(original);
    FrontIsAtTheMargin(original);
    SwallowsNothingAtHeading(original);
  }

  // ---------------------------------------------------------------- inputs that are refused

  const SAMPLE: Notes := Notes("- a", "- b")

  lemma OneBullet(line: string)
    requires |line| >= 3 && line[0] == '-' && line[1] == ' ' && !IsSpace(line[2]) && !IsSpace(line[|line| - 1]) &&
      OneLine(line)
    ensures Lines(line) == [line] && Trim(line) == line && CountBullets(Lines(line)) == 1
    ensures H2()(line).None? && H3()(line).None?
  {
    OnlyPiece(line);
    TrimTrims(line);
    assert Trim(line) == line && line[1..][0] == ' ' && TrimLeft(line[1..]) == line[2..];
    var lines := [line];
    assert lines[..0] == [];
    assert line[..2][0] == '-';
  }

  lemma SampleIsPublishable()
    ensures Publishable(SAMPLE) && Plain(H2(), SAMPLE) && Plain(H3(), SAMPLE)
  {
    OneBullet("- a");
    OneBullet("- b");
  }

  /** A rendered section, after one plain line, is an archive. */
  lemma ArchiveOfOne(line: string, title: string, n: Notes)
    requires Publishable(n) && Plain(H2(), n) && Plain(H3(), n) && GoodTitle(title) && OneLine(line) && H2()(line).None?
    ensures var original := line + "\n" + (RenderSection(title, n) + "\n");
      Lines(original) == [line] + SectionLines(title, n) && Sections(original) == [Section(title, SectionBody(n))]
    ensures NotesFromSection(SectionBody(n)) == Some(n)
  {
    var section := RenderSection(title, n);
    OnlyPiece(line);
    LinesOfConcat(line + "\n" + (section + "\n"), line, section + "\n");
    EndedLines(section);
    SplitOfSection(title, n);
    GroupSection([line], title, n, []);
    assert SectionLines(title, n) + [] == SectionLines(title, n) && SectionBody(n) + [] == SectionBody(n);
    SectionReadsBack(n, []);
  }

  lemma OneSectionIsArchived(r: Reader, s: Section, version: string, n: Notes)
    requires r.version(s.title) == Some(version) && version != "unreleased" && r.notes(s.body) == Some(n)
    ensures Archived(r, [s], version, n) && Has(r, [s], version)
  {
    assert [s][0] == s;
  }

  lemma OneTab(text: string, bare: string)
    requires text == "\t" + bare && bare != "" && !IsSpace(bare[0])
    ensures TrimLeft(text) == bare && Indented(text)
  {
    TrimLeftOfPadded("\t", bare);
    assert |Indent(text)| == 1 && Indent(text) == text[..1];
  }

  lemma IndentedHeadingIsRevealed(text: string, line: string, rest: string)
    requires text == "\t" + (line + "\n" + rest) && OneLine(line) && IsH2(line)
    ensures Revealed(text) != [] && Revealed(text)[0].title == H2Title(line)
  {
    var bare := line + "\n" + rest;
    assert line[..2][0] == bare[0];
    OneTab(text, bare);
    LinesFromFirst(bare, line, rest);
  }

  /** A first time that does not settle the archive is accepted, and the second is refused. */
  lemma UnsettledIsRefused(versions: string -> Option<string>, prose: seq<string>, original: string, version: string,
                           title: string, n: Notes)
    requires Publishable(n) && Plain(H2(), n) && Plain(H3(), n) && GoodTitle(title) && GoodProse(prose)
    requires versions(title) == Some(version) && version != "unreleased"
    requires var r := Reader(versions, NotesFromSection);
      Archived(r, Sections(original), version, n) && !Settles(r, original, version, n)
    ensures var r := Reader(versions, NotesFromSection);
      var once := Consumed(r, prose, original, version, title, n);
      once.Some? && Consumed(r, prose, once.value, version, title, n) == None
  {
    ConsumingTwiceExactly(versions, prose, original, version, title, n);
  }

  lemma UnfitDoesNotSettle(r: Reader, original: string, version: string, n: Notes)
    requires Has(r, Sections(original), version) && !(MARK <= original)
    requires Revealed(original) != [] && r.version(Revealed(original)[0].title).None?
    ensures !Settles(r, original, version, n)
  {
  }

  lemma HeadingX()
    ensures IsH2("## x") && H2Title("## x") == "x"
  {
    assert "## x"[2..] == " x" && " " + "x" + "" == " x";
    TrimOfPadded(" ", "x", "");
  }

  lemma IndentedHeadingArchive(original: string, line: string, rest: string, title: string, n: Notes)
    requires Publishable(n) && Plain(H2(), n) && Plain(H3(), n) && GoodTitle(title) && OneLine(line) && IsH2(line)
    requires rest == RenderSection(title, n) + "\n" && original == "\t" + line + "\n" + rest
    ensures Sections(original) == [Section(title, SectionBody(n))] && NotesFromSection(SectionBody(n)) == Some(n)
    ensures Revealed(original) != [] && Revealed(original)[0].title == H2Title(line) && original[0] == '\t'
  {
    IndentedIsNoHeading("\t", line);
    ArchiveOfOne("\t" + line, title, n);
    Regroup("\t", line + "\n", rest);
    Regroup("\t", line, "\n");
    IndentedHeadingIsRevealed(original, line, rest);
  }

  /** An indented heading in front whose title is no version: consuming the archived notes puts the
      introduction before it, and consuming them again is refused. */
  lemma IndentedHeadingIsRefused(versions: string -> Option<string>, prose: seq<string>, original: string, line: string,
                                 rest: string, version: string, title: string, n: Notes)
    requires Publishable(n) && Plain(H2(), n) && Plain(H3(), n) && GoodTitle(title) && GoodProse(prose)
    requires versions(title) == Some(version) && version != "unreleased"
    requires OneLine(line) && IsH2(line) && versions(H2Title(line)).None?
    requires rest == RenderSection(title, n) + "\n" && original == "\t" + line + "\n" + rest
    ensures var r := Reader(versions, NotesFromSection);
      var once := Consumed(r, prose, original, version, title, n);
      once.Some? && Consumed(r, prose, once.value, version, title, n) == None
  {
    var r := Reader(versions, NotesFromSection);
    IndentedHeadingArchive(original, line, rest, title, n);
    OneSectionIsArchived(r, Section(title, SectionBody(n)), version, n);
    UnfitDoesNotSettle(r, original, version, n);
    UnsettledIsRefused(versions, prose, original, version, title, n);
  }

  /** Such an input: a tab, "## x", and the section of a version with one bullet in each language. */
  lemma IndentedSampleIsRefused(versions: string -> Option<string>, prose: seq<string>, rest: string, version: string,
                                title: string)
    requires GoodTitle(title) && GoodProse(prose) && versions("x").None?
    requires versions(title) == Some(version) && version != "unreleased"
    requires rest == RenderSection(title, SAMPLE) + "\n"
    ensures var r := Reader(versions, NotesFromSection);
      var once := Consumed(r, prose, "\t" + "## x" + "\n" + rest, version, title, SAMPLE);
      once.Some? && Consumed(r, prose, once.value, version, title, SAMPLE) == None
  {
    SampleIsPublishable();
    HeadingX();
    IndentedHeadingIsRefused(versions, prose, "\t" + "## x" + "\n" + rest, "## x", rest, version, title, SAMPLE);
  }

  lemma BareMarksSwallowOneLine(original: string, title: string, n: Notes)
    requires Publishable(n) && Plain(H2(), n) && Plain(H3(), n) && GoodTitle(title)
    requires original == "##" + "\n" + (RenderSection(title, n) + "\n")
    ensures Swallowed(original) == ["##"]
  {
    assert original[..2] == "##" && LooksLikeH2(original) && original[0..] == original;
    ArchiveOfOne("##", title, n);
    TitleLine(title);
    GroupFromHeading(H2(), [], SectionLines(title, n));
    SectionsAfterPlain(H2(), ["##"], SectionLines(title, n));
    assert ["##"] + [] == ["##"];
  }

  lemma BareMarksRepeatNothing(n: Notes)
    ensures !RepeatsNotes(["##"], n)
  {
    GroupWithoutHeading(H3(), ["##"]);
  }

  lemma OtherVersionAgrees(r: Reader, s: Section, version: string, other: string, n: Notes, m: Notes)
    requires Archived(r, [s], other, m) && r.version(s.title) == Some(other) && version != other
    ensures Archived(r, [s], version, n) && !Has(r, [s], version)
  {
    assert [s][0] == s;
  }

  /** Bare marks in front: they end up in the next version's section, whose notes then differ from those
      consumed, so consuming them again is refused. */
  lemma BareMarksAreRefused(versions: string -> Option<string>, prose: seq<string>, original: string, version: string,
                            title: string, n: Notes, other: string, title': string, n': Notes)
    requires Publishable(n) && Plain(H2(), n) && Plain(H3(), n) && GoodTitle(title) && GoodProse(prose)
    requires Publishable(n') && Plain(H2(), n') && Plain(H3(), n') && GoodTitle(title')
    requires versions(title) == Some(version) && version != "unreleased"
    requires versions(title') == Some(other) && other != "unreleased" && version != other
    requires original == "##" + "\n" + (RenderSection(title', n') + "\n")
    ensures var r := Reader(versions, NotesFromSection);
      var once := Consumed(r, prose, original, version, title, n);
      once.Some? && Consumed(r, prose, once.value, version, title, n) == None
  {
    var r := Reader(versions, NotesFromSection);
    ArchiveOfOne("##", title', n');
    var s := Section(title', SectionBody(n'));
    OneSectionIsArchived(r, s, other, n');
    OtherVersionAgrees(r, s, version, other, n, n');
    BareMarksSwallowOneLine(original, title', n');
    BareMarksRepeatNothing(n);
    UnsettledIsRefused(versions, prose, original, version, title, n);
  }
}
