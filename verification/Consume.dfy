/** The archive's rules, whatever reads its titles and sections. */
module ArchiveRules {
  import opened Items
  import opened Headings
  import opened ReleaseNotes

  /** How a section's title is read as a version, and its lines as notes. */
  datatype Reader = Reader(version: string -> Option<string>, notes: seq<string> -> Option<Notes>)

  /** A section that may stand in the archive. */
  predicate ValidSection(r: Reader, s: Section) {
    r.version(s.title).Some? && r.version(s.title).value != "unreleased" && r.notes(s.body).Some?
  }

  predicate ValidArchive(r: Reader, sections: seq<Section>) {
    && sections != []
    && (forall i :: 0 <= i < |sections| ==> ValidSection(r, sections[i]))
    && (forall i, j :: 0 <= i < j < |sections| ==> r.version(sections[i].title) != r.version(sections[j].title))
  }

  predicate Has(r: Reader, sections: seq<Section>, version: string) {
    exists i :: 0 <= i < |sections| && r.version(sections[i].title) == Some(version)
  }

  /** Every section of the version holds these notes. */
  predicate Agrees(r: Reader, sections: seq<Section>, version: string, n: Notes) {
    forall i :: 0 <= i < |sections| && r.version(sections[i].title) == Some(version) ==>
      r.notes(sections[i].body) == Some(n)
  }

  /** `validate_changelog`: the versions in order with their notes, or an error. */
  method Validate(r: Reader, sections: seq<Section>) returns (ok: bool, entries: seq<(string, Notes)>)
    ensures ok <==> ValidArchive(r, sections)
    ensures ok ==> |entries| == |sections| && forall i :: 0 <= i < |sections| ==>
      r.version(sections[i].title) == Some(entries[i].0) && r.notes(sections[i].body) == Some(entries[i].1)
  {
    entries := [];
    if sections == [] {
      return false, entries;
    }
    var seen: set<string> := {};
    for k := 0 to |sections|
      invariant |entries| == k
      invariant forall i :: 0 <= i < k ==> ValidSection(r, sections[i])
      invariant forall i :: 0 <= i < k ==>
        r.version(sections[i].title) == Some(entries[i].0) && r.notes(sections[i].body) == Some(entries[i].1)
      invariant forall i :: 0 <= i < k ==> entries[i].0 in seen
      invariant forall v :: v in seen ==> exists i :: 0 <= i < k && entries[i].0 == v
      invariant forall i, j :: 0 <= i < j < k ==> entries[i].0 != entries[j].0
    {
      var version := r.version(sections[k].title);
      var notes := r.notes(sections[k].body);
      if version.None? || version.value == "unreleased" || notes.None? {
        assert !ValidSection(r, sections[k]);
        return false, entries;
      }
      if version.value in seen {
        var i :| 0 <= i < k && entries[i].0 == version.value;
        assert r.version(sections[i].title) == r.version(sections[k].title);
        return false, entries;
      }
      seen, entries := seen + {version.value}, entries + [(version.value, notes.value)];
    }
    ok := true;
  }

  /** The search of `consume`: whether the version is archived, refused when it is with other notes. */
  method Search(r: Reader, sections: seq<Section>, entries: seq<(string, Notes)>, version: string, n: Notes)
      returns (agrees: bool, found: bool)
    requires ValidArchive(r, sections)
    requires |entries| == |sections| && forall i :: 0 <= i < |sections| ==>
      r.version(sections[i].title) == Some(entries[i].0) && r.notes(sections[i].body) == Some(entries[i].1)
    ensures agrees <==> Agrees(r, sections, version, n)
    ensures agrees ==> (found <==> Has(r, sections, version))
  {
    for k := 0 to |entries|
      invariant forall i :: 0 <= i < k ==> entries[i].0 != version
    {
      if entries[k].0 == version {
        assert r.version(sections[k].title) == Some(version);
        return entries[k].1 == n, true;
      }
    }
    return true, false;
  }

  lemma NewSectionIsValid(r: Reader, earlier: seq<Section>, version: string, s: Section, n: Notes)
    requires ValidArchive(r, earlier) && !Has(r, earlier, version)
    requires r.version(s.title) == Some(version) && version != "unreleased" && r.notes(s.body) == Some(n)
    ensures var sections := [s] + earlier;
      ValidArchive(r, sections) && Has(r, sections, version) && Agrees(r, sections, version, n)
  {
    var sections := [s] + earlier;
    assert sections[0] == s && sections[1..] == earlier;
    forall i | 0 < i < |sections|
      ensures ValidSection(r, sections[i]) && r.version(sections[i].title) != Some(version)
    {
      assert sections[i] == earlier[i - 1];
    }
    forall i, j | 0 < i < j < |sections| ensures r.version(sections[i].title) != r.version(sections[j].title) {
      assert sections[i] == earlier[i - 1] && sections[j] == earlier[j - 1];
    }
  }
}

/** Consuming a release: its published notes are put into the archive. */
module Consume {
  import opened Strings
  import opened Items
  import opened TextLines
  import opened Headings
  import opened ReleaseNotes
  import opened Changelog
  import opened ArchiveRules

  const MARK: string := "# Changelog"

  /** The introduction of a new archive: its title, a blank line, and some lines of prose. */
  function Intro(prose: seq<string>): string {
    Join([MARK, ""] + prose + [""])
  }

  predicate GoodProse(prose: seq<string>) {
    prose != [] && AllOneLine(prose) && NoHeading(H2(), prose)
  }

  /** The archive starts with its title; otherwise an introduction is put before it. */
  function Repaired(prose: seq<string>, text: string): string {
    if MARK <= text then text else Intro(prose) + "\n" + TrimLeft(text)
  }

  /** The archive after consuming the notes of a version; `None` when it is refused. */
  function Consumed(r: Reader, prose: seq<string>, original: string, version: string, title: string, n: Notes)
    : Option<string>
  {
    var sections := Sections(original);
    if !ValidArchive(r, sections) || !Agrees(r, sections, version, n) then None
    else if Has(r, sections, version) then Some(Repaired(prose, original))
    else Some(Repaired(prose, Insert(original, title, n)))
  }

  /** `consume`, from the published notes to the rewritten archive. */
  method ConsumeRelease(r: Reader, prose: seq<string>, original: string, version: string, title: string,
                        published: string)
      returns (rewritten: Option<string>)
    ensures rewritten == match ParseRendered(published)
                         case None => None
                         case Some(n) => Consumed(r, prose, original, version, title, n)
  {
    var n := ParseRendered(published);
    if n.None? {
      return None;
    }
    var preamble, sections := Collect(H2(), Lines(original));
    assert sections == Sections(original);
    var ok, entries := Validate(r, sections);
    if !ok {
      return None;
    }
    var agrees, found := Search(r, sections, entries, version, n.value);
    if !agrees {
      return None;
    }
    var text := original;
    if !found {
      text := Insert(original, title, n.value);
    }
    if !(MARK <= text) {
      text := Intro(prose) + "\n" + TrimLeft(text);
    }
    rewritten := Some(text);
  }
}
