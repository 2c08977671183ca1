/** Changelog headings: grouping lines under level-two and level-three headings. */
module Headings {
  import opened Strings
  import opened Items

  /** `^##\s+(.+?)\s*$`: a blank title is a heading too when two blanks follow the marks. */
  predicate IsH2(line: string) {
    |line| >= 4 && line[..2] == "##" && IsSpace(line[2])
  }

  function H2Title(line: string): string
    requires IsH2(line)
  {
    Trim(line[2..])
  }

  /** `^###\s+(.+?)\s*$` */
  predicate IsH3(line: string) {
    |line| >= 5 && line[..3] == "###" && IsSpace(line[3])
  }

  function H3Title(line: string): string
    requires IsH3(line)
  {
    Trim(line[3..])
  }

  datatype Section = Section(title: string, body: seq<string>)

  /** A grouping: the lines before the first heading, and the sections in order. */
  datatype Grouped = Grouped(preamble: seq<string>, sections: seq<Section>)

  /** What a heading pattern makes of a line: no heading, or one with a title. */
  type Pattern = string -> Option<string>

  function H2(): Pattern {
    (line: string) => if IsH2(line) then Some(H2Title(line)) else None
  }

  function H3(): Pattern {
    (line: string) => if IsH3(line) then Some(H3Title(line)) else None
  }

  function AddLine(p: Pattern, g: Grouped, line: string): Grouped {
    match p(line)
    case Some(title) => g.(sections := g.sections + [Section(title, [])])
    case None =>
      if g.sections == [] then g.(preamble := g.preamble + [line])
      else
        var k := |g.sections| - 1;
        g.(sections := g.sections[k := g.sections[k].(body := g.sections[k].body + [line])])
  }

  function Group(p: Pattern, lines: seq<string>): Grouped {
    if lines == [] then Grouped([], [])
    else AddLine(p, Group(p, lines[..|lines| - 1]), lines[|lines| - 1])
  }

  predicate NoHeading(p: Pattern, lines: seq<string>) {
    forall i :: 0 <= i < |lines| ==> p(lines[i]).None?
  }

  lemma GroupOneMore(p: Pattern, lines: seq<string>, line: string)
    ensures Group(p, lines + [line]) == AddLine(p, Group(p, lines), line)
  {
    assert (lines + [line])[..|lines|] == lines;
  }

  lemma {:induction false} GroupWithoutHeading(p: Pattern, lines: seq<string>)
    requires NoHeading(p, lines)
    ensures Group(p, lines) == Grouped(lines, [])
  {
    if lines == [] {
    } else {
      var before, line := lines[..|lines| - 1], lines[|lines| - 1];
      GroupWithoutHeading(p, before);
      GroupOneMore(p, before, line);
      assert p(line).None? && before + [line] == lines;
    }
  }

  /** A heading and the plain lines after it make one section. */
  lemma {:induction false} GroupOneSection(p: Pattern, lines: seq<string>, heading: string, body: seq<string>)
    requires p(heading).Some? && NoHeading(p, body)
    ensures Group(p, lines + [heading] + body) ==
      Group(p, lines).(sections := Group(p, lines).sections + [Section(p(heading).value, body)])
  {
    if body == [] {
      assert lines + [heading] + body == lines + [heading];
      GroupOneMore(p, lines, heading);
    } else {
      var n := |body| - 1;
      GroupOneSection(p, lines, heading, body[..n]);
      assert lines + [heading] + body == (lines + [heading] + body[..n]) + [body[n]];
      GroupOneMore(p, lines + [heading] + body[..n], body[n]);
      assert body[..n] + [body[n]] == body;
    }
  }

  /** From a heading on, grouping starts afresh. */
  lemma {:induction false} GroupFromHeading(p: Pattern, a: seq<string>, b: seq<string>)
    requires b != [] && p(b[0]).Some?
    ensures Group(p, b).preamble == [] && Group(p, b).sections != []
    ensures Group(p, a + b) == Group(p, a).(sections := Group(p, a).sections + Group(p, b).sections)
  {
    var n := |b| - 1;
    assert b == b[..n] + [b[n]] && a + b == (a + b[..n]) + [b[n]];
    GroupOneMore(p, b[..n], b[n]);
    GroupOneMore(p, a + b[..n], b[n]);
    if n == 0 {
      assert a + b[..n] == a;
    } else {
      GroupFromHeading(p, a, b[..n]);
    }
  }

  /** Lines are their preamble and, from the first heading on, the sections. */
  lemma {:induction false} PreambleFirst(p: Pattern, lines: seq<string>) returns (tail: seq<string>)
    ensures lines == Group(p, lines).preamble + tail && NoHeading(p, Group(p, lines).preamble)
    ensures tail == [] || p(tail[0]).Some?
    ensures Group(p, lines).sections == Group(p, tail).sections
    ensures tail == [] <==> Group(p, lines).sections == []
  {
    if lines == [] {
      tail := [];
    } else {
      var before, line := lines[..|lines| - 1], lines[|lines| - 1];
      assert lines == before + [line];
      var rest := PreambleFirst(p, before);
      GroupOneMore(p, before, line);
      if rest == [] && p(line).None? {
        tail := [];
      } else {
        tail := rest + [line];
        GroupOneMore(p, rest, line);
        GroupWithoutHeading(p, []);
        if rest != [] { GroupFromHeading(p, [], rest); }
      }
    }
  }

  /** A line after one more section in front. */
  lemma LineAfterSection(p: Pattern, g: Grouped, whole: Grouped, line: string, s: Section)
    requires whole.sections == [Section(s.title, s.body + g.preamble)] + g.sections
    ensures AddLine(p, whole, line).sections ==
      [Section(s.title, s.body + AddLine(p, g, line).preamble)] + AddLine(p, g, line).sections
  {
    assert s.body + (g.preamble + [line]) == s.body + g.preamble + [line];
  }

  lemma OneSectionAndLine(p: Pattern, a: seq<string>, before: seq<string>, line: string, s: Section)
    requires Group(p, a + before).sections ==
      [Section(s.title, s.body + Group(p, before).preamble)] + Group(p, before).sections
    ensures Group(p, a + (before + [line])).sections ==
      [Section(s.title, s.body + Group(p, before + [line]).preamble)] + Group(p, before + [line]).sections
  {
    assert a + (before + [line]) == (a + before) + [line];
    GroupOneMore(p, a + before, line);
    GroupOneMore(p, before, line);
    LineAfterSection(p, Group(p, before), Group(p, a + before), line, s);
  }

  /** What follows a section: the lines up to the next heading are its own too. */
  lemma {:induction false} OneSectionAndMore(p: Pattern, a: seq<string>, rest: seq<string>, s: Section)
    requires Group(p, a).sections == [s]
    ensures Group(p, a + rest).sections ==
      [Section(s.title, s.body + Group(p, rest).preamble)] + Group(p, rest).sections
  {
    if rest == [] {
      assert a + rest == a && s.body + [] == s.body;
    } else {
      var before, line := rest[..|rest| - 1], rest[|rest| - 1];
      OneSectionAndMore(p, a, before, s);
      OneSectionAndLine(p, a, before, line, s);
      assert before + [line] == rest;
    }
  }

  /** A heading and what follows it. */
  lemma HeadingFirst(p: Pattern, heading: string, rest: seq<string>)
    requires p(heading).Some?
    ensures Group(p, [heading] + rest).sections ==
      [Section(p(heading).value, Group(p, rest).preamble)] + Group(p, rest).sections
  {
    GroupOneMore(p, [], heading);
    assert [] + [heading] == [heading] && [] + Group(p, rest).preamble == Group(p, rest).preamble;
    OneSectionAndMore(p, [heading], rest, Section(p(heading).value, []));
  }

  /** Plain lines in front add no section. */
  lemma {:induction false} SectionsAfterPlain(p: Pattern, a: seq<string>, b: seq<string>)
    requires NoHeading(p, a)
    ensures Group(p, a + b).sections == Group(p, b).sections
    ensures Group(p, a + b).preamble == a + Group(p, b).preamble
  {
    if b == [] {
      assert a + b == a;
      GroupWithoutHeading(p, a);
    } else {
      var n := |b| - 1;
      SectionsAfterPlain(p, a, b[..n]);
      assert a + b == (a + b[..n]) + [b[n]] && b == b[..n] + [b[n]];
      GroupOneMore(p, a + b[..n], b[n]);
      GroupOneMore(p, b[..n], b[n]);
    }
  }

  /** The loop of both parsers: the open section is kept apart until the next heading. */
  method Collect(p: Pattern, lines: seq<string>) returns (preamble: seq<string>, sections: seq<Section>)
    ensures Grouped(preamble, sections) == Group(p, lines)
  {
    preamble, sections := [], [];
    var title: Option<string> := None;
    var body: seq<string> := [];
    for n := 0 to |lines|
      invariant Group(p, lines[..n]) ==
        Grouped(preamble, if title.Some? then sections + [Section(title.value, body)] else sections)
      invariant title.None? ==> sections == []
    {
      assert lines[..n + 1] == lines[..n] + [lines[n]];
      GroupOneMore(p, lines[..n], lines[n]);
      var heading := p(lines[n]);
      if heading.Some? {
        if title.Some? {
          sections := sections + [Section(title.value, body)];
        }
        title, body := heading, [];
      } else if title.None? {
        preamble := preamble + [lines[n]];
      } else {
        body := body + [lines[n]];
      }
    }
    assert lines[..|lines|] == lines;
    if title.Some? {
      sections := sections + [Section(title.value, body)];
    }
  }
}
