/** Splitting text into lines and joining it again, with the newline as the only separator. */
module TextLines {
  import opened Strings

  /** Position of the first newline, or the length. */
  function Newline(s: string): (i: nat)
    ensures i <= |s|
    ensures i < |s| ==> s[i] == '\n'
    ensures forall j :: 0 <= j < i ==> s[j] != '\n'
  {
    if s == "" || s[0] == '\n' then 0 else 1 + Newline(s[1..])
  }

  /** `s.split("\n")`: always at least one piece. */
  function Split(s: string): (pieces: seq<string>)
    ensures pieces != []
    decreases |s|
  {
    var i := Newline(s);
    if i == |s| then [s] else [s[..i]] + Split(s[i + 1..])
  }

  /** `s.splitlines()`: a final newline ends the last line instead of starting another. */
  function Lines(s: string): seq<string> {
    var pieces := Split(s);
    if pieces[|pieces| - 1] == "" then pieces[..|pieces| - 1] else pieces
  }

  /** `"\n".join(lines)` */
  function Join(lines: seq<string>): string {
    if lines == [] then ""
    else if |lines| == 1 then lines[0]
    else lines[0] + "\n" + Join(lines[1..])
  }

  lemma NewlineIs(s: string, i: nat)
    requires i <= |s| && (i < |s| ==> s[i] == '\n') && forall j :: 0 <= j < i ==> s[j] != '\n'
    ensures Newline(s) == i
  {
  }

  predicate OneLine(s: string) {
    forall i :: 0 <= i < |s| ==> s[i] != '\n'
  }

  lemma FirstPiece(s: string, head: string, rest: string)
    requires s == head + "\n" + rest && OneLine(head)
    ensures Split(s) == [head] + Split(rest)
  {
    NewlineIs(s, |head|);
    assert s[..|head|] == head && s[|head| + 1..] == rest;
  }

  lemma Regroup<T>(x: seq<T>, y: seq<T>, z: seq<T>)
    ensures x + (y + z) == x + y + z
  {
  }

  lemma OnlyPiece(s: string)
    requires OneLine(s)
    ensures Split(s) == [s]
  {
    NewlineIs(s, |s|);
  }

  lemma CutAtNewline(s: string, a: string, b: string, i: nat)
    requires s == a + "\n" + b && i < |a| && a[i] == '\n'
    ensures a == a[..i] + "\n" + a[i + 1..]
    ensures s == a[..i] + "\n" + (a[i + 1..] + "\n" + b)
  {
  }

  lemma SplitStep(s: string, a: string, b: string, head: string, tail: string, rest: string)
    requires a == head + "\n" + tail && s == head + "\n" + rest && OneLine(head)
    requires Split(rest) == Split(tail) + Split(b)
    ensures Split(s) == Split(a) + Split(b)
  {
    FirstPiece(a, head, tail);
    FirstPiece(s, head, rest);
    Regroup([head], Split(tail), Split(b));
  }

  /** Text up to and from a newline splits into the pieces of each part. */
  lemma {:induction false} SplitOfConcat(s: string, a: string, b: string)
    requires s == a + "\n" + b
    ensures Split(s) == Split(a) + Split(b)
    decreases |a|
  {
    var i := Newline(a);
    if i == |a| {
      OnlyPiece(a);
      FirstPiece(s, a, b);
    } else {
      var head, tail := a[..i], a[i + 1..];
      var rest := tail + "\n" + b;
      SplitOfConcat(rest, tail, b);
      CutAtNewline(s, a, b, i);
      SplitStep(s, a, b, head, tail, rest);
    }
  }

  lemma LinesOfConcat(s: string, a: string, b: string)
    requires s == a + "\n" + b
    ensures Lines(s) == Split(a) + Lines(b)
  {
    SplitOfConcat(s, a, b);
    assert (Split(a) + Split(b))[..|Split(a)| + |Split(b)| - 1] == Split(a) + Split(b)[..|Split(b)| - 1];
  }

  lemma {:induction false} JoinOfConcat(a: seq<string>, b: seq<string>)
    requires a != [] && b != []
    ensures Join(a + b) == Join(a) + "\n" + Join(b)
  {
    if |a| == 1 {
      assert (a + b)[1..] == b;
    } else {
      assert (a + b)[1..] == a[1..] + b;
      JoinOfConcat(a[1..], b);
    }
  }

  lemma JoinStep(s: string, head: string, rest: string)
    requires s == head + "\n" + rest && OneLine(head) && Join(Split(rest)) == rest
    ensures Join(Split(s)) == s
  {
    FirstPiece(s, head, rest);
    JoinOfConcat([head], Split(rest));
  }

  /** Joining what was split gives the text back. */
  lemma {:induction false} JoinOfSplit(s: string)
    ensures Join(Split(s)) == s
    decreases |s|
  {
    var i := Newline(s);
    if i < |s| {
      JoinOfSplit(s[i + 1..]);
      JoinStep(s, s[..i], s[i + 1..]);
    }
  }

  predicate AllOneLine(lines: seq<string>) {
    forall i :: 0 <= i < |lines| ==> OneLine(lines[i])
  }

  lemma {:induction false} PiecesAreOneLine(s: string)
    ensures AllOneLine(Split(s))
    decreases |s|
  {
    var i := Newline(s);
    if i < |s| {
      PiecesAreOneLine(s[i + 1..]);
    }
  }

  /** Splitting what was joined gives the lines back. */
  lemma {:induction false} SplitOfJoin(lines: seq<string>)
    requires lines != [] && AllOneLine(lines)
    ensures Split(Join(lines)) == lines
  {
    assert lines == [lines[0]] + lines[1..];
    assert OneLine(lines[0]);
    if |lines| == 1 {
      NewlineIs(lines[0], |lines[0]|);
    } else {
      SplitOfJoin(lines[1..]);
      FirstPiece(Join(lines), lines[0], Join(lines[1..]));
    }
  }

  /** The lines of a text that ends in a newline. */
  lemma LinesOfJoin(lines: seq<string>)
    requires lines != [] && AllOneLine(lines)
    ensures Lines(Join(lines) + "\n") == lines
  {
    SplitOfJoin(lines);
    assert Join(lines) + "\n" == Join(lines) + "\n" + "";
    LinesOfConcat(Join(lines) + "\n", Join(lines), "");
  }

  // ---------------------------------------------------------------- trimming whole texts

  predicate Blank(s: string) {
    forall i :: 0 <= i < |s| ==> IsSpace(s[i])
  }

  lemma {:induction false} TrimLeftOfPadded(w: string, s: string)
    requires Blank(w) && (s == "" || !IsSpace(s[0]))
    ensures TrimLeft(w + s) == s
  {
    if w == "" {
      assert w + s == s;
    } else {
      assert (w + s)[1..] == w[1..] + s;
      TrimLeftOfPadded(w[1..], s);
    }
  }

  lemma {:induction false} TrimRightOfPadded(s: string, w: string)
    requires Blank(w) && (s == "" || !IsSpace(s[|s| - 1]))
    ensures TrimRight(s + w) == s
  {
    if w == "" {
      assert s + w == s;
    } else {
      var n := |w| - 1;
      assert (s + w)[..|s| + n] == s + w[..n];
      TrimRightOfPadded(s, w[..n]);
    }
  }

  /** Padding a trimmed text with blanks on either side changes nothing once trimmed. */
  lemma TrimOfPadded(before: string, s: string, after: string)
    requires Blank(before) && Blank(after) && Trimmed(s) && s != ""
    ensures Trim(before + s + after) == s
  {
    assert before + s + after == before + (s + after);
    TrimLeftOfPadded(before, s + after);
    TrimRightOfPadded(s, after);
  }
}
