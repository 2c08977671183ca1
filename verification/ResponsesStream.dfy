/** The whole Responses relay: every frame, then the items' completion and the terminal event. */
module ResponsesStream {
  import opened ChatStream
  import opened ChatOutput
  import opened ResponsesRelay
  import opened ResponsesReasoning

  // ---------------------------------------------------------------- pieces and frames

  /** `whole` is everything received up to the end of the current chunk: arguments are totalled before
      the chunk's deltas are relayed. */
  function OnPiece(d: Decoder, r: Relay, whole: seq<Piece>, piece: Piece): Relay {
    match piece
    case Thought(text) => OnThought(r, text)
    case Text(text) => OnText(r, text)
    case Tool(index, delta) => OnTool(d, r, index, delta, ArgumentsOf(whole, index))
  }

  function AfterPiece(d: Decoder, r: Relay, c: Client, whole: seq<Piece>, piece: Piece): Client {
    match piece
    case Thought(text) => AfterThought(r, c, text)
    case Text(text) => AfterText(r, c, text)
    case Tool(index, delta) => AfterTool(d, r, c, index, delta, ArgumentsOf(whole, index))
  }

  function OnPieces(d: Decoder, r: Relay, whole: seq<Piece>, part: seq<Piece>): Relay {
    if part == [] then r
    else OnPiece(d, OnPieces(d, r, whole, part[..|part| - 1]), whole, part[|part| - 1])
  }

  function AfterPieces(d: Decoder, r: Relay, c: Client, whole: seq<Piece>, part: seq<Piece>): Client {
    if part == [] then c
    else
      var before := part[..|part| - 1];
      AfterPiece(d, OnPieces(d, r, whole, before), AfterPieces(d, r, c, whole, before), whole, part[|part| - 1])
  }

  lemma OnOneMore(d: Decoder, r: Relay, whole: seq<Piece>, part: seq<Piece>, piece: Piece)
    ensures OnPieces(d, r, whole, part + [piece]) == OnPiece(d, OnPieces(d, r, whole, part), whole, piece)
  {
    assert (part + [piece])[..|part|] == part;
  }

  lemma {:induction false} OnMore(d: Decoder, r: Relay, whole: seq<Piece>, a: seq<Piece>, b: seq<Piece>,
                                  all: seq<Piece>)
    requires all == a + b
    ensures OnPieces(d, r, whole, all) == OnPieces(d, OnPieces(d, r, whole, a), whole, b)
    decreases |b|
  {
    if b == [] {
      assert all == a;
    } else {
      var before, last := b[..|b| - 1], b[|b| - 1];
      assert all == (a + before) + [last] && b == before + [last];
      OnMore(d, r, whole, a, before, a + before);
      OnOneMore(d, r, whole, a + before, last);
      OnOneMore(d, OnPieces(d, r, whole, a), whole, before, last);
    }
  }

  lemma PieceKeepsInv(d: Decoder, r: Relay, c: Client, read: seq<Piece>, whole: seq<Piece>, piece: Piece)
    requires Inv(r, c, read)
    ensures Inv(OnPiece(d, r, whole, piece), AfterPiece(d, r, c, whole, piece), read + [piece])
  {
    match piece
    case Thought(text) => ThoughtKeepsInv(r, c, read, text);
    case Text(text) => TextKeepsInv(r, c, read, text);
    case Tool(index, delta) => ToolKeepsInv(d, r, c, read, index, delta, ArgumentsOf(whole, index));
  }

  lemma {:induction false} PiecesKeepInv(d: Decoder, r: Relay, c: Client, read: seq<Piece>, whole: seq<Piece>,
                                         part: seq<Piece>)
    requires Inv(r, c, read)
    ensures Inv(OnPieces(d, r, whole, part), AfterPieces(d, r, c, whole, part), read + part)
  {
    if part == [] {
      assert read + part == read;
    } else {
      var before, piece := part[..|part| - 1], part[|part| - 1];
      assert read + part == read + before + [piece];
      PiecesKeepInv(d, r, c, read, whole, before);
      PieceKeepsInv(d, OnPieces(d, r, whole, before), AfterPieces(d, r, c, whole, before), read + before, whole, piece);
    }
  }

  lemma PieceKeepsReasoned(d: Decoder, r: Relay, c: Client, read: seq<Piece>, whole: seq<Piece>, piece: Piece)
    requires Inv(r, c, read) && Reasoned(r, c, read) && (piece.Thought? ==> piece.text != "")
    ensures Reasoned(OnPiece(d, r, whole, piece), AfterPiece(d, r, c, whole, piece), read + [piece])
  {
    match piece
    case Thought(text) => ThoughtKeepsReasoned(r, c, read, text);
    case Text(text) => TextKeepsReasoned(r, c, read, text);
    case Tool(index, delta) => ToolKeepsReasoned(d, r, c, read, index, delta, ArgumentsOf(whole, index));
  }

  type Claim = (Relay, Client, seq<Piece>) -> bool

  ghost predicate KeptByPieces(d: Decoder, whole: seq<Piece>, claim: Claim) {
    forall r, c, read, piece: Piece :: claim(r, c, read) && (piece.Thought? ==> piece.text != "") ==>
      claim(OnPiece(d, r, whole, piece), AfterPiece(d, r, c, whole, piece), read + [piece])
  }

  lemma {:induction false} PiecesKeep(d: Decoder, r: Relay, c: Client, read: seq<Piece>, whole: seq<Piece>,
                                      part: seq<Piece>, claim: Claim)
    requires claim(r, c, read) && KeptByPieces(d, whole, claim) && Spoken(part)
    ensures claim(OnPieces(d, r, whole, part), AfterPieces(d, r, c, whole, part), read + part)
  {
    if part == [] {
      assert read + part == read;
    } else {
      var before, piece := part[..|part| - 1], part[|part| - 1];
      PiecesKeep(d, r, c, read, whole, before, claim);
      assert read + part == read + before + [piece];
    }
  }

  /** After any pieces, each reasoning item done was done with all reasoning up to its end. */
  lemma PiecesKeepReasoned(d: Decoder, r: Relay, c: Client, read: seq<Piece>, whole: seq<Piece>, part: seq<Piece>)
    requires Inv(r, c, read) && Reasoned(r, c, read) && Spoken(part)
    ensures Reasoned(OnPieces(d, r, whole, part), AfterPieces(d, r, c, whole, part), read + part)
  {
    var claim: Claim := (r, c, read) => Inv(r, c, read) && Reasoned(r, c, read);
    forall r, c, read, piece: Piece | claim(r, c, read) && (piece.Thought? ==> piece.text != "")
      ensures claim(OnPiece(d, r, whole, piece), AfterPiece(d, r, c, whole, piece), read + [piece])
    {
      PieceKeepsInv(d, r, c, read, whole, piece);
      PieceKeepsReasoned(d, r, c, read, whole, piece);
    }
    PiecesKeep(d, r, c, read, whole, part, claim);
  }

  /** No delta gives this tool a custom tool's name. */
  predicate Plain(d: Decoder, pieces: seq<Piece>, i: int) {
    pieces == [] ||
    var last := pieces[|pieces| - 1];
    && Plain(d, pieces[..|pieces| - 1], i)
    && (last.Tool? && last.index == i && last.delta.name != "" ==> !d.custom(last.delta.name))
  }

  /** Every name this tool is given is a custom tool's. */
  predicate Custom(d: Decoder, pieces: seq<Piece>, i: int) {
    pieces == [] ||
    var last := pieces[|pieces| - 1];
    && Custom(d, pieces[..|pieces| - 1], i)
    && (last.Tool? && last.index == i && last.delta.name != "" ==> d.custom(last.delta.name))
  }

  predicate Touches(pieces: seq<Piece>, i: int) {
    if pieces == [] then false
    else
      var last := pieces[|pieces| - 1];
      (last.Tool? && last.index == i) || Touches(pieces[..|pieces| - 1], i)
  }

  lemma {:induction false} ArgumentsGrow(a: seq<Piece>, b: seq<Piece>, i: int)
    ensures ArgumentsOf(a, i) <= ArgumentsOf(a + b, i)
    ensures !Touches(b, i) ==> ArgumentsOf(a + b, i) == ArgumentsOf(a, i)
  {
    if b == [] {
      assert a + b == a;
    } else {
      var n := |b| - 1;
      ArgumentsGrow(a, b[..n], i);
      assert a + b == (a + b[..n]) + [b[n]];
      Extend(a + b[..n], b[n], i);
    }
  }

  lemma PlainExtends(d: Decoder, pieces: seq<Piece>, piece: Piece, i: int)
    ensures Plain(d, pieces + [piece], i) <==>
      Plain(d, pieces, i) && (piece.Tool? && piece.index == i && piece.delta.name != "" ==> !d.custom(piece.delta.name))
  {
    assert (pieces + [piece])[..|pieces|] == pieces;
  }

  lemma {:induction false} PlainName(d: Decoder, pieces: seq<Piece>, i: int)
    requires Plain(d, pieces, i) && !d.custom("")
    ensures !d.custom(NameOf(pieces, i))
  {
    if pieces != [] { PlainName(d, pieces[..|pieces| - 1], i); }
  }

  lemma PieceKeepsTold(d: Decoder, r: Relay, c: Client, read: seq<Piece>, whole: seq<Piece>, piece: Piece, i: int,
                       s: string)
    requires Inv(r, c, read) && Told(r, c, i, NameOf(read, i), s)
    requires Plain(d, read + [piece], i) && !d.custom("") && s <= ArgumentsOf(whole, i)
    ensures Told(OnPiece(d, r, whole, piece), AfterPiece(d, r, c, whole, piece), i, NameOf(read + [piece], i),
                 if piece.Tool? && piece.index == i then ArgumentsOf(whole, i) else s)
  {
    Extend(read, piece, i);
    match piece
    case Thought(text) => ThoughtKeepsTold(r, c, i, NameOf(read, i), s, text);
    case Text(text) => TextKeepsTold(r, c, i, NameOf(read, i), s, text);
    case Tool(index, delta) =>
      PlainName(d, read + [piece], i);
      ToolKeepsTold(d, r, c, read, i, NameOf(read, i), s, index, delta, ArgumentsOf(whole, index));
  }

  /** Within a chunk a plain tool's deltas stand at what was sent before it, or, once touched, at all
      that the chunk brings. */
  lemma {:induction false} PiecesKeepTold(d: Decoder, r: Relay, c: Client, read: seq<Piece>, whole: seq<Piece>,
                                          part: seq<Piece>, i: int)
    requires Inv(r, c, read) && Told(r, c, i, NameOf(read, i), ArgumentsOf(read, i))
    requires Plain(d, read + part, i) && !d.custom("") && ArgumentsOf(read, i) <= ArgumentsOf(whole, i)
    ensures Told(OnPieces(d, r, whole, part), AfterPieces(d, r, c, whole, part), i, NameOf(read + part, i),
                 ArgumentsOf(if Touches(part, i) then whole else read, i))
  {
    if part == [] {
      assert read + part == read;
    } else {
      var before, piece := part[..|part| - 1], part[|part| - 1];
      assert read + part == read + before + [piece];
      PlainExtends(d, read + before, piece, i);
      PiecesKeepTold(d, r, c, read, whole, before, i);
      PiecesKeepInv(d, r, c, read, whole, before);
      PieceKeepsTold(d, OnPieces(d, r, whole, before), AfterPieces(d, r, c, whole, before), read + before, whole,
                     piece, i, ArgumentsOf(if Touches(before, i) then whole else read, i));
    }
  }

  const START: Relay := Relay([Created], false, 0, false, 0, "", map[], map[], map[], 0)

  lemma StartsClean(start: Relay)
    requires start == Relay([Created], false, 0, false, 0, "", map[], map[], map[], 0)
    ensures Inv(start, NEWCOMER, [])
  {
    ReadsOneMore([], NEWCOMER, Created);
    assert [] + [Created] == [Created];
  }

  lemma {:induction false} PlainPrefix(d: Decoder, a: seq<Piece>, b: seq<Piece>, i: int)
    requires Plain(d, a + b, i)
    ensures Plain(d, a, i)
  {
    if b == [] {
      assert a + b == a;
    } else {
      var n := |b| - 1;
      assert a + b == (a + b[..n]) + [b[n]];
      PlainExtends(d, a + b[..n], b[n], i);
      PlainPrefix(d, a, b[..n], i);
    }
  }

  lemma CustomExtends(d: Decoder, pieces: seq<Piece>, piece: Piece, i: int)
    ensures Custom(d, pieces + [piece], i) <==>
      Custom(d, pieces, i) && (piece.Tool? && piece.index == i && piece.delta.name != "" ==> d.custom(piece.delta.name))
  {
    assert (pieces + [piece])[..|pieces|] == pieces;
  }

  /** Nothing of a custom tool's arguments is streamed as they come. */
  lemma {:induction false} PiecesKeepHushed(d: Decoder, r: Relay, c: Client, read: seq<Piece>, whole: seq<Piece>,
                                            part: seq<Piece>, i: int)
    requires Inv(r, c, read) && Hushed(d, r, c, i) && Custom(d, read + part, i)
    ensures Hushed(d, OnPieces(d, r, whole, part), AfterPieces(d, r, c, whole, part), i)
  {
    if part == [] {
      assert read + part == read;
    } else {
      var before, piece := part[..|part| - 1], part[|part| - 1];
      assert read + part == read + before + [piece];
      CustomExtends(d, read + before, piece, i);
      PiecesKeepHushed(d, r, c, read, whole, before, i);
      PiecesKeepInv(d, r, c, read, whole, before);
      PieceKeepsHushed(d, OnPieces(d, r, whole, before), AfterPieces(d, r, c, whole, before), read + before, whole,
                       piece, i);
    }
  }

  lemma PieceKeepsHushed(d: Decoder, r: Relay, c: Client, read: seq<Piece>, whole: seq<Piece>, piece: Piece, i: int)
    requires Inv(r, c, read) && Hushed(d, r, c, i) && Custom(d, read + [piece], i)
    ensures Hushed(d, OnPiece(d, r, whole, piece), AfterPiece(d, r, c, whole, piece), i)
  {
    CustomExtends(d, read, piece, i);
    match piece
    case Thought(text) => ThoughtKeepsHushed(d, r, c, i, text);
    case Text(text) => TextKeepsHushed(d, r, c, i, text);
    case Tool(index, delta) => ToolKeepsHushed(d, r, c, read, i, index, delta, ArgumentsOf(whole, index));
  }

  /** Every plain tool's deltas are all of its arguments so far; a custom tool's have not been sent. */
  ghost predicate AllTold(d: Decoder, r: Relay, c: Client, pieces: seq<Piece>) {
    && (forall i :: Plain(d, pieces, i) ==> Told(r, c, i, NameOf(pieces, i), ArgumentsOf(pieces, i)))
    && (forall i :: Custom(d, pieces, i) ==> Hushed(d, r, c, i))
  }

  lemma {:induction false} CustomPrefix(d: Decoder, a: seq<Piece>, b: seq<Piece>, i: int)
    requires Custom(d, a + b, i)
    ensures Custom(d, a, i)
  {
    if b == [] {
      assert a + b == a;
    } else {
      var n := |b| - 1;
      assert a + b == (a + b[..n]) + [b[n]];
      CustomExtends(d, a + b[..n], b[n], i);
      CustomPrefix(d, a, b[..n], i);
    }
  }

  lemma FrameKeepsAllTold(d: Decoder, r: Relay, c: Client, read: seq<Piece>, part: seq<Piece>)
    requires Inv(r, c, read) && AllTold(d, r, c, read) && !d.custom("")
    ensures AllTold(d, OnPieces(d, r, read + part, part), AfterPieces(d, r, c, read + part, part), read + part)
  {
    var r', c' := OnPieces(d, r, read + part, part), AfterPieces(d, r, c, read + part, part);
    forall i | Plain(d, read + part, i)
      ensures Told(r', c', i, NameOf(read + part, i), ArgumentsOf(read + part, i))
    {
      PlainPrefix(d, read, part, i);
      ArgumentsGrow(read, part, i);
      PiecesKeepTold(d, r, c, read, read + part, part, i);
    }
    forall i | Custom(d, read + part, i) ensures Hushed(d, r', c', i) {
      CustomPrefix(d, read, part, i);
      PiecesKeepHushed(d, r, c, read, read + part, part, i);
    }
  }

  lemma ThoughtThenText(start: Relay)
    requires start == START
    ensures var r := OnText(OnThought(start, "a"), "b");
      && !r.reasoningStarted && r.reasoningText == "a" && r.next == 2
      && r.events == [Created, ItemAdded(0, ReasoningItem), PartAdded(0), ReasoningDelta(0, "a"), ReasoningDone(0, "a"),
                      PartDone(0), ItemDone(0), ItemAdded(1, MessageItem), PartAdded(1), TextDelta(1, "b")]
  {
    assert "" + "a" == "a";
  }

  lemma ThoughtAgain(r: Relay)
    requires !r.reasoningStarted && r.reasoningText == "a" && r.next == 2
    ensures CloseReasoning(OnThought(r, "c")).events == r.events +
      [ItemAdded(2, ReasoningItem), PartAdded(2), ReasoningDelta(2, "c"), ReasoningDone(2, "ac"), PartDone(2),
        ItemDone(2)]
  {
    assert "a" + "c" == "ac";
  }

  lemma ThoughtTextThought(d: Decoder, start: Relay)
    ensures var pieces := [Thought("a"), Text("b"), Thought("c")];
      OnPieces(d, start, pieces, pieces) == OnThought(OnText(OnThought(start, "a"), "b"), "c")
  {
    var pieces := [Thought("a"), Text("b"), Thought("c")];
    OnOneMore(d, start, pieces, [], Thought("a"));
    OnOneMore(d, start, pieces, [Thought("a")], Text("b"));
    OnOneMore(d, start, pieces, [Thought("a"), Text("b")], Thought("c"));
    assert [] + [Thought("a")] == [Thought("a")] && [Thought("a")] + [Text("b")] == [Thought("a"), Text("b")];
    assert [Thought("a"), Text("b")] + [Thought("c")] == pieces;
  }

  /** Reasoning, text, reasoning again: the second item is done with the first one's reasoning too. */
  lemma SecondReasoningRepeatsTheFirst(d: Decoder, start: Relay)
    requires start == START
    ensures CloseReasoning(OnText(OnThought(start, "a"), "b")).events ==
      [Created, ItemAdded(0, ReasoningItem), PartAdded(0), ReasoningDelta(0, "a"), ReasoningDone(0, "a"), PartDone(0),
       ItemDone(0), ItemAdded(1, MessageItem), PartAdded(1), TextDelta(1, "b")]
    ensures var pieces := [Thought("a"), Text("b"), Thought("c")];
      CloseReasoning(OnPieces(d, start, pieces, pieces)).events ==
        CloseReasoning(OnText(OnThought(start, "a"), "b")).events +
        [ItemAdded(2, ReasoningItem), PartAdded(2), ReasoningDelta(2, "c"), ReasoningDone(2, "ac"), PartDone(2),
          ItemDone(2)]
  {
    ThoughtTextThought(d, start);
    ThoughtThenText(start);
    ThoughtAgain(OnText(OnThought(start, "a"), "b"));
  }

  // ---------------------------------------------------------------- the loops over a stream

  method RelayTools(d: Decoder, r: Relay, tools: seq<ToolDelta>, current: Output, ghost whole: seq<Piece>)
    returns (r': Relay)
    requires Totals(current, whole)
    ensures r' == OnPieces(d, r, whole, ToolPieces(tools, |tools|))
  {
    r' := r;
    for k := 0 to |tools|
      invariant r' == OnPieces(d, r, whole, ToolPieces(tools, k))
    {
      var index := ToolIndex(tools[k], k);
      OnOneMore(d, r, whole, ToolPieces(tools, k), Tool(index, tools[k]));
      assert CallAt(current, index).arguments == ArgumentsOf(whole, index);
      r' := OnTool(d, r', index, tools[k], CallAt(current, index).arguments);
    }
  }

  method RelayChoice(d: Decoder, r: Relay, choice: Choice, current: Output, ghost whole: seq<Piece>) returns (r': Relay)
    requires Totals(current, whole)
    ensures r' == OnPieces(d, r, whole, ChoicePieces(choice))
  {
    r' := r;
    ghost var read: seq<Piece> := [];
    if choice.reasoning != "" {
      OnOneMore(d, r, whole, read, Thought(choice.reasoning));
      r' := OnThought(r', choice.reasoning);
      read := read + [Thought(choice.reasoning)];
    }
    if choice.content != "" {
      OnOneMore(d, r, whole, read, Text(choice.content));
      r' := OnText(r', choice.content);
      read := read + [Text(choice.content)];
    }
    assert read == TextPieces(choice);
    OnMore(d, r, whole, read, ToolPieces(choice.tools, |choice.tools|), ChoicePieces(choice));
    r' := RelayTools(d, r', choice.tools, current, whole);
  }

  lemma OneMoreChoice(d: Decoder, r: Relay, whole: seq<Piece>, chunk: Chunk, n: nat)
    requires n < |chunk|
    ensures OnPieces(d, r, whole, ChunkPieces(chunk, n + 1)) ==
      OnPieces(d, OnPieces(d, r, whole, ChunkPieces(chunk, n)), whole, ChoicePieces(chunk[n]))
  {
    OnMore(d, r, whole, ChunkPieces(chunk, n), ChoicePieces(chunk[n]), ChunkPieces(chunk, n + 1));
  }

  method RelayChunk(d: Decoder, r: Relay, chunk: Chunk, current: Output, ghost whole: seq<Piece>) returns (r': Relay)
    requires Totals(current, whole)
    ensures r' == OnPieces(d, r, whole, ChunkPieces(chunk, |chunk|))
  {
    r' := r;
    for n := 0 to |chunk|
      invariant r' == OnPieces(d, r, whole, ChunkPieces(chunk, n))
    {
      OneMoreChoice(d, r, whole, chunk, n);
      r' := RelayChoice(d, r', chunk[n], current, whole);
    }
  }

  /** Relays one frame; its totals are taken before its deltas are sent. */
  method RelayFrame(d: Decoder, r: Relay, output: Output, frame: Frame, ghost c: Client, ghost read: seq<Piece>)
      returns (r': Relay, output': Output, ghost c': Client)
    requires Totals(output, read) && Inv(r, c, read) && AllTold(d, r, c, read) && !d.custom("")
    requires Reasoned(r, c, read)
    ensures Totals(output', read + FramePieces(frame))
    ensures Inv(r', c', read + FramePieces(frame)) && AllTold(d, r', c', read + FramePieces(frame))
    ensures Reasoned(r', c', read + FramePieces(frame))
  {
    ghost var part := FramePieces(frame);
    r', output' := r, output;
    if frame.Payload? {
      output' := Add(output, frame.chunk);
      AddPiecesTotals(output, read, part);
      r' := RelayChunk(d, r, frame.chunk, output', read + part);
    } else {
      assert read + part == read;
    }
    c' := AfterPieces(d, r, c, read + part, part);
    PiecesKeepInv(d, r, c, read, read + part, part);
    FrameKeepsAllTold(d, r, c, read, part);
    FrameIsSpoken(frame);
    PiecesKeepReasoned(d, r, c, read, read + part, part);
  }

  const NOTHING: Output := Output("", "", map[])

  lemma BeginsClean(d: Decoder)
    ensures Totals(NOTHING, []) && Inv(START, NEWCOMER, []) && AllTold(d, START, NEWCOMER, [])
    ensures Reasoned(START, NEWCOMER, [])
  {
    StartsClean(START);
  }

  /** Reads the stream up to its end or its first error. */
  method Consume(d: Decoder, frames: seq<Frame>)
      returns (ok: bool, r: Relay, output: Output, ghost c: Client, ghost n: nat)
    requires !d.custom("")
    ensures n <= |frames| && Totals(output, Pieces(frames, n))
    ensures Inv(r, c, Pieces(frames, n)) && AllTold(d, r, c, Pieces(frames, n)) && Reasoned(r, c, Pieces(frames, n))
    ensures ok <==> Complete(frames)
    ensures ok ==> n == |frames|
  {
    r, output, c, n, ok := START, NOTHING, NEWCOMER, 0, false;
    BeginsClean(d);
    ghost var read: seq<Piece> := [];
    for k := 0 to |frames|
      invariant n == k && read == Pieces(frames, k)
      invariant Totals(output, read) && Inv(r, c, read) && AllTold(d, r, c, read) && Reasoned(r, c, read)
      invariant ok <==> SeenDone(frames, k)
      invariant !Failed(frames, k)
    {
      if frames[k].Failure? {
        CompleteOrNot(frames, k);
        return false, r, output, c, k;
      }
      if frames[k].Done? {
        ok := true;
      }
      r, output, c := RelayFrame(d, r, output, frames[k], c, read);
      read, n := read + FramePieces(frames[k]), k + 1;
    }
    CompleteOrNot(frames, |frames|);
  }
}
