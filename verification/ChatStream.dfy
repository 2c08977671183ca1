/** A decoded upstream stream: frames of chat chunks, and what they add up to. */
module ChatStream {

  datatype ToolDelta = ToolDelta(index: int, id: string, name: string, arguments: string)

  datatype Choice = Choice(content: string, reasoning: string, tools: seq<ToolDelta>)

  type Chunk = seq<Choice>

  /** A frame is a decoded chunk, the end marker, a frame that is no chunk, or an upstream error. */
  datatype Frame = Payload(chunk: Chunk) | Done | Ignored | Failure

  /** A delta without an index takes its position in the chunk. */
  function ToolIndex(delta: ToolDelta, position: nat): int {
    if delta.index == 0 && position > 0 then position else delta.index
  }

  /** The relays read a choice as reasoning, then content, then tool deltas. */
  datatype Piece =
    | Thought(text: string)
    | Text(text: string)
    | Tool(index: int, delta: ToolDelta)

  function ToolPieces(tools: seq<ToolDelta>, n: nat): seq<Piece>
    requires n <= |tools|
  {
    if n == 0 then [] else ToolPieces(tools, n - 1) + [Tool(ToolIndex(tools[n - 1], n - 1), tools[n - 1])]
  }

  /** In a chunk the deltas stay in order; one that gives an index keeps it, and one that gives none, which reads as
      zero, goes by its position, so that two of them are never taken for one tool. */
  lemma {:induction false} PiecesKeepTheirTools(tools: seq<ToolDelta>, n: nat, k: nat)
    requires k < n <= |tools|
    ensures |ToolPieces(tools, n)| == n && ToolPieces(tools, n)[k].Tool?
    ensures ToolPieces(tools, n)[k].delta == tools[k]
    ensures ToolPieces(tools, n)[k].index == if tools[k].index != 0 then tools[k].index else k
  {
    if n > 1 { PiecesKeepTheirTools(tools, n - 1, if k < n - 1 then k else 0); }
  }

  function TextPieces(choice: Choice): seq<Piece> {
    (if choice.reasoning != "" then [Thought(choice.reasoning)] else []) +
    (if choice.content != "" then [Text(choice.content)] else [])
  }

  function ChoicePieces(choice: Choice): seq<Piece> {
    TextPieces(choice) + ToolPieces(choice.tools, |choice.tools|)
  }

  function ChunkPieces(chunk: Chunk, n: nat): seq<Piece>
    requires n <= |chunk|
  {
    if n == 0 then [] else ChunkPieces(chunk, n - 1) + ChoicePieces(chunk[n - 1])
  }

  function FramePieces(frame: Frame): seq<Piece> {
    if frame.Payload? then ChunkPieces(frame.chunk, |frame.chunk|) else []
  }

  /** Everything the first `n` frames deliver, in order. */
  function Pieces(frames: seq<Frame>, n: nat): seq<Piece>
    requires n <= |frames|
  {
    if n == 0 then [] else Pieces(frames, n - 1) + FramePieces(frames[n - 1])
  }

  /** The stream ended properly: no error frame, and the end marker was seen. */
  predicate Complete(frames: seq<Frame>) {
    (forall i :: 0 <= i < |frames| ==> !frames[i].Failure?) && exists i :: 0 <= i < |frames| && frames[i].Done?
  }

  predicate SeenDone(frames: seq<Frame>, n: nat)
    requires n <= |frames|
  {
    n > 0 && (frames[n - 1].Done? || SeenDone(frames, n - 1))
  }

  predicate Failed(frames: seq<Frame>, n: nat)
    requires n <= |frames|
  {
    n > 0 && (frames[n - 1].Failure? || Failed(frames, n - 1))
  }

  lemma {:induction false} SeenAndFailed(frames: seq<Frame>, n: nat)
    requires n <= |frames|
    ensures SeenDone(frames, n) <==> exists i :: 0 <= i < n && frames[i].Done?
    ensures Failed(frames, n) <==> exists i :: 0 <= i < n && frames[i].Failure?
  {
    if n > 0 { SeenAndFailed(frames, n - 1); }
  }

  /** Reading to the end tells whether the stream is complete; a failure on the way tells it is not. */
  lemma CompleteOrNot(frames: seq<Frame>, k: nat)
    requires k <= |frames|
    ensures k == |frames| && !Failed(frames, k) ==> (Complete(frames) <==> SeenDone(frames, k))
    ensures k < |frames| && frames[k].Failure? ==> !Complete(frames)
  {
    SeenAndFailed(frames, k);
  }

  // ---------------------------------------------------------------- totals

  function TextOf(pieces: seq<Piece>): string {
    if pieces == [] then ""
    else
      var last := pieces[|pieces| - 1];
      TextOf(pieces[..|pieces| - 1]) + if last.Text? then last.text else ""
  }

  function ThoughtOf(pieces: seq<Piece>): string {
    if pieces == [] then ""
    else
      var last := pieces[|pieces| - 1];
      ThoughtOf(pieces[..|pieces| - 1]) + if last.Thought? then last.text else ""
  }

  /** All argument fragments of one tool. */
  function ArgumentsOf(pieces: seq<Piece>, index: int): string {
    if pieces == [] then ""
    else
      var last := pieces[|pieces| - 1];
      ArgumentsOf(pieces[..|pieces| - 1], index) +
      if last.Tool? && last.index == index then last.delta.arguments else ""
  }

  /** The tools some delta named. */
  function NamedTools(pieces: seq<Piece>): set<int> {
    if pieces == [] then {}
    else
      var last := pieces[|pieces| - 1];
      NamedTools(pieces[..|pieces| - 1]) + if last.Tool? && last.delta.name != "" then {last.index} else {}
  }

  /** The latest name a tool was given. */
  function NameOf(pieces: seq<Piece>, index: int): string {
    if pieces == [] then ""
    else
      var last := pieces[|pieces| - 1];
      if last.Tool? && last.index == index && last.delta.name != "" then last.delta.name
      else NameOf(pieces[..|pieces| - 1], index)
  }

  /** A tool's argument fragments from the first delta that names it; earlier ones are not counted. */
  function ArgumentsSinceNaming(pieces: seq<Piece>, index: int): string {
    if pieces == [] then ""
    else
      var before := pieces[..|pieces| - 1];
      var last := pieces[|pieces| - 1];
      ArgumentsSinceNaming(before, index) +
      if last.Tool? && last.index == index && (index in NamedTools(before) || last.delta.name != "")
      then last.delta.arguments else ""
  }

  lemma Extend(pieces: seq<Piece>, piece: Piece, index: int)
    ensures (pieces + [piece])[..|pieces|] == pieces
    ensures TextOf(pieces + [piece]) == TextOf(pieces) + if piece.Text? then piece.text else ""
    ensures ThoughtOf(pieces + [piece]) == ThoughtOf(pieces) + if piece.Thought? then piece.text else ""
    ensures ArgumentsOf(pieces + [piece], index) == ArgumentsOf(pieces, index) +
      if piece.Tool? && piece.index == index then piece.delta.arguments else ""
    ensures NameOf(pieces + [piece], index) ==
      if piece.Tool? && piece.index == index && piece.delta.name != "" then piece.delta.name else NameOf(pieces, index)
    ensures NamedTools(pieces + [piece]) == NamedTools(pieces) +
      if piece.Tool? && piece.delta.name != "" then {piece.index} else {}
    ensures ArgumentsSinceNaming(pieces + [piece], index) == ArgumentsSinceNaming(pieces, index) +
      if piece.Tool? && piece.index == index && (index in NamedTools(pieces) || piece.delta.name != "")
      then piece.delta.arguments else ""
  {
    assert (pieces + [piece])[..|pieces|] == pieces;
  }
}
