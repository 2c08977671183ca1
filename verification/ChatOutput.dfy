/** What a whole upstream stream added up to, whatever its chunking. */
module ChatOutput {
  import opened ChatStream
  import Sorting

  datatype Call = Call(name: string, arguments: string)

  datatype Output = Output(content: string, reasoning: string, calls: map<int, Call>)

  function CallAt(o: Output, index: int): Call {
    if index in o.calls then o.calls[index] else Call("", "")
  }

  ghost predicate Totals(o: Output, pieces: seq<Piece>) {
    && o.content == TextOf(pieces)
    && o.reasoning == ThoughtOf(pieces)
    && forall i :: CallAt(o, i) == Call(NameOf(pieces, i), ArgumentsOf(pieces, i))
  }

  function AddPiece(o: Output, piece: Piece): Output {
    match piece
    case Thought(text) => o.(reasoning := o.reasoning + text)
    case Text(text) => o.(content := o.content + text)
    case Tool(index, delta) =>
      var call := CallAt(o, index);
      o.(calls := o.calls[index := Call(if delta.name != "" then delta.name else call.name,
                                        call.arguments + delta.arguments)])
  }

  function AddPieces(o: Output, pieces: seq<Piece>): Output {
    if pieces == [] then o else AddPiece(AddPieces(o, pieces[..|pieces| - 1]), pieces[|pieces| - 1])
  }

  lemma AddOneMore(o: Output, pieces: seq<Piece>, piece: Piece)
    ensures AddPieces(o, pieces + [piece]) == AddPiece(AddPieces(o, pieces), piece)
  {
    assert (pieces + [piece])[..|pieces|] == pieces;
  }

  lemma {:induction false} AddMore(o: Output, a: seq<Piece>, b: seq<Piece>, all: seq<Piece>)
    requires all == a + b
    ensures AddPieces(o, all) == AddPieces(AddPieces(o, a), b)
    decreases |b|
  {
    if b == [] {
      assert all == a;
    } else {
      var before, last := b[..|b| - 1], b[|b| - 1];
      assert all == (a + before) + [last] && b == before + [last];
      AddMore(o, a, before, a + before);
      AddOneMore(o, a + before, last);
      AddOneMore(AddPieces(o, a), before, last);
    }
  }

  lemma AddPieceTotals(o: Output, read: seq<Piece>, piece: Piece)
    requires Totals(o, read)
    ensures Totals(AddPiece(o, piece), read + [piece])
  {
    Extend(read, piece, 0);
    forall i ensures CallAt(AddPiece(o, piece), i) == Call(NameOf(read + [piece], i), ArgumentsOf(read + [piece], i)) {
      Extend(read, piece, i);
    }
  }

  /** The accumulator adds up to the totals of what it was given. */
  lemma {:induction false} AddPiecesTotals(o: Output, read: seq<Piece>, pieces: seq<Piece>)
    requires Totals(o, read)
    ensures Totals(AddPieces(o, pieces), read + pieces)
  {
    if pieces == [] {
      assert read + pieces == read;
    } else {
      var before, last := pieces[..|pieces| - 1], pieces[|pieces| - 1];
      AddPiecesTotals(o, read, before);
      AddPieceTotals(AddPieces(o, before), read + before, last);
      assert read + pieces == read + before + [last];
    }
  }

  method AddTools(o: Output, tools: seq<ToolDelta>) returns (o': Output)
    ensures o' == AddPieces(o, ToolPieces(tools, |tools|))
  {
    o' := o;
    for k := 0 to |tools|
      invariant o' == AddPieces(o, ToolPieces(tools, k))
    {
      var index := ToolIndex(tools[k], k);
      AddOneMore(o, ToolPieces(tools, k), Tool(index, tools[k]));
      o' := AddPiece(o', Tool(index, tools[k]));
    }
  }

  /** Content and reasoning are kept apart, so adding the content first changes nothing. */
  lemma TextThenThought(o: Output, choice: Choice)
    ensures AddPieces(o, TextPieces(choice)) ==
      o.(content := o.content + choice.content, reasoning := o.reasoning + choice.reasoning)
  {
    var thought: seq<Piece> := if choice.reasoning != "" then [Thought(choice.reasoning)] else [];
    var text: seq<Piece> := if choice.content != "" then [Text(choice.content)] else [];
    AddMore(o, thought, text, TextPieces(choice));
    AddOneMore(o, [], Thought(choice.reasoning));
    AddOneMore(AddPieces(o, thought), [], Text(choice.content));
    assert [] + [Thought(choice.reasoning)] == [Thought(choice.reasoning)];
    assert [] + [Text(choice.content)] == [Text(choice.content)];
  }

  method AddChoice(o: Output, choice: Choice) returns (o': Output)
    ensures o' == AddPieces(o, ChoicePieces(choice))
  {
    o' := o;
    if choice.content != "" {
      o' := o'.(content := o'.content + choice.content);
    }
    if choice.reasoning != "" {
      o' := o'.(reasoning := o'.reasoning + choice.reasoning);
    }
    TextThenThought(o, choice);
    AddMore(o, TextPieces(choice), ToolPieces(choice.tools, |choice.tools|), ChoicePieces(choice));
    o' := AddTools(o', choice.tools);
  }

  lemma OneMoreChoice(o: Output, chunk: Chunk, n: nat)
    requires n < |chunk|
    ensures AddPieces(o, ChunkPieces(chunk, n + 1)) ==
      AddPieces(AddPieces(o, ChunkPieces(chunk, n)), ChoicePieces(chunk[n]))
  {
    AddMore(o, ChunkPieces(chunk, n), ChoicePieces(chunk[n]), ChunkPieces(chunk, n + 1));
  }

  /** Adds a chunk to the totals. */
  method Add(o: Output, chunk: Chunk) returns (o': Output)
    ensures o' == AddPieces(o, ChunkPieces(chunk, |chunk|))
  {
    o' := o;
    for n := 0 to |chunk|
      invariant o' == AddPieces(o, ChunkPieces(chunk, n))
    {
      OneMoreChoice(o, chunk, n);
      o' := AddChoice(o', chunk[n]);
    }
  }

  lemma {:induction false} NamedHasName(pieces: seq<Piece>, index: int)
    ensures index in NamedTools(pieces) <==> NameOf(pieces, index) != ""
  {
    if pieces != [] { NamedHasName(pieces[..|pieces| - 1], index); }
  }

  lemma NamedIndexes(o: Output, pieces: seq<Piece>, indexes: seq<int>)
    requires Totals(o, pieces) && Sorting.Ascending(indexes)
    requires forall i :: i in indexes <==> i in o.calls && CallAt(o, i).name != ""
    ensures forall i :: i in indexes <==> i in NamedTools(pieces)
    ensures |indexes| == |NamedTools(pieces)|
  {
    forall i ensures i in indexes <==> i in NamedTools(pieces) {
      NamedHasName(pieces, i);
      assert CallAt(o, i).name == NameOf(pieces, i);
    }
    Sorting.CountsKeys(indexes, NamedTools(pieces));
  }

  /** The named calls in ascending order of their index. */
  method Calls(o: Output, ghost pieces: seq<Piece>) returns (calls: seq<Call>, indexes: seq<int>)
    requires Totals(o, pieces)
    ensures Sorting.Ascending(indexes) && |indexes| == |NamedTools(pieces)| == |calls|
    ensures forall i :: i in indexes <==> i in NamedTools(pieces)
    ensures forall k :: 0 <= k < |calls| ==> calls[k] == CallAt(o, indexes[k])
  {
    var sorted := Sorting.SortedKeys(o.calls.Keys);
    calls, indexes := [], [];
    for n := 0 to |sorted|
      invariant Sorting.Ascending(indexes) && |indexes| == |calls|
      invariant forall k :: 0 <= k < |calls| ==> calls[k] == CallAt(o, indexes[k])
      invariant forall i :: i in indexes <==> i in sorted[..n] && CallAt(o, i).name != ""
      invariant n < |sorted| ==> forall i :: i in indexes ==> i < sorted[n]
    {
      assert sorted[..n + 1] == sorted[..n] + [sorted[n]];
      assert sorted[n] in sorted;
      var call := o.calls[sorted[n]];
      if call.name != "" {
        calls, indexes := calls + [call], indexes + [sorted[n]];
      }
    }
    assert sorted[..|sorted|] == sorted;
    NamedIndexes(o, pieces, indexes);
  }
}
