/** The end of a Responses stream: completing the open items and summing up. */
module ResponsesFinish {
  import opened ChatStream
  import opened ChatOutput
  import opened ResponsesRelay
  import opened ResponsesReasoning
  import opened ResponsesStream
  import opened Sorting
  import Strings

  // ---------------------------------------------------------------- call arguments

  /** A custom tool's arguments are free text; another tool's must be JSON, or blank. */
  predicate ValidCall(d: Decoder, call: Call) {
    d.custom(call.name) || Strings.Trim(call.arguments) == "" || d.valid(Strings.Trim(call.arguments))
  }

  function Normal(d: Decoder, call: Call): Call {
    if d.custom(call.name) then call
    else call.(arguments := if Strings.Trim(call.arguments) == "" then "{}" else Strings.Trim(call.arguments))
  }

  /** `validateProxyToolCallArguments`: rejects the batch at its first invalid call. */
  method Validate(d: Decoder, calls: seq<Call>) returns (ok: bool, checked: seq<Call>)
    ensures ok <==> forall k :: 0 <= k < |calls| ==> ValidCall(d, calls[k])
    ensures ok ==> |checked| == |calls| && forall k :: 0 <= k < |calls| ==> checked[k] == Normal(d, calls[k])
  {
    checked := [];
    for k := 0 to |calls|
      invariant |checked| == k
      invariant forall j :: 0 <= j < k ==> ValidCall(d, calls[j]) && checked[j] == Normal(d, calls[j])
    {
      var call := calls[k];
      if !d.custom(call.name) {
        var arguments := Strings.Trim(call.arguments);
        if arguments == "" {
          call := call.(arguments := "{}");
        } else if !d.valid(arguments) {
          return false, checked;
        } else {
          call := call.(arguments := arguments);
        }
      }
      checked := checked + [call];
    }
    ok := true;
  }

  /** What a call's item is completed with. */
  function Value(d: Decoder, call: Call): string {
    if d.custom(call.name) then d.input(call.arguments) else call.arguments
  }

  // ---------------------------------------------------------------- completing the tool items

  /** Tool output `b` is open until its own index has come up among the first `k` calls. */
  ghost predicate Pending(outputs: map<int, nat>, k: nat, b: nat) {
    exists i :: i in outputs && outputs[i] == b && !(0 <= i < k)
  }

  ghost predicate FinalMatches(r: Relay, c: Client, k: nat) {
    && c.next == r.next && !c.ended && OneOutputEach(r.outputs)
    && (forall i :: i in r.outputs ==> r.outputs[i] < r.next)
    && (forall b :: b in c.open <==> Pending(r.outputs, k, b))
    && (forall b :: b in c.open ==> c.open[b] == Slot(ToolItem, false))
    && (forall b :: b in c.inputs ==> b < c.next && b !in c.open)
  }

  /** The input a call's item is handed in one delta before it is done; none for a plain tool. */
  function InputFor(d: Decoder, call: Call): string {
    if d.custom(call.name) then d.input(call.arguments) else ""
  }

  /** Completing call `k` closes its item, or adds and closes one of its own. */
  function AfterCall(d: Decoder, r: Relay, c: Client, k: nat, call: Call): Client {
    var announced := k in r.outputs;
    var b := if announced then r.outputs[k] else c.next;
    c.(next := if announced then c.next else c.next + 1,
       open := if announced then c.open - {b} else c.open,
       results := c.results[b := Value(d, call)],
       inputs := if InputFor(d, call) != "" then c.inputs[b := InputFor(d, call)] else c.inputs)
  }

  lemma AfterCallMatches(d: Decoder, r: Relay, c: Client, k: nat, call: Call, r': Relay)
    requires FinalMatches(r, c, k) && r'.outputs == r.outputs
    requires r'.next == if k in r.outputs then r.next else r.next + 1
    ensures FinalMatches(r', AfterCall(d, r, c, k, call), k + 1)
  {
    var c' := AfterCall(d, r, c, k, call);
    forall b ensures b in c'.open <==> Pending(r.outputs, k + 1, b) {
      assert b in c.open <==> Pending(r.outputs, k, b);
    }
  }

  lemma FinishReads(events: seq<Event>, c: Client, b: nat, done: Event, value: string)
    requires Read(events) == Accepted(c) && !c.ended && Live(c, b, ToolItem)
    requires done == ArgumentsDone(b, value) || (done == InputDone(b, value) && InputAt(c, b) == value)
    ensures Read(events + [done] + [ItemDone(b)]) ==
      Accepted(c.(open := c.open - {b}, results := c.results[b := value]))
  {
    var sealed := Sealed(c, b).(results := c.results[b := value]);
    ReadsOneMore(events, c, done);
    ReadsOneMore(events + [done], sealed, ItemDone(b));
    assert sealed.open - {b} == c.open - {b};
  }

  lemma InputReads(events: seq<Event>, c: Client, b: nat, input: string)
    requires Read(events) == Accepted(c) && !c.ended && Live(c, b, ToolItem) && b !in c.inputs
    ensures Read(events + [InputDelta(b, input)]) == Accepted(c.(inputs := c.inputs[b := input]))
  {
    ReadsOneMore(events, c, InputDelta(b, input));
    assert "" + input == input;
  }

  lemma PlainOpen(r: Relay, c: Client, k: nat)
    requires FinalMatches(r, c, k)
    ensures k in r.outputs ==> Live(c, r.outputs[k], ToolItem) && r.outputs[k] !in c.inputs
    ensures k !in r.outputs ==> c.next !in c.open && c.next !in c.inputs
  {
    if k in r.outputs { assert Pending(r.outputs, k, r.outputs[k]); }
  }

  /** The output index a call is completed under; one never announced is added first. */
  method Place(r: Relay, k: nat, ghost c: Client) returns (r': Relay, index: nat, ghost live: Client)
    requires Read(r.events) == Accepted(c) && FinalMatches(r, c, k)
    ensures live == if k in r.outputs then c else AfterOpen(c, ToolItem)
    ensures Read(r'.events) == Accepted(live) && Live(live, index, ToolItem) && index !in live.inputs
    ensures index == if k in r.outputs then r.outputs[k] else r.next
    ensures r'.outputs == r.outputs && r'.next == if k in r.outputs then r.next else r.next + 1
  {
    PlainOpen(r, c, k);
    if k in r.outputs {
      return r, r.outputs[k], c;
    }
    ReadsOneMore(r.events, c, ItemAdded(r.next, ToolItem));
    return AddItem(r, ToolItem), r.next, AfterOpen(c, ToolItem);
  }

  method CompleteItem(d: Decoder, r: Relay, index: nat, call: Call, ghost live: Client) returns (r': Relay)
    requires Read(r.events) == Accepted(live) && Live(live, index, ToolItem) && !live.ended && index !in live.inputs
    ensures Read(r'.events) == Accepted(live.(
      open := live.open - {index}, results := live.results[index := Value(d, call)],
      inputs := if InputFor(d, call) != "" then live.inputs[index := InputFor(d, call)] else live.inputs))
    ensures r' == r.(events := r'.events)
  {
    var events := r.events;
    if d.custom(call.name) {
      var input := d.input(call.arguments);
      ghost var told := live;
      if input != "" {
        InputReads(events, live, index, input);
        events := events + [InputDelta(index, input)];
        told := live.(inputs := live.inputs[index := input]);
      }
      FinishReads(events, told, index, InputDone(index, input), input);
      events := events + [InputDone(index, input)];
    } else {
      FinishReads(events, live, index, ArgumentsDone(index, call.arguments), call.arguments);
      events := events + [ArgumentsDone(index, call.arguments)];
    }
    r' := r.(events := events + [ItemDone(index)]);
  }

  /** One call of the final loop. Its item is the one announced under the call's position in the
      list, whatever index the call had upstream. */
  method FinishCall(d: Decoder, r: Relay, k: nat, call: Call, ghost c: Client) returns (r': Relay)
    requires Read(r.events) == Accepted(c) && FinalMatches(r, c, k)
    ensures Read(r'.events) == Accepted(AfterCall(d, r, c, k, call))
    ensures FinalMatches(r', AfterCall(d, r, c, k, call), k + 1) && r'.outputs == r.outputs
  {
    var index; ghost var live;
    r', index, live := Place(r, k, c);
    r' := CompleteItem(d, r', index, call, live);
    PlainOpen(r, c, k);
    assert k !in r.outputs ==> live.open - {index} == c.open;
    AfterCallMatches(d, r, c, k, call, r');
  }

  predicate SameReasoning(c: Client, c': Client) {
    c'.thought == c.thought && c'.thoughts == c.thoughts && c'.summaries == c.summaries && c.next <= c'.next
  }

  /** The announced items below index `k` have the results of the calls at those positions. */
  ghost predicate ResultsAre(d: Decoder, c: Client, outputs: map<int, nat>, calls: seq<Call>, k: nat)
    requires k <= |calls|
  {
    forall j :: 0 <= j < k && j in outputs ==>
      outputs[j] in c.results && c.results[outputs[j]] == Value(d, calls[j])
  }

  /** The final loop: every announced item whose index is below the number of calls is completed
      with the call at that position. */
  method FinishCalls(d: Decoder, r: Relay, calls: seq<Call>, ghost c: Client) returns (r': Relay, ghost c': Client)
    requires Read(r.events) == Accepted(c) && FinalMatches(r, c, 0)
    ensures Read(r'.events) == Accepted(c') && FinalMatches(r', c', |calls|) && r'.outputs == r.outputs
    ensures c'.text == c.text && c'.arguments == c.arguments && SameReasoning(c, c')
    ensures ResultsAre(d, c', r.outputs, calls, |calls|)
  {
    r', c' := r, c;
    for k := 0 to |calls|
      invariant Read(r'.events) == Accepted(c') && FinalMatches(r', c', k) && r'.outputs == r.outputs
      invariant c'.text == c.text && c'.arguments == c.arguments && SameReasoning(c, c')
      invariant ResultsAre(d, c', r.outputs, calls, k)
    {
      ghost var before := c';
      c' := AfterCall(d, r', before, k, calls[k]);
      r' := FinishCall(d, r', k, calls[k], before);
    }
  }

  /** Once the text and reasoning items are done, what is open are the tool items. */
  lemma OnlyToolsLeft(r: Relay, c: Client, c': Client)
    requires Matches(r, c) && !r.reasoningStarted && c.inputs == map[]
    requires c' == if r.textStarted then c.(open := c.open - {r.textIndex}) else c
    ensures FinalMatches(r, c', 0)
  {
    forall b ensures b in c'.open <==> Pending(r.outputs, 0, b) {
      if b in c'.open {
        assert IsOutput(r.outputs, b);
        var i :| i in r.outputs && r.outputs[i] == b;
      }
    }
  }

  /** The text item is done with all of the content. */
  method FinishText(r: Relay, content: string, ghost c: Client) returns (r': Relay)
    requires Read(r.events) == Accepted(c) && content == c.text && !c.ended
    requires r.textStarted ==> Live(c, r.textIndex, MessageItem)
    ensures Read(r'.events) == Accepted(if r.textStarted then c.(open := c.open - {r.textIndex}) else c)
    ensures r' == r.(events := r'.events)
  {
    if !r.textStarted {
      return r;
    }
    SealAndClose(r.events, c, r.textIndex, TextDone(r.textIndex, content), Sealed(c, r.textIndex));
    r' := Write(Write(Write(r, TextDone(r.textIndex, content)), PartDone(r.textIndex)), ItemDone(r.textIndex));
  }

  lemma NothingPending(outputs: map<int, nat>, open: map<nat, Slot>)
    requires forall b :: b in open <==> Pending(outputs, |outputs.Keys|, b)
    ensures open == map[] <==> Contiguous(outputs.Keys)
  {
    if Contiguous(outputs.Keys) {
      assert forall b :: b !in open;
    } else {
      var i :| i in outputs.Keys && !(0 <= i < |outputs.Keys|);
      assert Pending(outputs, |outputs.Keys|, outputs[i]);
    }
  }

  // ---------------------------------------------------------------- the whole relay

  ghost predicate AllValid(d: Decoder, pieces: seq<Piece>) {
    forall i :: i in NamedTools(pieces) ==> ValidCall(d, Call(NameOf(pieces, i), ArgumentsOf(pieces, i)))
  }

  /** What the client has heard before the terminal event: all text and reasoning; every plain tool's
      arguments whole, whenever its name came; none of a custom tool's; and, for contiguous tool indexes,
      every named tool's item completed, a plain tool's with its arguments trimmed, or `{}` when they are
      blank, and a custom tool's with the input they hold. */
  ghost predicate Faithful(d: Decoder, c: Client, outputs: map<int, nat>, pieces: seq<Piece>) {
    && c.text == TextOf(pieces) && c.thought == ThoughtOf(pieces)
    && outputs.Keys == NamedTools(pieces) && OneOutputEach(outputs)
    && (forall i :: i in outputs && Plain(d, pieces, i) ==> ArgumentsAt(c, outputs[i]) == ArgumentsOf(pieces, i))
    && (forall i :: i in outputs && Custom(d, pieces, i) ==> ArgumentsAt(c, outputs[i]) == "")
    && (Contiguous(NamedTools(pieces)) ==> forall i :: i in outputs ==> Completed(d, c, outputs[i], pieces, i))
  }

  ghost predicate Completed(d: Decoder, c: Client, b: nat, pieces: seq<Piece>, i: int) {
    && b in c.results
    && c.results[b] ==
         if d.custom(NameOf(pieces, i)) then d.input(ArgumentsOf(pieces, i))
         else if Strings.Trim(ArgumentsOf(pieces, i)) == "" then "{}"
         else Strings.Trim(ArgumentsOf(pieces, i))
  }

  /** The calls are the named tools in ascending order of index, a plain tool's with its arguments trimmed, or
      `{}` when they are blank, and a custom tool's with its arguments as they came. */
  ghost predicate TheTools(d: Decoder, calls: seq<Call>, indexes: seq<int>, pieces: seq<Piece>) {
    && Ascending(indexes) && |calls| == |indexes| && (forall i :: i in indexes <==> i in NamedTools(pieces))
    && forall k :: 0 <= k < |calls| ==>
         var name, arguments := NameOf(pieces, indexes[k]), ArgumentsOf(pieces, indexes[k]);
         calls[k] == Call(name, if d.custom(name) then arguments
                                else if Strings.Trim(arguments) == "" then "{}" else Strings.Trim(arguments))
  }

  lemma CheckedAreTheTools(d: Decoder, output: Output, pieces: seq<Piece>, calls: seq<Call>, indexes: seq<int>,
                           checked: seq<Call>)
    requires Totals(output, pieces) && Ascending(indexes) && |calls| == |indexes| == |checked|
    requires forall j :: j in indexes <==> j in NamedTools(pieces)
    requires forall k :: 0 <= k < |calls| ==> calls[k] == CallAt(output, indexes[k])
    requires forall k :: 0 <= k < |calls| ==> checked[k] == Normal(d, calls[k])
    ensures TheTools(d, checked, indexes, pieces)
  {
    forall k | 0 <= k < |calls| ensures calls[k] == Call(NameOf(pieces, indexes[k]), ArgumentsOf(pieces, indexes[k])) {
      assert calls[k] == CallAt(output, indexes[k]);
    }
  }

  lemma CallsAreTheTools(d: Decoder, output: Output, pieces: seq<Piece>, calls: seq<Call>, indexes: seq<int>)
    requires Totals(output, pieces) && |calls| == |indexes|
    requires forall i :: i in indexes <==> i in NamedTools(pieces)
    requires forall k :: 0 <= k < |calls| ==> calls[k] == CallAt(output, indexes[k])
    ensures AllValid(d, pieces) <==> forall k :: 0 <= k < |calls| ==> ValidCall(d, calls[k])
  {
    if forall k :: 0 <= k < |calls| ==> ValidCall(d, calls[k]) {
      forall i | i in NamedTools(pieces) ensures ValidCall(d, Call(NameOf(pieces, i), ArgumentsOf(pieces, i))) {
        assert i in indexes;
        var k :| 0 <= k < |indexes| && indexes[k] == i;
        assert calls[k] == CallAt(output, i);
      }
    } else {
      var k :| 0 <= k < |calls| && !ValidCall(d, calls[k]);
      assert indexes[k] in indexes && calls[k] == CallAt(output, indexes[k]);
    }
  }

  /** With contiguous indexes, call `i` is the tool `i`. */
  lemma ToolIsCompleted(d: Decoder, pieces: seq<Piece>, indexes: seq<int>, checked: seq<Call>, c: Client,
                        outputs: map<int, nat>, i: int)
    requires TheTools(d, checked, indexes, pieces) && |checked| == |NamedTools(pieces)|
    requires ResultsAre(d, c, outputs, checked, |checked|)
    requires Contiguous(NamedTools(pieces)) && i in outputs && i in NamedTools(pieces)
    ensures Completed(d, c, outputs[i], pieces, i)
  {
    ContiguousIsIdentity(indexes, NamedTools(pieces), i);
    assert checked[i].name == NameOf(pieces, indexes[i]);
  }

  lemma FinalIsFaithful(d: Decoder, r: Relay, before: Client, c: Client, pieces: seq<Piece>)
    requires Inv(r, before, pieces) && AllTold(d, r, before, pieces)
    requires c.text == before.text && c.thought == before.thought && c.arguments == before.arguments
    requires Contiguous(NamedTools(pieces)) ==> forall i :: i in r.outputs ==> Completed(d, c, r.outputs[i], pieces, i)
    ensures Faithful(d, c, r.outputs, pieces)
  {
    forall i | i in r.outputs && Plain(d, pieces, i) ensures ArgumentsAt(c, r.outputs[i]) == ArgumentsOf(pieces, i) {
      assert Told(r, before, i, NameOf(pieces, i), ArgumentsOf(pieces, i));
    }
    forall i | i in r.outputs && Custom(d, pieces, i) ensures ArgumentsAt(c, r.outputs[i]) == "" {
      assert Hushed(d, r, before, i);
    }
  }

  lemma AllIsHeard(d: Decoder, r: Relay, before: Client, c: Client, indexes: seq<int>, checked: seq<Call>,
                   pieces: seq<Piece>)
    requires Inv(r, before, pieces) && AllTold(d, r, before, pieces) && ReasoningTold(before, pieces)
    requires c.text == before.text && c.arguments == before.arguments && SameReasoning(before, c)
    requires TheTools(d, checked, indexes, pieces) && |checked| == |NamedTools(pieces)|
    requires ResultsAre(d, c, r.outputs, checked, |checked|)
    requires forall b :: b in c.open <==> Pending(r.outputs, |checked|, b)
    ensures Faithful(d, c, r.outputs, pieces) && ReasoningTold(c, pieces)
    ensures c.open == map[] <==> Contiguous(NamedTools(pieces))
  {
    forall i | Contiguous(NamedTools(pieces)) && i in r.outputs ensures Completed(d, c, r.outputs[i], pieces, i) {
      ToolIsCompleted(d, pieces, indexes, checked, c, r.outputs, i);
    }
    FinalIsFaithful(d, r, before, c, pieces);
    StillTold(before, c, pieces);
    NothingPending(r.outputs, c.open);
  }

  lemma EndReads(events: seq<Event>, c: Client, e: Event)
    requires Read(events) == Accepted(c) && !c.ended && e.Terminal? && e.content == c.text && e.reasoning == c.thought
    ensures (events + [e])[..|events + [e]| - 1] == events
    ensures Read(events + [e]).Accepted? <==> c.open == map[]
  {
    ReadsOneMore(events, c, e);
    assert (events + [e])[..|events|] == events;
  }

  /** Completes every item after a complete stream, and ends the response. */
  method Finish(d: Decoder, r: Relay, output: Output, checked: seq<Call>, ghost indexes: seq<int>, ghost c: Client,
                ghost pieces: seq<Piece>)
      returns (events: seq<Event>, ghost heard: Client)
    requires Inv(r, c, pieces) && AllTold(d, r, c, pieces) && !r.reasoningStarted && Totals(output, pieces)
    requires ReasoningTold(c, pieces)
    requires TheTools(d, checked, indexes, pieces) && |checked| == |NamedTools(pieces)|
    ensures |events| > 0 && events[|events| - 1] == Terminal(TextOf(pieces), ThoughtOf(pieces), checked)
    ensures Read(events[..|events| - 1]) == Accepted(heard) && Faithful(d, heard, r.outputs, pieces)
    ensures ReasoningTold(heard, pieces)
    ensures Read(events).Accepted? <==> Contiguous(NamedTools(pieces))
  {
    var told := FinishText(r, output.content, c);
    ghost var begun := if r.textStarted then c.(open := c.open - {r.textIndex}) else c;
    OnlyToolsLeft(r, c, begun);
    var done;
    done, heard := FinishCalls(d, told, checked, begun);
    AllIsHeard(d, r, c, heard, indexes, checked, pieces);
    EndReads(done.events, heard, Terminal(output.content, output.reasoning, checked));
    events := done.events + [Terminal(output.content, output.reasoning, checked)];
  }

  /** The whole relay succeeds exactly when the stream completed and every named call is valid. Then
      the client heard everything faithfully before the terminal event, and accepts the terminal
      event -- no item left open -- exactly when the named tools' indexes are 0, 1, ..., m-1. On
      failure it accepted everything sent so far. */
  method RelayResponsesStream(d: Decoder, frames: seq<Frame>)
      returns (ok: bool, events: seq<Event>, ghost outputs: map<int, nat>, ghost heard: Client)
    requires !d.custom("")
    ensures ok <==> Complete(frames) && AllValid(d, Pieces(frames, |frames|))
    ensures !ok ==> Read(events) == Accepted(heard) && !heard.ended
    ensures ok ==> var pieces := Pieces(frames, |frames|);
      && |events| > 0 && Read(events[..|events| - 1]) == Accepted(heard)
      && Faithful(d, heard, outputs, pieces) && ReasoningTold(heard, pieces)
      && (exists calls, indexes :: events[|events| - 1] == Terminal(TextOf(pieces), ThoughtOf(pieces), calls) &&
                                   TheTools(d, calls, indexes, pieces))
      && (Read(events).Accepted? <==> Contiguous(NamedTools(pieces)))
  {
    hide Faithful, TheTools, ReasoningTold, AllTold, AllValid, ValidCall;
    var r, output; ghost var c, n;
    ok, r, output, c, n := Consume(d, frames);
    ghost var pieces := Pieces(frames, n);
    outputs, heard := r.outputs, c;
    if !ok {
      return ok, r.events, outputs, heard;
    }
    CloseKeepsInv(r, c, pieces);
    CloseKeepsAllTold(d, r, c, pieces);
    EndTellsReasoning(r, c, pieces);
    r, heard := CloseReasoning(r), AfterClose(r, c);
    var calls, indexes := Calls(output, pieces);
    var checked;
    CallsAreTheTools(d, output, pieces, calls, indexes);
    ok, checked := Validate(d, calls);
    if !ok {
      return ok, r.events, outputs, heard;
    }
    CheckedAreTheTools(d, output, pieces, calls, indexes, checked);
    events, heard := Finish(d, r, output, checked, indexes, heard, pieces);
  }

  lemma CloseKeepsAllTold(d: Decoder, r: Relay, c: Client, pieces: seq<Piece>)
    requires AllTold(d, r, c, pieces)
    ensures AllTold(d, CloseReasoning(r), AfterClose(r, c), pieces)
  {
    forall i | Plain(d, pieces, i)
      ensures Told(CloseReasoning(r), AfterClose(r, c), i, NameOf(pieces, i), ArgumentsOf(pieces, i))
    {
      CloseKeepsTold(r, c, i, NameOf(pieces, i), ArgumentsOf(pieces, i));
    }
    forall i | Custom(d, pieces, i) ensures Hushed(d, CloseReasoning(r), AfterClose(r, c), i) {
      assert Hushed(d, r, c, i);
    }
  }

  lemma OneToolPieces(delta: ToolDelta)
    ensures Pieces([Payload([Choice("", "", [delta])]), Done], 2) == [Tool(delta.index, delta)]
  {
    var choice := Choice("", "", [delta]);
    var frames := [Payload([choice]), Done];
    assert ToolPieces([delta], 0) == [];
    assert ToolPieces([delta], 1) == [Tool(delta.index, delta)];
    assert ChoicePieces(choice) == [Tool(delta.index, delta)];
    assert ChunkPieces([choice], 0) == [] && ChunkPieces([choice], 1) == [Tool(delta.index, delta)];
    assert Pieces(frames, 0) == [] && Pieces(frames, 1) == [Tool(delta.index, delta)];
  }

  /** Frames that leave an item open: one named tool, of index 1. The stream completes and its call is
      valid, so the relay succeeds; the client rejects the terminal event. */
  method ToolOneStaysOpen(d: Decoder, frames: seq<Frame>) returns (events: seq<Event>)
    requires !d.custom("") && frames == [Payload([Choice("", "", [ToolDelta(1, "t", "f", "")])]), Done]
    ensures Read(events) == Rejected
    ensures |events| > 0 && Read(events[..|events| - 1]).Accepted? && events[|events| - 1].Terminal?
  {
    var delta := ToolDelta(1, "t", "f", "");
    OneToolPieces(delta);
    assert frames[1].Done?;
    Extend([], Tool(1, delta), 1);
    assert [] + [Tool(1, delta)] == [Tool(1, delta)];
    var ok; ghost var outputs, heard;
    ok, events, outputs, heard := RelayResponsesStream(d, frames);
    assert Strings.Trim("") == "";
    assert 1 in NamedTools([Tool(1, delta)]) && |NamedTools([Tool(1, delta)])| == 1;
  }
}
