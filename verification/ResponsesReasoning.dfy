/** The reasoning items of a Responses stream, and what each one is done with. */
module ResponsesReasoning {
  import opened ChatStream
  import opened ResponsesRelay

  // ---------------------------------------------------------------- stretches of reasoning upstream

  predicate EndsInThought(pieces: seq<Piece>) {
    pieces != [] && pieces[|pieces| - 1].Thought?
  }

  /** Stretches of reasoning, each ended by text or a tool. */
  function Bursts(pieces: seq<Piece>): nat {
    if pieces == [] then 0
    else
      var before := pieces[..|pieces| - 1];
      Bursts(before) + if EndsInThought(pieces) && !EndsInThought(before) then 1 else 0
  }

  /** A choice without reasoning makes no piece of it. */
  predicate Spoken(pieces: seq<Piece>) {
    forall k :: 0 <= k < |pieces| && pieces[k].Thought? ==> pieces[k].text != ""
  }

  lemma {:induction false} ToolsAreSpoken(tools: seq<ToolDelta>, n: nat)
    requires n <= |tools|
    ensures Spoken(ToolPieces(tools, n))
  {
    if n > 0 { ToolsAreSpoken(tools, n - 1); }
  }

  lemma {:induction false} ChunkIsSpoken(chunk: Chunk, n: nat)
    requires n <= |chunk|
    ensures Spoken(ChunkPieces(chunk, n))
  {
    if n > 0 {
      ChunkIsSpoken(chunk, n - 1);
      ToolsAreSpoken(chunk[n - 1].tools, |chunk[n - 1].tools|);
    }
  }

  lemma FrameIsSpoken(frame: Frame)
    ensures Spoken(FramePieces(frame))
  {
    if frame.Payload? { ChunkIsSpoken(frame.chunk, |frame.chunk|); }
  }

  lemma BurstsOneMore(pieces: seq<Piece>, piece: Piece)
    ensures Bursts(pieces + [piece]) == Bursts(pieces) + if piece.Thought? && !EndsInThought(pieces) then 1 else 0
    ensures EndsInThought(pieces + [piece]) <==> piece.Thought?
  {
    assert (pieces + [piece])[..|pieces|] == pieces;
  }

  // ---------------------------------------------------------------- items by their deltas

  /** The reasoning heard in items below `n`, in order. */
  function HeardBefore(thoughts: map<nat, string>, n: nat): string {
    if n == 0 then "" else HeardBefore(thoughts, n - 1) + if n - 1 in thoughts then thoughts[n - 1] else ""
  }

  lemma {:induction false} SameBelow(a: map<nat, string>, b: map<nat, string>, n: nat)
    requires forall j :: 0 <= j < n ==> (j in a <==> j in b) && (j in a ==> a[j] == b[j])
    ensures HeardBefore(a, n) == HeardBefore(b, n)
  {
    if n > 0 { SameBelow(a, b, n - 1); }
  }

  lemma {:induction false} NothingBetween(thoughts: map<nat, string>, k: nat, n: nat)
    requires k <= n && forall j :: k <= j < n ==> j !in thoughts
    ensures HeardBefore(thoughts, n) == HeardBefore(thoughts, k)
    decreases n
  {
    if k < n { NothingBetween(thoughts, k, n - 1); }
  }

  lemma {:induction false} NothingHeard(thoughts: map<nat, string>, n: nat)
    requires forall j :: j in thoughts ==> thoughts[j] != ""
    ensures HeardBefore(thoughts, n) == "" <==> forall j :: j in thoughts ==> n <= j
  {
    if n > 0 { NothingHeard(thoughts, n - 1); }
  }

  /** All reasoning heard is that of the items in order; and a done item was done with all of it up to
      and including its own. */
  ghost predicate Summed(c: Client) {
    && c.thought == HeardBefore(c.thoughts, c.next)
    && (forall i :: i in c.thoughts ==> i < c.next && c.thoughts[i] != "")
    && (forall i :: i in c.summaries ==> i in c.thoughts && c.summaries[i] == HeardBefore(c.thoughts, i + 1))
  }

  ghost predicate FirstItem(c: Client, i: nat) {
    forall j :: j in c.thoughts ==> i <= j
  }

  /** A done reasoning item's text is its own deltas exactly when no reasoning item came before it. */
  lemma OwnTextExactlyWhenFirst(c: Client, i: nat)
    requires Summed(c) && i in c.summaries
    ensures c.summaries[i] == c.thoughts[i] <==> FirstItem(c, i)
  {
    NothingHeard(c.thoughts, i);
    assert c.summaries[i] == HeardBefore(c.thoughts, i) + c.thoughts[i];
    if c.summaries[i] == c.thoughts[i] {
      assert |HeardBefore(c.thoughts, i)| == 0;
    }
  }

  // ---------------------------------------------------------------- what every step keeps

  /** One item for each stretch of reasoning; all but a live one are done. */
  ghost predicate Tracked(r: Relay, c: Client, pieces: seq<Piece>) {
    && (r.reasoningStarted <==> EndsInThought(pieces))
    && (r.reasoningStarted ==> r.reasoningIndex in c.thoughts && forall j :: j in c.thoughts ==> j <= r.reasoningIndex)
    && c.summaries.Keys == c.thoughts.Keys - (if r.reasoningStarted then {r.reasoningIndex} else {})
    && |c.thoughts| == Bursts(pieces)
  }

  ghost predicate Reasoned(r: Relay, c: Client, pieces: seq<Piece>) {
    Summed(c) && Tracked(r, c, pieces)
  }

  lemma MoreToSay(r: Relay, c: Client, text: string)
    requires Summed(c) && r.reasoningIndex in c.thoughts && forall j :: j in c.thoughts ==> j <= r.reasoningIndex
    requires r.reasoningIndex !in c.summaries
    ensures Summed(Pondered(c, r.reasoningIndex, text))
  {
    var i := r.reasoningIndex;
    var c' := Pondered(c, i, text);
    SameBelow(c.thoughts, c'.thoughts, i);
    NothingBetween(c.thoughts, i + 1, c.next);
    NothingBetween(c'.thoughts, i + 1, c.next);
    forall k | k in c'.summaries ensures c'.summaries[k] == HeardBefore(c'.thoughts, k + 1) {
      SameBelow(c.thoughts, c'.thoughts, k + 1);
    }
  }

  lemma NewThought(c: Client, text: string)
    requires Summed(c) && text != ""
    ensures Summed(Pondered(AfterOpen(c, ReasoningItem), c.next, text))
    ensures c.next !in c.thoughts
  {
    var c' := Pondered(AfterOpen(c, ReasoningItem), c.next, text);
    SameBelow(c.thoughts, c'.thoughts, c.next);
    forall k | k in c'.summaries ensures c'.summaries[k] == HeardBefore(c'.thoughts, k + 1) {
      SameBelow(c.thoughts, c'.thoughts, k + 1);
    }
  }

  lemma MoreThoughtKeepsReasoned(r: Relay, c: Client, pieces: seq<Piece>, text: string)
    requires Reasoned(r, c, pieces) && r.reasoningStarted
    ensures Reasoned(TellThought(r, text), Pondered(c, r.reasoningIndex, text), pieces + [Thought(text)])
  {
    BurstsOneMore(pieces, Thought(text));
    MoreToSay(r, c, text);
    assert Pondered(c, r.reasoningIndex, text).thoughts.Keys == c.thoughts.Keys;
  }

  lemma NewItemIsCounted(c: Client, text: string)
    requires c.next !in c.thoughts
    ensures var c' := Pondered(AfterOpen(c, ReasoningItem), c.next, text);
      c'.thoughts.Keys == c.thoughts.Keys + {c.next} && |c'.thoughts| == |c.thoughts| + 1 && c'.summaries == c.summaries
  {
    var c' := Pondered(AfterOpen(c, ReasoningItem), c.next, text);
    assert c'.thoughts.Keys == c.thoughts.Keys + {c.next};
  }

  lemma NewItemIsTracked(r: Relay, c: Client, pieces: seq<Piece>, text: string, r': Relay, c': Client)
    requires Tracked(r, c, pieces) && !r.reasoningStarted && r'.reasoningStarted && r'.reasoningIndex == c.next
    requires c'.thoughts.Keys == c.thoughts.Keys + {c.next} && |c'.thoughts| == |c.thoughts| + 1
    requires c'.summaries == c.summaries && forall j :: j in c.thoughts ==> j < c.next
    ensures Tracked(r', c', pieces + [Thought(text)])
  {
    BurstsOneMore(pieces, Thought(text));
    assert c'.thoughts.Keys - {c.next} == c.thoughts.Keys;
  }

  lemma NewThoughtKeepsReasoned(r: Relay, c: Client, pieces: seq<Piece>, text: string, r': Relay)
    requires Reasoned(r, c, pieces) && !r.reasoningStarted && text != ""
    requires r'.reasoningStarted && r'.reasoningIndex == c.next
    ensures Reasoned(r', Pondered(AfterOpen(c, ReasoningItem), c.next, text), pieces + [Thought(text)])
  {
    NewThought(c, text);
    NewItemIsCounted(c, text);
    NewItemIsTracked(r, c, pieces, text, r', Pondered(AfterOpen(c, ReasoningItem), c.next, text));
  }

  lemma ThoughtKeepsReasoned(r: Relay, c: Client, pieces: seq<Piece>, text: string)
    requires Reasoned(r, c, pieces) && c.next == r.next && text != ""
    ensures Reasoned(OnThought(r, text), AfterThought(r, c, text), pieces + [Thought(text)])
  {
    if r.reasoningStarted {
      MoreThoughtKeepsReasoned(r, c, pieces, text);
    } else {
      NewThoughtKeepsReasoned(r, c, pieces, text, OnThought(r, text));
    }
  }

  lemma LastItemHasAll(c: Client, i: nat)
    requires Summed(c) && i in c.thoughts && forall j :: j in c.thoughts ==> j <= i
    ensures c.thought == HeardBefore(c.thoughts, i + 1)
  {
    NothingBetween(c.thoughts, i + 1, c.next);
  }

  lemma DoneWithAll(c: Client, c': Client, i: nat)
    requires Summed(c) && i in c.thoughts && forall j :: j in c.thoughts ==> j <= i
    requires c'.thoughts == c.thoughts && c'.thought == c.thought && c'.next == c.next
    requires c'.summaries == c.summaries[i := c.thought]
    ensures Summed(c')
  {
    LastItemHasAll(c, i);
  }

  /** Closing completes the live item with everything heard. */
  lemma CloseCompletes(r: Relay, c: Client, pieces: seq<Piece>)
    requires Reasoned(r, c, pieces) && r.reasoningText == c.thought
    ensures var c' := AfterClose(r, c);
      Summed(c') && c'.summaries.Keys == c'.thoughts.Keys && c'.thoughts == c.thoughts &&
        !CloseReasoning(r).reasoningStarted
  {
    if r.reasoningStarted {
      DoneWithAll(c, AfterClose(r, c), r.reasoningIndex);
    }
  }

  lemma CloseKeepsReasoned(r: Relay, c: Client, pieces: seq<Piece>, more: seq<Piece>)
    requires Reasoned(r, c, pieces) && r.reasoningText == c.thought
    requires !EndsInThought(more) && Bursts(more) == Bursts(pieces)
    ensures Reasoned(CloseReasoning(r), AfterClose(r, c), more)
  {
    CloseCompletes(r, c, pieces);
  }

  /** Items of other kinds leave the reasoning alone. */
  lemma OthersKeepReasoned(r: Relay, c: Client, r': Relay, c': Client, pieces: seq<Piece>)
    requires Reasoned(r, c, pieces) && !r.reasoningStarted && !r'.reasoningStarted
    requires c'.thought == c.thought && c'.thoughts == c.thoughts && c'.summaries == c.summaries && c.next <= c'.next
    ensures Reasoned(r', c', pieces)
  {
    NothingBetween(c.thoughts, c.next, c'.next);
  }

  lemma TextKeepsReasoned(r: Relay, c: Client, pieces: seq<Piece>, text: string)
    requires Reasoned(r, c, pieces) && r.reasoningText == c.thought
    ensures Reasoned(OnText(r, text), AfterText(r, c, text), pieces + [Text(text)])
  {
    BurstsOneMore(pieces, Text(text));
    CloseKeepsReasoned(r, c, pieces, pieces + [Text(text)]);
    OthersKeepReasoned(CloseReasoning(r), AfterClose(r, c), OnText(r, text), AfterText(r, c, text),
      pieces + [Text(text)]);
  }

  lemma AnnounceIsNoReasoning(r: Relay, c: Client, index: int, delta: ToolDelta)
    ensures var c' := AfterAnnounce(r, c, index, delta);
      c'.thought == c.thought && c'.thoughts == c.thoughts && c'.summaries == c.summaries && c.next <= c'.next
    ensures Announce(r, index, delta).reasoningStarted == r.reasoningStarted
  {
  }

  lemma SendIsNoReasoning(d: Decoder, r: Relay, c: Client, index: int, accumulated: string)
    ensures var c' := AfterSend(d, r, c, index, accumulated);
      c'.thought == c.thought && c'.thoughts == c.thoughts && c'.summaries == c.summaries && c.next == c'.next
    ensures Send(d, r, index, accumulated).reasoningStarted == r.reasoningStarted
  {
  }

  lemma ToolKeepsReasoned(d: Decoder, r: Relay, c: Client, pieces: seq<Piece>, index: int, delta: ToolDelta,
                          accumulated: string)
    requires Reasoned(r, c, pieces) && r.reasoningText == c.thought
    ensures Reasoned(OnTool(d, r, index, delta, accumulated), AfterTool(d, r, c, index, delta, accumulated),
                     pieces + [Tool(index, delta)])
  {
    BurstsOneMore(pieces, Tool(index, delta));
    CloseKeepsReasoned(r, c, pieces, pieces + [Tool(index, delta)]);
    var closed, c' := CloseReasoning(r), AfterClose(r, c);
    AnnounceIsNoReasoning(closed, c', index, delta);
    SendIsNoReasoning(d, Announce(closed, index, delta), AfterAnnounce(closed, c', index, delta), index, accumulated);
    OthersKeepReasoned(closed, c', OnTool(d, r, index, delta, accumulated),
                       AfterTool(d, r, c, index, delta, accumulated), pieces + [Tool(index, delta)]);
  }

  // ---------------------------------------------------------------- the whole stream

  /** After the stream every reasoning item is done, one per stretch of reasoning; each was done with
      all reasoning up to its end, which is its own exactly when it is the first. */
  ghost predicate ReasoningTold(c: Client, pieces: seq<Piece>) {
    && c.summaries.Keys == c.thoughts.Keys && |c.thoughts| == Bursts(pieces)
    && c.thought == HeardBefore(c.thoughts, c.next) && (forall i :: i in c.thoughts ==> i < c.next)
    && forall i :: i in c.summaries ==>
         c.summaries[i] == HeardBefore(c.thoughts, i + 1) && (c.summaries[i] == c.thoughts[i] <==> FirstItem(c, i))
  }

  lemma EndTellsReasoning(r: Relay, c: Client, pieces: seq<Piece>)
    requires Reasoned(r, c, pieces) && r.reasoningText == c.thought
    ensures ReasoningTold(AfterClose(r, c), pieces) && !CloseReasoning(r).reasoningStarted
  {
    CloseCompletes(r, c, pieces);
    var c' := AfterClose(r, c);
    forall i | i in c'.summaries ensures c'.summaries[i] == c'.thoughts[i] <==> FirstItem(c', i) {
      OwnTextExactlyWhenFirst(c', i);
    }
  }

  /** Completing items of other kinds tells nothing more of the reasoning. */
  lemma StillTold(c: Client, c': Client, pieces: seq<Piece>)
    requires ReasoningTold(c, pieces) && c.next <= c'.next
    requires c'.thought == c.thought && c'.thoughts == c.thoughts && c'.summaries == c.summaries
    ensures ReasoningTold(c', pieces)
  {
    NothingBetween(c.thoughts, c.next, c'.next);
  }

  lemma TwoItems(m: map<nat, string>) returns (i: nat, j: nat)
    requires |m| >= 2
    ensures i in m && j in m && i < j
  {
    i :| i in m;
    var rest := m.Keys - {i};
    assert m.Keys == rest + {i};
    j :| j in rest;
    if j < i { i, j := j, i; }
  }

  /** Every reasoning item's done text is its own deltas exactly when upstream reasons in one stretch,
      not again after text or a tool. */
  lemma AllOwnExactlyInOneBurst(c: Client, pieces: seq<Piece>)
    requires ReasoningTold(c, pieces)
    ensures (forall i :: i in c.summaries ==> c.summaries[i] == c.thoughts[i]) <==> Bursts(pieces) <= 1
  {
    if Bursts(pieces) >= 2 {
      var i, j := TwoItems(c.thoughts);
      assert j in c.summaries && !FirstItem(c, j);
    } else {
      forall i | i in c.summaries ensures FirstItem(c, i) {
        forall j | j in c.thoughts ensures i == j {
          if i != j { assert {i, j} <= c.thoughts.Keys; SetSize({i, j}, c.thoughts.Keys); }
        }
      }
    }
  }

  lemma SetSize(a: set<nat>, b: set<nat>)
    requires a <= b
    ensures |a| <= |b|
  {
    assert b == a + (b - a);
  }
}
