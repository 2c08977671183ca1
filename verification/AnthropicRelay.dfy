/** Relaying an OpenAI stream as Anthropic content blocks. */
module AnthropicRelay {
  import opened ChatStream
  import opened Sorting

  datatype Kind = TextBlock | ThinkingBlock | ToolBlock(id: string, name: string)

  datatype Event =
    | MessageStart
    | BlockStart(index: nat, kind: Kind)
    | TextDelta(index: nat, text: string)
    | ThinkingDelta(index: nat, text: string)
    | JsonDelta(index: nat, text: string)
    | BlockStop(index: nat)
    | MessageDelta
    | MessageStop

  // ---------------------------------------------------------------- what a client accepts

  datatype Phase = Streaming | WindingUp | Ended

  /** A client's view: the next block index it expects, the open blocks, and how far the message is. */
  datatype Client = Client(next: nat, open: map<nat, Kind>, phase: Phase)

  datatype Verdict = Rejected | Accepted(client: Client)

  predicate NoThinkingOpen(c: Client) {
    forall b :: b in c.open ==> !c.open[b].ThinkingBlock?
  }

  predicate NoTextOpen(c: Client) {
    forall b :: b in c.open ==> !c.open[b].TextBlock?
  }

  /** One thinking block at most is open, and nothing else goes on while it is; one text block at most is open,
      and no tool starts while it is. */
  predicate MayStart(c: Client, kind: Kind) {
    NoThinkingOpen(c) && (!kind.ThinkingBlock? ==> NoTextOpen(c))
  }

  /** Blocks start once each in order from zero and in the order above, deltas name an open block of their
      kind, a block stops once, the message is wound up with no block open, and nothing follows its stop. */
  function Accept(c: Client, e: Event): Verdict {
    match c.phase
    case Ended => Rejected
    case WindingUp => if e.MessageStop? then Accepted(c.(phase := Ended)) else Rejected
    case Streaming =>
      match e
      case MessageStart => if c.next == 0 && c.open == map[] then Accepted(c) else Rejected
      case BlockStart(i, kind) =>
        if i == c.next && MayStart(c, kind) then Accepted(Client(i + 1, c.open[i := kind], Streaming)) else Rejected
      case TextDelta(i, _) =>
        if i in c.open && c.open[i].TextBlock? && NoThinkingOpen(c) then Accepted(c) else Rejected
      case ThinkingDelta(i, _) => if i in c.open && c.open[i].ThinkingBlock? then Accepted(c) else Rejected
      case JsonDelta(i, _) =>
        if i in c.open && c.open[i].ToolBlock? && NoThinkingOpen(c) then Accepted(c) else Rejected
      case BlockStop(i) => if i in c.open then Accepted(c.(open := c.open - {i})) else Rejected
      case MessageDelta => if c.open == map[] then Accepted(c.(phase := WindingUp)) else Rejected
      case MessageStop => Rejected
  }

  function Read(events: seq<Event>): Verdict {
    if events == [] then Accepted(Client(0, map[], Streaming))
    else
      match Read(events[..|events| - 1])
      case Rejected => Rejected
      case Accepted(c) => Accept(c, events[|events| - 1])
  }

  function TextSent(events: seq<Event>): string {
    if events == [] then ""
    else
      var last := events[|events| - 1];
      TextSent(events[..|events| - 1]) + if last.TextDelta? then last.text else ""
  }

  function ThinkingSent(events: seq<Event>): string {
    if events == [] then ""
    else
      var last := events[|events| - 1];
      ThinkingSent(events[..|events| - 1]) + if last.ThinkingDelta? then last.text else ""
  }

  function JsonSent(events: seq<Event>, index: nat): string {
    if events == [] then ""
    else
      var last := events[|events| - 1];
      JsonSent(events[..|events| - 1], index) + if last.JsonDelta? && last.index == index then last.text else ""
  }

  // ---------------------------------------------------------------- the relay's own state

  /** The relay's local variables, with the events written so far. */
  datatype Relay = Relay(
    events: seq<Event>,
    textStarted: bool,
    textBlock: nat,
    thinkingStarted: bool,
    thinkingBlock: nat,
    toolBlocks: map<int, nat>,
    nextBlock: nat)

  function Write(r: Relay, e: Event): Relay {
    r.(events := r.events + [e])
  }

  function CloseThinking(r: Relay): Relay {
    if r.thinkingStarted then Write(r, BlockStop(r.thinkingBlock)).(thinkingStarted := false) else r
  }

  function CloseText(r: Relay): Relay {
    if r.textStarted then Write(r, BlockStop(r.textBlock)).(textStarted := false) else r
  }

  function OpenThinking(r: Relay): Relay {
    if r.thinkingStarted then r
    else Write(r, BlockStart(r.nextBlock, ThinkingBlock)).(thinkingStarted := true, thinkingBlock := r.nextBlock,
                                                           nextBlock := r.nextBlock + 1)
  }

  function OpenText(r: Relay): Relay {
    if r.textStarted then r
    else Write(r, BlockStart(r.nextBlock, TextBlock)).(textStarted := true, textBlock := r.nextBlock,
                                                       nextBlock := r.nextBlock + 1)
  }

  function OpenTool(r: Relay, index: int, id: string, name: string): Relay {
    Write(r, BlockStart(r.nextBlock, ToolBlock(id, name))).(toolBlocks := r.toolBlocks[index := r.nextBlock],
                                                            nextBlock := r.nextBlock + 1)
  }

  ghost predicate IsBlock(blocks: map<int, nat>, b: nat) {
    exists i :: i in blocks && blocks[i] == b
  }

  /** The block client `c` has open are exactly the relay's, each of its kind. */
  ghost predicate Matches(r: Relay, c: Client) {
    && c.next == r.nextBlock && c.phase.Streaming?
    && (forall b :: b in c.open ==> b < r.nextBlock)
    && (r.textStarted ==> r.textBlock in c.open && c.open[r.textBlock].TextBlock?)
    && (r.thinkingStarted ==> r.thinkingBlock in c.open && c.open[r.thinkingBlock].ThinkingBlock?)
    && (forall i :: i in r.toolBlocks ==> r.toolBlocks[i] in c.open && c.open[r.toolBlocks[i]].ToolBlock?)
    && (forall i, j :: i in r.toolBlocks && j in r.toolBlocks && r.toolBlocks[i] == r.toolBlocks[j] ==> i == j)
    && (forall b :: b in c.open ==>
          if c.open[b].TextBlock? then r.textStarted && b == r.textBlock
          else if c.open[b].ThinkingBlock? then r.thinkingStarted && b == r.thinkingBlock
          else IsBlock(r.toolBlocks, b))
  }

  ghost predicate Carries(r: Relay, pieces: seq<Piece>) {
    && TextSent(r.events) == TextOf(pieces)
    && ThinkingSent(r.events) == ThoughtOf(pieces)
    && r.toolBlocks.Keys == NamedTools(pieces)
    && (forall i :: i in r.toolBlocks ==> JsonSent(r.events, r.toolBlocks[i]) == ArgumentsSinceNaming(pieces, i))
    && (forall b :: b >= r.nextBlock ==> JsonSent(r.events, b) == "")
    && (forall i :: i !in r.toolBlocks ==> ArgumentsSinceNaming(pieces, i) == "")
  }

  ghost predicate Inv(r: Relay, pieces: seq<Piece>) {
    Read(r.events).Accepted? && Matches(r, Read(r.events).client) && Carries(r, pieces)
  }

  lemma Appended(events: seq<Event>, e: Event, b: nat)
    ensures Read(events + [e]) == match Read(events) case Rejected => Rejected case Accepted(c) => Accept(c, e)
    ensures TextSent(events + [e]) == TextSent(events) + if e.TextDelta? then e.text else ""
    ensures ThinkingSent(events + [e]) == ThinkingSent(events) + if e.ThinkingDelta? then e.text else ""
    ensures JsonSent(events + [e], b) == JsonSent(events, b) + if e.JsonDelta? && e.index == b then e.text else ""
  {
    assert (events + [e])[..|events|] == events;
  }

  // Opening and closing blocks sends no content.

  lemma WriteKeepsContent(r: Relay, e: Event, pieces: seq<Piece>, r': Relay)
    requires Carries(r, pieces) && !e.TextDelta? && !e.ThinkingDelta? && !e.JsonDelta?
    requires r'.events == r.events + [e] && r'.toolBlocks == r.toolBlocks && r'.nextBlock >= r.nextBlock
    ensures Carries(r', pieces)
  {
    forall b ensures JsonSent(r'.events, b) == JsonSent(r.events, b) { Appended(r.events, e, b); }
    Appended(r.events, e, 0);
  }

  lemma StopThinkingMatches(r: Relay, c: Client)
    requires Matches(r, c) && r.thinkingStarted
    ensures Matches(CloseThinking(r), c.(open := c.open - {r.thinkingBlock}))
  {
  }

  lemma StopTextMatches(r: Relay, c: Client)
    requires Matches(r, c) && r.textStarted
    ensures Matches(CloseText(r), c.(open := c.open - {r.textBlock}))
  {
  }

  lemma StartThinkingMatches(r: Relay, c: Client)
    requires Matches(r, c) && !r.thinkingStarted
    ensures Matches(OpenThinking(r), Client(c.next + 1, c.open[c.next := ThinkingBlock], Streaming))
  {
  }

  lemma StartTextMatches(r: Relay, c: Client)
    requires Matches(r, c) && !r.textStarted && !r.thinkingStarted
    ensures MayStart(c, TextBlock)
    ensures Matches(OpenText(r), Client(c.next + 1, c.open[c.next := TextBlock], Streaming))
  {
  }

  lemma CloseThinkingKeepsInv(r: Relay, pieces: seq<Piece>)
    requires Inv(r, pieces)
    ensures Inv(CloseThinking(r), pieces) && !CloseThinking(r).thinkingStarted
  {
    if r.thinkingStarted {
      Appended(r.events, BlockStop(r.thinkingBlock), 0);
      StopThinkingMatches(r, Read(r.events).client);
      WriteKeepsContent(r, BlockStop(r.thinkingBlock), pieces, CloseThinking(r));
    }
  }

  lemma CloseTextKeepsInv(r: Relay, pieces: seq<Piece>)
    requires Inv(r, pieces)
    ensures Inv(CloseText(r), pieces) && !CloseText(r).textStarted
  {
    if r.textStarted {
      Appended(r.events, BlockStop(r.textBlock), 0);
      StopTextMatches(r, Read(r.events).client);
      WriteKeepsContent(r, BlockStop(r.textBlock), pieces, CloseText(r));
    }
  }

  lemma OpenThinkingKeepsInv(r: Relay, pieces: seq<Piece>)
    requires Inv(r, pieces)
    ensures Inv(OpenThinking(r), pieces) && OpenThinking(r).thinkingStarted
  {
    if !r.thinkingStarted {
      Appended(r.events, BlockStart(r.nextBlock, ThinkingBlock), 0);
      StartThinkingMatches(r, Read(r.events).client);
      WriteKeepsContent(r, BlockStart(r.nextBlock, ThinkingBlock), pieces, OpenThinking(r));
    }
  }

  lemma OpenTextKeepsInv(r: Relay, pieces: seq<Piece>)
    requires Inv(r, pieces) && !r.thinkingStarted
    ensures Inv(OpenText(r), pieces) && OpenText(r).textStarted && !OpenText(r).thinkingStarted
  {
    if !r.textStarted {
      Appended(r.events, BlockStart(r.nextBlock, TextBlock), 0);
      StartTextMatches(r, Read(r.events).client);
      WriteKeepsContent(r, BlockStart(r.nextBlock, TextBlock), pieces, OpenText(r));
    }
  }

  // ---------------------------------------------------------------- one piece

  function OnThought(r: Relay, text: string): Relay {
    var begun := OpenThinking(r);
    Write(begun, ThinkingDelta(begun.thinkingBlock, text))
  }

  function OnText(r: Relay, text: string): Relay {
    var begun := OpenText(CloseThinking(r));
    Write(begun, TextDelta(begun.textBlock, text))
  }

  /** `fallbackId` stands for the identifier made up for a call without one. */
  function EnsureTool(r: Relay, index: int, delta: ToolDelta, fallbackId: string): Relay {
    var closed := CloseThinking(r);
    if index !in closed.toolBlocks && delta.name != ""
    then OpenTool(CloseText(closed), index, if delta.id == "" then fallbackId else delta.id, delta.name)
    else closed
  }

  function OnTool(r: Relay, index: int, delta: ToolDelta, fallbackId: string): Relay {
    var ready := EnsureTool(r, index, delta, fallbackId);
    if index in ready.toolBlocks && delta.arguments != ""
    then Write(ready, JsonDelta(ready.toolBlocks[index], delta.arguments))
    else ready
  }

  /** `e` carries `piece` into the block opened for it. */
  ghost predicate Delivers(r: Relay, e: Event, piece: Piece) {
    match piece
    case Thought(text) => r.thinkingStarted && e == ThinkingDelta(r.thinkingBlock, text)
    case Text(text) => r.textStarted && !r.thinkingStarted && e == TextDelta(r.textBlock, text)
    case Tool(i, delta) => i in r.toolBlocks && !r.thinkingStarted && e == JsonDelta(r.toolBlocks[i], delta.arguments)
  }

  lemma DeltaKeepsText(r: Relay, e: Event, pieces: seq<Piece>, piece: Piece)
    requires Carries(r, pieces) && Delivers(r, e, piece)
    ensures TextSent(r.events + [e]) == TextOf(pieces + [piece])
    ensures ThinkingSent(r.events + [e]) == ThoughtOf(pieces + [piece])
    ensures NamedTools(pieces + [piece]) == NamedTools(pieces)
  {
    Appended(r.events, e, 0);
    Extend(pieces, piece, 0);
  }

  lemma DeltaKeepsTool(r: Relay, e: Event, pieces: seq<Piece>, piece: Piece, i: int)
    requires Carries(r, pieces) && Delivers(r, e, piece) && i in r.toolBlocks
    requires forall j :: j in r.toolBlocks && r.toolBlocks[i] == r.toolBlocks[j] ==> i == j
    ensures JsonSent(r.events + [e], r.toolBlocks[i]) == ArgumentsSinceNaming(pieces + [piece], i)
  {
    Appended(r.events, e, r.toolBlocks[i]);
    Extend(pieces, piece, i);
  }

  lemma DeltaKeepsContent(r: Relay, e: Event, pieces: seq<Piece>, piece: Piece)
    requires Carries(r, pieces) && Delivers(r, e, piece)
    requires forall i, j :: i in r.toolBlocks && j in r.toolBlocks && r.toolBlocks[i] == r.toolBlocks[j] ==> i == j
    requires forall i :: i in r.toolBlocks ==> r.toolBlocks[i] < r.nextBlock
    ensures Carries(Write(r, e), pieces + [piece])
  {
    DeltaKeepsText(r, e, pieces, piece);
    forall i | i in r.toolBlocks
      ensures JsonSent(r.events + [e], r.toolBlocks[i]) == ArgumentsSinceNaming(pieces + [piece], i)
    {
      DeltaKeepsTool(r, e, pieces, piece, i);
    }
    forall b | b >= r.nextBlock ensures JsonSent(r.events + [e], b) == "" { Appended(r.events, e, b); }
    forall i | i !in r.toolBlocks ensures ArgumentsSinceNaming(pieces + [piece], i) == "" { Extend(pieces, piece, i); }
  }

  lemma DeltaKeepsMatch(r: Relay, e: Event, piece: Piece)
    requires Read(r.events).Accepted? && Matches(r, Read(r.events).client) && Delivers(r, e, piece)
    ensures Read(Write(r, e).events) == Read(r.events) && Matches(Write(r, e), Read(r.events).client)
  {
    Appended(r.events, e, 0);
  }

  lemma DeltaKeepsInv(r: Relay, e: Event, pieces: seq<Piece>, piece: Piece)
    requires Inv(r, pieces) && Delivers(r, e, piece)
    ensures Inv(Write(r, e), pieces + [piece])
  {
    DeltaKeepsMatch(r, e, piece);
    DeltaKeepsContent(r, e, pieces, piece);
  }

  lemma ThoughtKeepsInv(r: Relay, pieces: seq<Piece>, text: string)
    requires Inv(r, pieces)
    ensures Inv(OnThought(r, text), pieces + [Thought(text)])
  {
    OpenThinkingKeepsInv(r, pieces);
    var begun := OpenThinking(r);
    DeltaKeepsInv(begun, ThinkingDelta(begun.thinkingBlock, text), pieces, Thought(text));
  }

  lemma TextKeepsInv(r: Relay, pieces: seq<Piece>, text: string)
    requires Inv(r, pieces)
    ensures Inv(OnText(r, text), pieces + [Text(text)])
  {
    CloseThinkingKeepsInv(r, pieces);
    OpenTextKeepsInv(CloseThinking(r), pieces);
    var begun := OpenText(CloseThinking(r));
    DeltaKeepsInv(begun, TextDelta(begun.textBlock, text), pieces, Text(text));
  }

  lemma OneMoreBlock(blocks: map<int, nat>, index: int, added: nat, b: nat)
    requires index !in blocks && (b == added || IsBlock(blocks, b))
    ensures IsBlock(blocks[index := added], b)
  {
    var longer := blocks[index := added];
    if b == added {
      assert longer[index] == b;
    } else {
      var i :| i in blocks && blocks[i] == b;
      assert longer[i] == b;
    }
  }

  /** A newly named tool starts a block of its own, and its earlier fragments stay unsent. */
  lemma OpenToolKeepsMatch(r: Relay, index: int, id: string, name: string, pieces: seq<Piece>)
    requires Inv(r, pieces) && index !in r.toolBlocks && !r.textStarted && !r.thinkingStarted
    ensures var r' := OpenTool(r, index, id, name);
      Read(r'.events).Accepted? && Matches(r', Read(r'.events).client)
  {
    var e, r' := BlockStart(r.nextBlock, ToolBlock(id, name)), OpenTool(r, index, id, name);
    Appended(r.events, e, 0);
    assert Read(r'.events).Accepted?;
    var c := Read(r'.events).client;
    forall b | b in c.open && c.open[b].ToolBlock? ensures IsBlock(r'.toolBlocks, b) {
      OneMoreBlock(r.toolBlocks, index, r.nextBlock, b);
    }
  }

  lemma OpenToolSendsNothing(r: Relay, index: int, id: string, name: string, pieces: seq<Piece>, delta: ToolDelta,
                             i: int)
    requires Carries(r, pieces) && index !in r.toolBlocks && delta.name != "" && delta.arguments == ""
    ensures var r', longer := OpenTool(r, index, id, name), pieces + [Tool(index, delta)];
      && (i in r'.toolBlocks ==> JsonSent(r'.events, r'.toolBlocks[i]) == ArgumentsSinceNaming(longer, i))
      && (i !in r'.toolBlocks ==> ArgumentsSinceNaming(longer, i) == "")
      && (i >= r'.nextBlock ==> JsonSent(r'.events, i) == "")
  {
    var e, r' := BlockStart(r.nextBlock, ToolBlock(id, name)), OpenTool(r, index, id, name);
    Extend(pieces, Tool(index, delta), i);
    if i in r'.toolBlocks { Appended(r.events, e, r'.toolBlocks[i]); }
    if i >= r'.nextBlock { Appended(r.events, e, i); }
  }

  lemma OpenToolCarries(r: Relay, index: int, id: string, name: string, pieces: seq<Piece>, delta: ToolDelta)
    requires Carries(r, pieces) && index !in r.toolBlocks && delta.name != "" && delta.arguments == ""
    ensures Carries(OpenTool(r, index, id, name), pieces + [Tool(index, delta)])
  {
    var r', longer := OpenTool(r, index, id, name), pieces + [Tool(index, delta)];
    Appended(r.events, BlockStart(r.nextBlock, ToolBlock(id, name)), 0);
    Extend(pieces, Tool(index, delta), 0);
    forall i | i in r'.toolBlocks ensures JsonSent(r'.events, r'.toolBlocks[i]) == ArgumentsSinceNaming(longer, i) {
      OpenToolSendsNothing(r, index, id, name, pieces, delta, i);
    }
    forall b | b >= r'.nextBlock ensures JsonSent(r'.events, b) == "" {
      OpenToolSendsNothing(r, index, id, name, pieces, delta, b);
    }
    forall i | i !in r'.toolBlocks ensures ArgumentsSinceNaming(longer, i) == "" {
      OpenToolSendsNothing(r, index, id, name, pieces, delta, i);
    }
  }

  /** Fragments do not change what is named or open. */
  lemma SilentToolCarries(r: Relay, index: int, pieces: seq<Piece>, delta: ToolDelta)
    requires Carries(r, pieces)
    requires (index in r.toolBlocks && delta.arguments == "") || (index !in r.toolBlocks && delta.name == "")
    ensures Carries(r, pieces + [Tool(index, delta)])
  {
    forall i { Extend(pieces, Tool(index, delta), i); }
    Extend(pieces, Tool(index, delta), 0);
  }

  /** Splitting a naming delta into its name and its fragment changes no total. */
  lemma NameThenFragment(pieces: seq<Piece>, index: int, delta: ToolDelta, i: int)
    requires delta.name != ""
    ensures var split := pieces + [Tool(index, delta.(arguments := ""))] + [Tool(index, delta)];
      var whole := pieces + [Tool(index, delta)];
      && TextOf(split) == TextOf(whole) && ThoughtOf(split) == ThoughtOf(whole)
      && NamedTools(split) == NamedTools(whole)
      && ArgumentsSinceNaming(split, i) == ArgumentsSinceNaming(whole, i)
  {
    Extend(pieces, Tool(index, delta), i);
    Extend(pieces, Tool(index, delta.(arguments := "")), i);
    Extend(pieces + [Tool(index, delta.(arguments := ""))], Tool(index, delta), i);
  }

  /** A relay that carries the split delta carries the whole one. */
  lemma CarriesWhole(r: Relay, pieces: seq<Piece>, index: int, delta: ToolDelta)
    requires delta.name != ""
    requires Inv(r, pieces + [Tool(index, delta.(arguments := ""))] + [Tool(index, delta)])
    ensures Inv(r, pieces + [Tool(index, delta)])
  {
    var split := pieces + [Tool(index, delta.(arguments := ""))] + [Tool(index, delta)];
    NameThenFragment(pieces, index, delta, 0);
    forall i ensures ArgumentsSinceNaming(split, i) == ArgumentsSinceNaming(pieces + [Tool(index, delta)], i) {
      NameThenFragment(pieces, index, delta, i);
    }
  }

  lemma NewToolKeepsInv(r: Relay, pieces: seq<Piece>, index: int, delta: ToolDelta, id: string)
    requires Inv(r, pieces) && index !in r.toolBlocks && delta.name != "" && !r.textStarted && !r.thinkingStarted
    ensures var ready := OpenTool(r, index, id, delta.name);
      Inv(if delta.arguments != "" then Write(ready, JsonDelta(ready.toolBlocks[index], delta.arguments)) else ready,
          pieces + [Tool(index, delta)])
  {
    var named := delta.(arguments := "");
    var ready := OpenTool(r, index, id, delta.name);
    OpenToolKeepsMatch(r, index, id, delta.name, pieces);
    OpenToolCarries(r, index, id, delta.name, pieces, named);
    if delta.arguments != "" {
      DeltaKeepsInv(ready, JsonDelta(ready.toolBlocks[index], delta.arguments),
                    pieces + [Tool(index, named)], Tool(index, delta));
      CarriesWhole(Write(ready, JsonDelta(ready.toolBlocks[index], delta.arguments)), pieces, index, delta);
    } else {
      assert named == delta;
    }
  }

  lemma ToolKeepsInv(r: Relay, pieces: seq<Piece>, index: int, delta: ToolDelta, fallbackId: string)
    requires Inv(r, pieces)
    ensures Inv(OnTool(r, index, delta, fallbackId), pieces + [Tool(index, delta)])
  {
    CloseThinkingKeepsInv(r, pieces);
    var closed := CloseThinking(r);
    if index in closed.toolBlocks || delta.name == "" {
      if index in closed.toolBlocks && delta.arguments != "" {
        DeltaKeepsInv(closed, JsonDelta(closed.toolBlocks[index], delta.arguments), pieces, Tool(index, delta));
      } else {
        SilentToolCarries(closed, index, pieces, delta);
      }
    } else {
      CloseTextKeepsInv(closed, pieces);
      NewToolKeepsInv(CloseText(closed), pieces, index, delta, if delta.id == "" then fallbackId else delta.id);
    }
  }

  // ---------------------------------------------------------------- the relay

  function CallId(requestId: string, index: int): string {
    "toolu_" + requestId + "_" + Decimal(index)
  }

  function Decimal(n: int): string
    decreases if n < 0 then 1 else 0, if n < 0 then -n else n
  {
    if n < 0 then "-" + Decimal(-n)
    else if n < 10 then ['0' + n as char]
    else Decimal(n / 10) + ['0' + (n % 10) as char]
  }

  function OnPiece(r: Relay, piece: Piece, requestId: string): Relay {
    match piece
    case Thought(text) => OnThought(r, text)
    case Text(text) => OnText(r, text)
    case Tool(index, delta) => OnTool(r, index, delta, CallId(requestId, index))
  }

  function OnPieces(r: Relay, pieces: seq<Piece>, requestId: string): Relay {
    if pieces == [] then r
    else OnPiece(OnPieces(r, pieces[..|pieces| - 1], requestId), pieces[|pieces| - 1], requestId)
  }

  lemma OnOneMore(r: Relay, pieces: seq<Piece>, piece: Piece, requestId: string)
    ensures OnPieces(r, pieces + [piece], requestId) == OnPiece(OnPieces(r, pieces, requestId), piece, requestId)
  {
    assert (pieces + [piece])[..|pieces|] == pieces;
  }

  lemma {:induction false} OnMore(r: Relay, a: seq<Piece>, b: seq<Piece>, all: seq<Piece>, requestId: string)
    requires all == a + b
    ensures OnPieces(r, all, requestId) == OnPieces(OnPieces(r, a, requestId), b, requestId)
    decreases |b|
  {
    if b == [] {
      assert all == a;
    } else {
      var before, last := b[..|b| - 1], b[|b| - 1];
      assert all == (a + before) + [last] && b == before + [last];
      OnMore(r, a, before, a + before, requestId);
      OnOneMore(r, a + before, last, requestId);
      OnOneMore(OnPieces(r, a, requestId), before, last, requestId);
    }
  }

  lemma PieceKeepsInv(r: Relay, pieces: seq<Piece>, piece: Piece, requestId: string)
    requires Inv(r, pieces)
    ensures Inv(OnPiece(r, piece, requestId), pieces + [piece])
  {
    match piece
    case Thought(text) => ThoughtKeepsInv(r, pieces, text);
    case Text(text) => TextKeepsInv(r, pieces, text);
    case Tool(index, delta) => ToolKeepsInv(r, pieces, index, delta, CallId(requestId, index));
  }

  lemma {:induction false} PiecesKeepInv(r: Relay, pieces: seq<Piece>, requestId: string)
    requires Inv(r, [])
    ensures Inv(OnPieces(r, pieces, requestId), pieces)
  {
    if pieces == [] {
    } else {
      var before, piece := pieces[..|pieces| - 1], pieces[|pieces| - 1];
      assert before + [piece] == pieces;
      PiecesKeepInv(r, before, requestId);
      PieceKeepsInv(OnPieces(r, before, requestId), before, piece, requestId);
    }
  }

  // ---------------------------------------------------------------- what the tool blocks are called

  /** Block `b` was started, last, as a block of this kind. */
  predicate Started(events: seq<Event>, b: nat, kind: Kind) {
    events != [] &&
    (var last := events[|events| - 1];
     if last.BlockStart? && last.index == b then last.kind == kind else Started(events[..|events| - 1], b, kind))
  }

  /** The first delta that names a tool. */
  function FirstNaming(pieces: seq<Piece>, i: int): ToolDelta
    requires i in NamedTools(pieces)
  {
    var n := |pieces| - 1;
    if i in NamedTools(pieces[..n]) then FirstNaming(pieces[..n], i) else pieces[n].delta
  }

  /** A tool's block goes by the name and call the first naming delta gives, with a made-up call identifier
      if it gives none. */
  ghost predicate Labelled(events: seq<Event>, blocks: map<int, nat>, pieces: seq<Piece>, requestId: string) {
    forall i :: i in blocks && i in NamedTools(pieces) ==>
      var naming := FirstNaming(pieces, i);
      Started(events, blocks[i], ToolBlock(if naming.id == "" then CallId(requestId, i) else naming.id, naming.name))
  }

  lemma StartedStays(events: seq<Event>, e: Event, b: nat, kind: Kind)
    requires Started(events, b, kind) && !(e.BlockStart? && e.index == b)
    ensures Started(events + [e], b, kind)
  {
    assert (events + [e])[..|events|] == events;
  }

  lemma NamingStays(pieces: seq<Piece>, piece: Piece, i: int)
    ensures i in NamedTools(pieces) ==>
      i in NamedTools(pieces + [piece]) && FirstNaming(pieces + [piece], i) == FirstNaming(pieces, i)
    ensures i !in NamedTools(pieces) && i in NamedTools(pieces + [piece]) ==>
      piece.Tool? && piece.index == i && FirstNaming(pieces + [piece], i) == piece.delta
  {
    assert (pieces + [piece])[..|pieces|] == pieces;
  }

  /** An event that starts no earlier block again. */
  lemma WriteKeepsLabels(r: Relay, e: Event, pieces: seq<Piece>, requestId: string)
    requires Labelled(r.events, r.toolBlocks, pieces, requestId)
    requires e.BlockStart? ==> e.index == r.nextBlock && forall i :: i in r.toolBlocks ==> r.toolBlocks[i] < r.nextBlock
    ensures Labelled(r.events + [e], r.toolBlocks, pieces, requestId)
  {
    forall i | i in r.toolBlocks && i in NamedTools(pieces)
      ensures var naming := FirstNaming(pieces, i);
        Started(r.events + [e], r.toolBlocks[i],
                ToolBlock(if naming.id == "" then CallId(requestId, i) else naming.id, naming.name))
    {
      var naming := FirstNaming(pieces, i);
      StartedStays(r.events, e, r.toolBlocks[i],
                   ToolBlock(if naming.id == "" then CallId(requestId, i) else naming.id, naming.name));
    }
  }

  lemma PieceKeepsNaming(events: seq<Event>, blocks: map<int, nat>, pieces: seq<Piece>, piece: Piece, requestId: string)
    requires Labelled(events, blocks, pieces, requestId) && blocks.Keys <= NamedTools(pieces)
    ensures Labelled(events, blocks, pieces + [piece], requestId)
  {
    forall i | i in blocks ensures i in NamedTools(pieces + [piece]) &&
                                   FirstNaming(pieces + [piece], i) == FirstNaming(pieces, i) {
      NamingStays(pieces, piece, i);
    }
  }

  lemma CloseThinkingKeepsLabels(r: Relay, pieces: seq<Piece>, requestId: string)
    requires Labelled(r.events, r.toolBlocks, pieces, requestId)
    ensures Labelled(CloseThinking(r).events, CloseThinking(r).toolBlocks, pieces, requestId)
  {
    if r.thinkingStarted { WriteKeepsLabels(r, BlockStop(r.thinkingBlock), pieces, requestId); }
  }

  lemma ThoughtKeepsLabels(r: Relay, pieces: seq<Piece>, text: string, requestId: string)
    requires Inv(r, pieces) && Labelled(r.events, r.toolBlocks, pieces, requestId)
    ensures Labelled(OnThought(r, text).events, r.toolBlocks, pieces, requestId)
  {
    var begun := OpenThinking(r);
    if !r.thinkingStarted { WriteKeepsLabels(r, BlockStart(r.nextBlock, ThinkingBlock), pieces, requestId); }
    WriteKeepsLabels(begun, ThinkingDelta(begun.thinkingBlock, text), pieces, requestId);
  }

  lemma TextKeepsLabels(r: Relay, pieces: seq<Piece>, text: string, requestId: string)
    requires Inv(r, pieces) && Labelled(r.events, r.toolBlocks, pieces, requestId)
    ensures Labelled(OnText(r, text).events, r.toolBlocks, pieces, requestId)
  {
    var closed := CloseThinking(r);
    CloseThinkingKeepsLabels(r, pieces, requestId);
    var begun := OpenText(closed);
    if !closed.textStarted { WriteKeepsLabels(closed, BlockStart(closed.nextBlock, TextBlock), pieces, requestId); }
    WriteKeepsLabels(begun, TextDelta(begun.textBlock, text), pieces, requestId);
  }

  /** A newly named tool's block is started under the delta that names it. */
  lemma OpenToolLabels(r: Relay, pieces: seq<Piece>, index: int, delta: ToolDelta, requestId: string)
    requires Inv(r, pieces) && index !in r.toolBlocks && delta.name != ""
    requires Labelled(r.events, r.toolBlocks, pieces, requestId)
    ensures var id := if delta.id == "" then CallId(requestId, index) else delta.id;
      var r' := OpenTool(r, index, id, delta.name);
      Labelled(r'.events, r'.toolBlocks, pieces + [Tool(index, delta)], requestId)
  {
    var id := if delta.id == "" then CallId(requestId, index) else delta.id;
    var e := BlockStart(r.nextBlock, ToolBlock(id, delta.name));
    var longer := pieces + [Tool(index, delta)];
    WriteKeepsLabels(r, e, pieces, requestId);
    PieceKeepsNaming(r.events + [e], r.toolBlocks, pieces, Tool(index, delta), requestId);
    NamingStays(pieces, Tool(index, delta), index);
    Extend(pieces, Tool(index, delta), index);
    assert Started(r.events + [e], r.nextBlock, ToolBlock(id, delta.name));
  }

  lemma ToolKeepsLabels(r: Relay, pieces: seq<Piece>, index: int, delta: ToolDelta, requestId: string)
    requires Inv(r, pieces) && Labelled(r.events, r.toolBlocks, pieces, requestId)
    ensures var r' := OnTool(r, index, delta, CallId(requestId, index));
      Labelled(r'.events, r'.toolBlocks, pieces + [Tool(index, delta)], requestId)
  {
    var closed, longer := CloseThinking(r), pieces + [Tool(index, delta)];
    CloseThinkingKeepsInv(r, pieces);
    CloseThinkingKeepsLabels(r, pieces, requestId);
    var ready := EnsureTool(r, index, delta, CallId(requestId, index));
    if index !in closed.toolBlocks && delta.name != "" {
      CloseTextKeepsInv(closed, pieces);
      if closed.textStarted { WriteKeepsLabels(closed, BlockStop(closed.textBlock), pieces, requestId); }
      OpenToolLabels(CloseText(closed), pieces, index, delta, requestId);
    } else {
      PieceKeepsNaming(closed.events, closed.toolBlocks, pieces, Tool(index, delta), requestId);
    }
    if index in ready.toolBlocks && delta.arguments != "" {
      WriteKeepsLabels(ready, JsonDelta(ready.toolBlocks[index], delta.arguments), longer, requestId);
    }
  }

  lemma PieceKeepsLabels(r: Relay, pieces: seq<Piece>, piece: Piece, requestId: string)
    requires Inv(r, pieces) && Labelled(r.events, r.toolBlocks, pieces, requestId)
    ensures var r' := OnPiece(r, piece, requestId);
      Labelled(r'.events, r'.toolBlocks, pieces + [piece], requestId)
  {
    match piece
    case Thought(text) =>
      ThoughtKeepsLabels(r, pieces, text, requestId);
      PieceKeepsNaming(OnThought(r, text).events, r.toolBlocks, pieces, piece, requestId);
    case Text(text) =>
      TextKeepsLabels(r, pieces, text, requestId);
      PieceKeepsNaming(OnText(r, text).events, r.toolBlocks, pieces, piece, requestId);
    case Tool(index, delta) => ToolKeepsLabels(r, pieces, index, delta, requestId);
  }

  lemma {:induction false} PiecesKeepLabels(r: Relay, pieces: seq<Piece>, requestId: string)
    requires Inv(r, []) && r.toolBlocks == map[]
    ensures var r' := OnPieces(r, pieces, requestId); Labelled(r'.events, r'.toolBlocks, pieces, requestId)
  {
    if pieces != [] {
      var before, piece := pieces[..|pieces| - 1], pieces[|pieces| - 1];
      assert before + [piece] == pieces;
      PiecesKeepLabels(r, before, requestId);
      PiecesKeepInv(r, before, requestId);
      PieceKeepsLabels(OnPieces(r, before, requestId), before, piece, requestId);
    }
  }

  method RelayTools(r: Relay, tools: seq<ToolDelta>, requestId: string) returns (r': Relay)
    ensures r' == OnPieces(r, ToolPieces(tools, |tools|), requestId)
  {
    r' := r;
    for k := 0 to |tools|
      invariant r' == OnPieces(r, ToolPieces(tools, k), requestId)
    {
      var index := ToolIndex(tools[k], k);
      OnOneMore(r, ToolPieces(tools, k), Tool(index, tools[k]), requestId);
      r' := OnTool(r', index, tools[k], CallId(requestId, index));
    }
  }

  method RelayChoice(r: Relay, choice: Choice, requestId: string) returns (r': Relay)
    ensures r' == OnPieces(r, ChoicePieces(choice), requestId)
  {
    r' := r;
    ghost var read: seq<Piece> := [];
    if choice.reasoning != "" {
      OnOneMore(r, read, Thought(choice.reasoning), requestId);
      r' := OnThought(r', choice.reasoning);
      read := read + [Thought(choice.reasoning)];
    }
    if choice.content != "" {
      OnOneMore(r, read, Text(choice.content), requestId);
      r' := OnText(r', choice.content);
      read := read + [Text(choice.content)];
    }
    assert read == TextPieces(choice);
    OnMore(r, read, ToolPieces(choice.tools, |choice.tools|), ChoicePieces(choice), requestId);
    r' := RelayTools(r', choice.tools, requestId);
  }

  lemma OneMoreChoice(r: Relay, chunk: Chunk, n: nat, requestId: string)
    requires n < |chunk|
    ensures OnPieces(r, ChunkPieces(chunk, n + 1), requestId) ==
      OnPieces(OnPieces(r, ChunkPieces(chunk, n), requestId), ChoicePieces(chunk[n]), requestId)
  {
    OnMore(r, ChunkPieces(chunk, n), ChoicePieces(chunk[n]), ChunkPieces(chunk, n + 1), requestId);
  }

  method RelayChunk(r: Relay, chunk: Chunk, requestId: string) returns (r': Relay)
    ensures r' == OnPieces(r, ChunkPieces(chunk, |chunk|), requestId)
  {
    r' := r;
    for n := 0 to |chunk|
      invariant r' == OnPieces(r, ChunkPieces(chunk, n), requestId)
    {
      OneMoreChoice(r, chunk, n, requestId);
      r' := RelayChoice(r', chunk[n], requestId);
    }
  }

  /** `sortedBlockIndexes`, whatever order the table is visited in. */
  method SortedBlocks(blocks: map<int, nat>) returns (sorted: seq<nat>)
    requires forall i, j :: i in blocks && j in blocks && blocks[i] == blocks[j] ==> i == j
    ensures Ascending(sorted)
    ensures forall b :: b in sorted <==> IsBlock(blocks, b)
  {
    sorted := [];
    var left := blocks.Keys;
    while left != {}
      invariant left <= blocks.Keys && Ascending(sorted)
      invariant forall b :: b in sorted ==> IsBlock(blocks, b)
      invariant forall i :: i in blocks ==> (blocks[i] in sorted <==> i !in left)
      decreases left
    {
      var i := PickOne(left);
      sorted := InsertSorted(sorted, blocks[i]);
      left := left - {i};
    }
  }

  function WithStops(events: seq<Event>, blocks: seq<nat>): seq<Event> {
    if blocks == [] then events
    else WithStops(events, blocks[..|blocks| - 1]) + [BlockStop(blocks[|blocks| - 1])]
  }

  lemma {:induction false} StopsSendNothing(events: seq<Event>, blocks: seq<nat>, b: nat)
    ensures TextSent(WithStops(events, blocks)) == TextSent(events)
    ensures ThinkingSent(WithStops(events, blocks)) == ThinkingSent(events)
    ensures JsonSent(WithStops(events, blocks), b) == JsonSent(events, b)
  {
    if blocks == [] {
    } else {
      var n := |blocks| - 1;
      StopsSendNothing(events, blocks[..n], b);
      Appended(WithStops(events, blocks[..n]), BlockStop(blocks[n]), b);
    }
  }

  /** What is left open once `blocks` are stopped. */
  function Remaining(open: map<nat, Kind>, blocks: seq<nat>): (left: map<nat, Kind>)
    ensures forall b :: b in left <==> b in open && b !in blocks
  {
    if blocks == [] then open
    else
      var n := |blocks| - 1;
      assert blocks == blocks[..n] + [blocks[n]];
      Remaining(open, blocks[..n]) - {blocks[n]}
  }

  lemma ReadsOneMore(events: seq<Event>, c: Client, e: Event)
    requires Read(events) == Accepted(c)
    ensures Read(events + [e]) == Accept(c, e)
  {
    assert (events + [e])[..|events|] == events;
  }

  /** Each block is still open when its turn to stop comes. */
  predicate StopsOnce(open: map<nat, Kind>, blocks: seq<nat>) {
    blocks == [] ||
    (StopsOnce(open, blocks[..|blocks| - 1]) && blocks[|blocks| - 1] in Remaining(open, blocks[..|blocks| - 1]))
  }

  lemma {:induction false} AscendingStopsOnce(open: map<nat, Kind>, blocks: seq<nat>)
    requires Ascending(blocks) && forall x :: x in blocks ==> x in open
    ensures StopsOnce(open, blocks)
  {
    if blocks == [] {
    } else {
      var n := |blocks| - 1;
      assert forall x :: x in blocks[..n] ==> x in blocks;
      AscendingStopsOnce(open, blocks[..n]);
      assert blocks[n] in blocks && blocks[n] !in blocks[..n];
    }
  }

  lemma {:induction false} StopsAreAccepted(events: seq<Event>, c: Client, blocks: seq<nat>)
    requires Read(events) == Accepted(c) && c.phase.Streaming? && StopsOnce(c.open, blocks)
    ensures Read(WithStops(events, blocks)) == Accepted(c.(open := Remaining(c.open, blocks)))
  {
    if blocks == [] {
    } else {
      var n := |blocks| - 1;
      StopsAreAccepted(events, c, blocks[..n]);
      ReadsOneMore(WithStops(events, blocks[..n]), c.(open := Remaining(c.open, blocks[..n])), BlockStop(blocks[n]));
    }
  }

  /** The message is complete for a client: everything was accepted, no block is open, and the
      stop has come. */
  ghost predicate WellBracketed(events: seq<Event>) {
    Read(events).Accepted? && Read(events).client.open == map[] && Read(events).client.phase.Ended?
  }

  ghost predicate Faithful(events: seq<Event>, blocks: map<int, nat>, pieces: seq<Piece>) {
    && TextSent(events) == TextOf(pieces)
    && ThinkingSent(events) == ThoughtOf(pieces)
    && blocks.Keys == NamedTools(pieces)
    && (forall i, j :: i in blocks && j in blocks && blocks[i] == blocks[j] ==> i == j)
    && (forall i :: i in blocks ==> JsonSent(events, blocks[i]) == ArgumentsSinceNaming(pieces, i))
  }

  lemma OpenBlocksAreTools(r: Relay, pieces: seq<Piece>, b: nat)
    requires Inv(r, pieces) && !r.textStarted && !r.thinkingStarted
    ensures b in Read(r.events).client.open <==> IsBlock(r.toolBlocks, b)
  {
  }

  function WindUp(events: seq<Event>, blocks: seq<nat>): seq<Event> {
    WithStops(events, blocks) + [MessageDelta] + [MessageStop]
  }

  lemma WindUpSendsNothing(events: seq<Event>, blocks: seq<nat>, b: nat)
    ensures TextSent(WindUp(events, blocks)) == TextSent(events)
    ensures ThinkingSent(WindUp(events, blocks)) == ThinkingSent(events)
    ensures JsonSent(WindUp(events, blocks), b) == JsonSent(events, b)
  {
    var stopped := WithStops(events, blocks);
    StopsSendNothing(events, blocks, b);
    Appended(stopped, MessageDelta, b);
    Appended(stopped + [MessageDelta], MessageStop, b);
  }

  lemma WindUpIsWellBracketed(events: seq<Event>, c: Client, sorted: seq<nat>)
    requires Read(events) == Accepted(c) && c.phase.Streaming? && Ascending(sorted)
    requires forall b :: b in sorted <==> b in c.open
    ensures WellBracketed(WindUp(events, sorted))
  {
    AscendingStopsOnce(c.open, sorted);
    StopsAreAccepted(events, c, sorted);
    assert Remaining(c.open, sorted) == map[];
    ReadsOneMore(WithStops(events, sorted), c.(open := map[]), MessageDelta);
    ReadsOneMore(WithStops(events, sorted) + [MessageDelta], Client(c.next, map[], WindingUp), MessageStop);
  }

  lemma WindUpIsFaithful(r: Relay, pieces: seq<Piece>, sorted: seq<nat>)
    requires Inv(r, pieces)
    ensures Faithful(WindUp(r.events, sorted), r.toolBlocks, pieces)
  {
    forall b ensures JsonSent(WindUp(r.events, sorted), b) == JsonSent(r.events, b) {
      WindUpSendsNothing(r.events, sorted, b);
    }
    WindUpSendsNothing(r.events, sorted, 0);
  }

  lemma {:induction false} WindUpKeepsLabels(events: seq<Event>, blocks: seq<nat>, b: nat, kind: Kind)
    requires Started(events, b, kind)
    ensures Started(WithStops(events, blocks), b, kind) && Started(WindUp(events, blocks), b, kind)
  {
    if blocks != [] {
      var n := |blocks| - 1;
      WindUpKeepsLabels(events, blocks[..n], b, kind);
      StartedStays(WithStops(events, blocks[..n]), BlockStop(blocks[n]), b, kind);
    }
    StartedStays(WithStops(events, blocks), MessageDelta, b, kind);
    StartedStays(WithStops(events, blocks) + [MessageDelta], MessageStop, b, kind);
  }

  lemma WoundUpIsLabelled(events: seq<Event>, sorted: seq<nat>, blocks: map<int, nat>, pieces: seq<Piece>,
                          requestId: string)
    requires Labelled(events, blocks, pieces, requestId)
    ensures Labelled(WindUp(events, sorted), blocks, pieces, requestId)
  {
    forall i | i in blocks && i in NamedTools(pieces)
      ensures var naming := FirstNaming(pieces, i);
        Started(WindUp(events, sorted), blocks[i],
                ToolBlock(if naming.id == "" then CallId(requestId, i) else naming.id, naming.name))
    {
      var naming := FirstNaming(pieces, i);
      WindUpKeepsLabels(events, sorted, blocks[i],
                        ToolBlock(if naming.id == "" then CallId(requestId, i) else naming.id, naming.name));
    }
  }

  method WriteStops(events: seq<Event>, blocks: seq<nat>) returns (all: seq<Event>)
    ensures all == WithStops(events, blocks)
  {
    all := events;
    for k := 0 to |blocks|
      invariant all == WithStops(events, blocks[..k])
    {
      assert blocks[..k + 1][..k] == blocks[..k];
      all := all + [BlockStop(blocks[k])];
    }
    assert blocks[..|blocks|] == blocks;
  }

  /** Winds up the message after a complete stream. */
  method FinishMessage(r: Relay, ghost pieces: seq<Piece>, ghost requestId: string) returns (events: seq<Event>)
    requires Inv(r, pieces) && Labelled(r.events, r.toolBlocks, pieces, requestId)
    ensures WellBracketed(events) && Faithful(events, r.toolBlocks, pieces)
    ensures Labelled(events, r.toolBlocks, pieces, requestId)
  {
    CloseThinkingKeepsInv(r, pieces);
    CloseThinkingKeepsLabels(r, pieces, requestId);
    var closed := CloseThinking(r);
    CloseTextKeepsInv(closed, pieces);
    if closed.textStarted { WriteKeepsLabels(closed, BlockStop(closed.textBlock), pieces, requestId); }
    closed := CloseText(closed);
    assert Inv(closed, pieces) && !closed.textStarted && !closed.thinkingStarted;
    var blocks := SortedBlocks(closed.toolBlocks);
    forall b ensures b in Read(closed.events).client.open <==> b in blocks { OpenBlocksAreTools(closed, pieces, b); }
    WindUpIsWellBracketed(closed.events, Read(closed.events).client, blocks);
    WindUpIsFaithful(closed, pieces, blocks);
    WoundUpIsLabelled(closed.events, blocks, closed.toolBlocks, pieces, requestId);
    events := WriteStops(closed.events, blocks);
    events := events + [MessageDelta] + [MessageStop];
  }

  const START: Relay := Relay([MessageStart], false, 0, false, 0, map[], 0)

  method RelayFrame(r: Relay, frame: Frame, requestId: string) returns (r': Relay)
    ensures r' == OnPieces(r, FramePieces(frame), requestId)
  {
    r' := r;
    if frame.Payload? {
      r' := RelayChunk(r, frame.chunk, requestId);
    }
  }

  lemma OneMoreFrame(frames: seq<Frame>, k: nat, requestId: string)
    requires k < |frames|
    ensures OnPieces(START, Pieces(frames, k + 1), requestId) ==
      OnPieces(OnPieces(START, Pieces(frames, k), requestId), FramePieces(frames[k]), requestId)
  {
    OnMore(START, Pieces(frames, k), FramePieces(frames[k]), Pieces(frames, k + 1), requestId);
  }

  /** Reads the stream up to its end or its first error. */
  method Consume(frames: seq<Frame>, requestId: string) returns (ok: bool, r: Relay, ghost n: nat)
    ensures n <= |frames| && r == OnPieces(START, Pieces(frames, n), requestId)
    ensures ok <==> Complete(frames)
    ensures ok ==> n == |frames|
  {
    r, n, ok := START, 0, false;
    for k := 0 to |frames|
      invariant n == k && r == OnPieces(START, Pieces(frames, k), requestId)
      invariant ok <==> SeenDone(frames, k)
      invariant !Failed(frames, k)
    {
      if frames[k].Failure? {
        CompleteOrNot(frames, k);
        return false, r, k;
      }
      if frames[k].Done? {
        ok := true;
      }
      OneMoreFrame(frames, k, requestId);
      r := RelayFrame(r, frames[k], requestId);
      n := k + 1;
    }
    CompleteOrNot(frames, |frames|);
  }

  /** The whole relay. On success a client accepts every event: blocks start once each in order from
      zero, deltas name open blocks of their kind, every block stops once and none is open at
      `message_delta`. Text and thinking arrive whole, and each tool's fragments arrive from the
      delta that names it on. On failure the client accepted everything sent so far. */
  method RelayAnthropicStream(frames: seq<Frame>, requestId: string)
      returns (ok: bool, events: seq<Event>, ghost blocks: map<int, nat>)
    ensures ok <==> Complete(frames)
    ensures ok ==> WellBracketed(events) && Faithful(events, blocks, Pieces(frames, |frames|))
    ensures ok ==> Labelled(events, blocks, Pieces(frames, |frames|), requestId)
    ensures Read(events).Accepted?
  {
    var r; ghost var n;
    ok, r, n := Consume(frames, requestId);
    StartsClean(START);
    PiecesKeepInv(START, Pieces(frames, n), requestId);
    PiecesKeepLabels(START, Pieces(frames, n), requestId);
    blocks := r.toolBlocks;
    if !ok {
      return false, r.events, blocks;
    }
    events := FinishMessage(r, Pieces(frames, n), requestId);
  }

  lemma StartsClean(r: Relay)
    requires r == Relay([MessageStart], false, 0, false, 0, map[], 0)
    ensures Inv(r, [])
  {
    forall b { Appended([], MessageStart, b); }
    Appended([], MessageStart, 0);
    assert [] + [MessageStart] == [MessageStart];
  }

  /** What is lost: a tool's fragments arrive whole exactly when none of them came before its name. */
  lemma FragmentsBeforeTheNameAreLost(pieces: seq<Piece>, index: int)
    requires index in NamedTools(pieces)
    ensures |ArgumentsSinceNaming(pieces, index)| <= |ArgumentsOf(pieces, index)|
    ensures ArgumentsSinceNaming(pieces, index) == ArgumentsOf(pieces, index) <==> EarlyFragments(pieces, index) == ""
  {
    EarlyAndLateFragments(pieces, index);
  }

  /** The fragments a tool sent before any delta named it. */
  function EarlyFragments(pieces: seq<Piece>, index: int): string {
    if pieces == [] then ""
    else
      var before := pieces[..|pieces| - 1];
      var last := pieces[|pieces| - 1];
      EarlyFragments(before, index) +
      if last.Tool? && last.index == index && index !in NamedTools(before) && last.delta.name == ""
      then last.delta.arguments else ""
  }

  lemma {:induction false} EarlyAndLateFragments(pieces: seq<Piece>, index: int)
    ensures ArgumentsOf(pieces, index) == EarlyFragments(pieces, index) + ArgumentsSinceNaming(pieces, index)
    ensures index !in NamedTools(pieces) ==> ArgumentsSinceNaming(pieces, index) == ""
  {
    if pieces != [] { EarlyAndLateFragments(pieces[..|pieces| - 1], index); }
  }

  lemma PiecesOfTools(first: ToolDelta, second: ToolDelta)
    ensures var frames := [Payload([Choice("", "", [first])]), Payload([Choice("", "", [second])]), Done];
      Complete(frames) && Pieces(frames, 3) == [Tool(first.index, first), Tool(second.index, second)]
  {
    var frames := [Payload([Choice("", "", [first])]), Payload([Choice("", "", [second])]), Done];
    assert frames[2].Done?;
    OneToolFrame(first);
    OneToolFrame(second);
    assert Pieces(frames, 0) == [] && FramePieces(frames[2]) == [];
    assert Pieces(frames, 1) == [Tool(first.index, first)];
    assert Pieces(frames, 2) == [Tool(first.index, first), Tool(second.index, second)];
  }

  lemma OneToolFrame(delta: ToolDelta)
    ensures FramePieces(Payload([Choice("", "", [delta])])) == [Tool(delta.index, delta)]
  {
    var choice := Choice("", "", [delta]);
    assert ToolPieces([delta], 0) == [];
    assert ToolPieces([delta], 1) == [Tool(delta.index, delta)];
    assert ChoicePieces(choice) == [Tool(delta.index, delta)];
    assert ChunkPieces([choice], 0) == [] && ChunkPieces([choice], 1) == [Tool(delta.index, delta)];
  }

  /** Such frames: a fragment "x" without a name, then the name with "y". The upstream arguments are "xy",
      and all that is sent of them is "y". */
  lemma LateNameLosesAFragment(start: Relay, requestId: string)
    requires start == START
    ensures var first, second := ToolDelta(0, "t", "", "x"), ToolDelta(0, "t", "f", "y");
      var frames := [Payload([Choice("", "", [first])]), Payload([Choice("", "", [second])]), Done];
      && Complete(frames) && ArgumentsOf(Pieces(frames, 3), 0) == "xy"
      && OnPieces(start, Pieces(frames, 3), requestId).events ==
         [MessageStart, BlockStart(0, ToolBlock("t", "f")), JsonDelta(0, "y")]
  {
    var first, second := ToolDelta(0, "t", "", "x"), ToolDelta(0, "t", "f", "y");
    PiecesOfTools(first, second);
    var one: seq<Piece> := [Tool(0, first)];
    assert [] + [Tool(0, first)] == one && one + [Tool(0, second)] == [Tool(0, first), Tool(0, second)];
    Extend([], Tool(0, first), 0);
    Extend(one, Tool(0, second), 0);
    OnOneMore(start, [], Tool(0, first), requestId);
    OnOneMore(start, one, Tool(0, second), requestId);
    assert OnPieces(start, one, requestId) == start;
  }
}
