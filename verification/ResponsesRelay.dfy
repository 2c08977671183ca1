/** Relaying an OpenAI stream as Responses output items: the part written while the stream runs. */
module ResponsesRelay {
  import opened ChatStream
  import opened ChatOutput

  datatype Kind = ReasoningItem | MessageItem | ToolItem

  datatype Event =
    | Created
    | ItemAdded(index: nat, kind: Kind)
    | PartAdded(index: nat)
    | ReasoningDelta(index: nat, text: string)
    | TextDelta(index: nat, text: string)
    | ArgumentsDelta(index: nat, text: string)
    | InputDelta(index: nat, text: string)
    | ReasoningDone(index: nat, text: string)
    | TextDone(index: nat, text: string)
    | ArgumentsDone(index: nat, text: string)
    | InputDone(index: nat, text: string)
    | PartDone(index: nat)
    | ItemDone(index: nat)
    | Terminal(content: string, reasoning: string, calls: seq<Call>)

  // ---------------------------------------------------------------- what a client accepts

  datatype Slot = Slot(kind: Kind, complete: bool)

  /** A client's view: the next output index, the open items, all text and reasoning heard, for each
      reasoning item the deltas heard and the text it was done with, and for each tool item the
      argument deltas heard and the value it was completed with. */
  datatype Client = Client(
    next: nat,
    open: map<nat, Slot>,
    text: string,
    thought: string,
    thoughts: map<nat, string>,
    summaries: map<nat, string>,
    arguments: map<nat, string>,
    inputs: map<nat, string>,
    results: map<nat, string>,
    ended: bool)

  datatype Verdict = Rejected | Accepted(client: Client)

  predicate Live(c: Client, i: nat, kind: Kind) {
    i in c.open && c.open[i] == Slot(kind, false)
  }

  function ThoughtAt(c: Client, i: nat): string {
    if i in c.thoughts then c.thoughts[i] else ""
  }

  /** The client after a reasoning delta of item `i`. */
  function Pondered(c: Client, i: nat, text: string): Client {
    c.(thought := c.thought + text, thoughts := c.thoughts[i := ThoughtAt(c, i) + text])
  }

  function ArgumentsAt(c: Client, i: nat): string {
    if i in c.arguments then c.arguments[i] else ""
  }

  function InputAt(c: Client, i: nat): string {
    if i in c.inputs then c.inputs[i] else ""
  }

  function Sealed(c: Client, i: nat): Client
    requires i in c.open
  {
    c.(open := c.open[i := c.open[i].(complete := true)])
  }

  function Only(allowed: bool, c: Client): Verdict {
    if allowed then Accepted(c) else Rejected
  }

  /** Items are added once each with consecutive indexes, deltas go to a live item of their kind, the
      done text is all text heard, an item is completed before it is done and done once, and the
      response ends with no item open and repeats the content and reasoning heard. A reasoning item's
      done text is taken as it comes. */
  function Accept(c: Client, e: Event): Verdict {
    if c.ended then Rejected
    else
      match e
      case Created => Only(c.next == 0 && c.open == map[], c)
      case ItemAdded(i, kind) => Only(i == c.next, c.(next := c.next + 1, open := c.open[c.next := Slot(kind, false)]))
      case PartAdded(i) => Only(i in c.open && !c.open[i].complete, c)
      case ReasoningDelta(i, text) => Only(Live(c, i, ReasoningItem), Pondered(c, i, text))
      case TextDelta(i, text) => Only(Live(c, i, MessageItem), c.(text := c.text + text))
      case ArgumentsDelta(i, text) =>
        Only(Live(c, i, ToolItem), c.(arguments := c.arguments[i := ArgumentsAt(c, i) + text]))
      case InputDelta(i, text) => Only(Live(c, i, ToolItem), c.(inputs := c.inputs[i := InputAt(c, i) + text]))
      case ReasoningDone(i, text) =>
        if Live(c, i, ReasoningItem) then Accepted(Sealed(c, i).(summaries := c.summaries[i := text])) else Rejected
      case TextDone(i, text) => if Live(c, i, MessageItem) && text == c.text then Accepted(Sealed(c, i)) else Rejected
      case ArgumentsDone(i, text) =>
        if Live(c, i, ToolItem) then Accepted(Sealed(c, i).(results := c.results[i := text])) else Rejected
      case InputDone(i, text) =>
        if Live(c, i, ToolItem) && text == InputAt(c, i) then Accepted(Sealed(c, i).(results := c.results[i := text]))
        else Rejected
      case PartDone(i) => Only(i in c.open && c.open[i].complete, c)
      case ItemDone(i) => Only(i in c.open && c.open[i].complete, c.(open := c.open - {i}))
      case Terminal(content, reasoning, _) =>
        Only(c.open == map[] && content == c.text && reasoning == c.thought, c.(ended := true))
  }

  const NEWCOMER: Client := Client(0, map[], "", "", map[], map[], map[], map[], map[], false)

  function Read(events: seq<Event>): Verdict {
    if events == [] then Accepted(NEWCOMER)
    else
      match Read(events[..|events| - 1])
      case Rejected => Rejected
      case Accepted(c) => Accept(c, events[|events| - 1])
  }

  lemma ReadsOneMore(events: seq<Event>, c: Client, e: Event)
    requires Read(events) == Accepted(c)
    ensures Read(events + [e]) == Accept(c, e)
  {
    assert (events + [e])[..|events|] == events;
  }

  // ---------------------------------------------------------------- the relay's own state

  /** The relay's local variables, with the events written so far. A tool is announced exactly when
      it has an output index. */
  datatype Relay = Relay(
    events: seq<Event>,
    textStarted: bool,
    textIndex: nat,
    reasoningStarted: bool,
    reasoningIndex: nat,
    reasoningText: string,
    names: map<int, string>,
    lengths: map<int, nat>,
    outputs: map<int, nat>,
    next: nat)

  /** Decoding left to other parts: whether a name is a custom tool's, whether text is JSON, and the
      input held in a custom tool's arguments. */
  datatype Decoder = Decoder(custom: string -> bool, valid: string -> bool, input: string -> string)

  function NameIn(r: Relay, index: int): string {
    if index in r.names then r.names[index] else ""
  }

  function Emitted(r: Relay, index: int): nat {
    if index in r.lengths then r.lengths[index] else 0
  }

  function Write(r: Relay, e: Event): Relay {
    r.(events := r.events + [e])
  }

  function AddItem(r: Relay, kind: Kind): Relay {
    Write(r, ItemAdded(r.next, kind)).(next := r.next + 1)
  }

  function CloseReasoning(r: Relay): Relay {
    if !r.reasoningStarted then r
    else
      var i := r.reasoningIndex;
      Write(Write(Write(r, ReasoningDone(i, r.reasoningText)), PartDone(i)), ItemDone(i)).(reasoningStarted := false)
  }

  function OpenReasoning(r: Relay): Relay {
    if r.reasoningStarted then r
    else Write(AddItem(r, ReasoningItem), PartAdded(r.next)).(reasoningStarted := true, reasoningIndex := r.next)
  }

  function OpenText(r: Relay): Relay {
    if r.textStarted then r
    else Write(AddItem(r, MessageItem), PartAdded(r.next)).(textStarted := true, textIndex := r.next)
  }

  function TellThought(r: Relay, text: string): Relay {
    Write(r, ReasoningDelta(r.reasoningIndex, text)).(reasoningText := r.reasoningText + text)
  }

  function TellText(r: Relay, text: string): Relay {
    Write(r, TextDelta(r.textIndex, text))
  }

  function OnThought(r: Relay, text: string): Relay {
    TellThought(OpenReasoning(r), text)
  }

  function OnText(r: Relay, text: string): Relay {
    TellText(OpenText(CloseReasoning(r)), text)
  }

  /** Records the name and announces the tool when it is first named. */
  function Announce(r: Relay, index: int, delta: ToolDelta): Relay {
    var opens := delta.name != "" && index !in r.outputs;
    r.(names := if delta.name != "" then r.names[index := delta.name] else r.names,
       events := if opens then r.events + [ItemAdded(r.next, ToolItem)] else r.events,
       outputs := if opens then r.outputs[index := r.next] else r.outputs,
       next := if opens then r.next + 1 else r.next)
  }

  /** Sends what the accumulated arguments have beyond what was sent; a custom tool's are held back. */
  function Send(d: Decoder, r: Relay, index: int, accumulated: string): Relay {
    if index !in r.outputs || |accumulated| <= Emitted(r, index) then r
    else
      var counted := r.(lengths := r.lengths[index := |accumulated|]);
      if d.custom(NameIn(r, index)) then counted
      else Write(counted, ArgumentsDelta(r.outputs[index], accumulated[Emitted(r, index)..]))
  }

  function OnTool(d: Decoder, r: Relay, index: int, delta: ToolDelta, accumulated: string): Relay {
    Send(d, Announce(CloseReasoning(r), index, delta), index, accumulated)
  }

  // ---------------------------------------------------------------- what every step keeps

  ghost predicate IsOutput(outputs: map<int, nat>, b: nat) {
    exists i :: i in outputs && outputs[i] == b
  }

  ghost predicate OneOutputEach(outputs: map<int, nat>) {
    forall i, j :: i in outputs && j in outputs && outputs[i] == outputs[j] ==> i == j
  }

  /** The items client `c` has open are exactly the relay's, each of its kind and none complete. */
  ghost predicate Matches(r: Relay, c: Client) {
    && c.next == r.next && !c.ended
    && (forall b :: b in c.open ==> b < r.next && !c.open[b].complete)
    && (r.textStarted ==> Live(c, r.textIndex, MessageItem))
    && (r.reasoningStarted ==> Live(c, r.reasoningIndex, ReasoningItem))
    && (forall i :: i in r.outputs ==> Live(c, r.outputs[i], ToolItem))
    && OneOutputEach(r.outputs)
    && (forall b :: b in c.open ==>
          match c.open[b].kind
          case MessageItem => r.textStarted && b == r.textIndex
          case ReasoningItem => r.reasoningStarted && b == r.reasoningIndex
          case ToolItem => IsOutput(r.outputs, b))
  }

  ghost predicate Carries(r: Relay, c: Client, pieces: seq<Piece>) {
    && c.text == TextOf(pieces)
    && c.thought == ThoughtOf(pieces) == r.reasoningText
    && (!r.textStarted ==> c.text == "")
    && r.outputs.Keys == NamedTools(pieces)
    && (forall i :: i in r.lengths ==> i in r.outputs)
    && (forall b :: b in c.arguments ==> b < r.next)
    && c.results == map[] && c.inputs == map[]
  }

  ghost predicate Inv(r: Relay, c: Client, pieces: seq<Piece>) {
    Read(r.events) == Accepted(c) && Matches(r, c) && Carries(r, c, pieces)
  }

  /** Tool `i` is known as `name`, and what was sent of its arguments is `s`. */
  ghost predicate Told(r: Relay, c: Client, i: int, name: string, s: string) {
    && NameIn(r, i) == name
    && (i in r.outputs ==> ArgumentsAt(c, r.outputs[i]) == s && Emitted(r, i) == |s|)
  }

  // Each step below has a partner that says what the client makes of it.

  function AfterClose(r: Relay, c: Client): Client {
    if r.reasoningStarted
    then c.(open := c.open - {r.reasoningIndex}, summaries := c.summaries[r.reasoningIndex := r.reasoningText])
    else c
  }

  lemma SealAndClose(events: seq<Event>, c: Client, i: nat, done: Event, sealed: Client)
    requires Read(events) == Accepted(c) && i in c.open && !c.ended
    requires Accept(c, done) == Accepted(sealed) && sealed == Sealed(c, i).(summaries := sealed.summaries)
    ensures Read(events + [done] + [PartDone(i)] + [ItemDone(i)]) ==
      Accepted(c.(open := c.open - {i}, summaries := sealed.summaries))
  {
    ReadsOneMore(events, c, done);
    ReadsOneMore(events + [done], sealed, PartDone(i));
    ReadsOneMore(events + [done] + [PartDone(i)], sealed, ItemDone(i));
    assert sealed.open - {i} == c.open - {i};
  }

  lemma CloseMatches(r: Relay, c: Client)
    requires Matches(r, c)
    ensures Matches(CloseReasoning(r), AfterClose(r, c))
  {
  }

  lemma CloseKeepsInv(r: Relay, c: Client, pieces: seq<Piece>)
    requires Inv(r, c, pieces)
    ensures Inv(CloseReasoning(r), AfterClose(r, c), pieces)
  {
    if r.reasoningStarted {
      var i, text := r.reasoningIndex, r.reasoningText;
      SealAndClose(r.events, c, i, ReasoningDone(i, text), Sealed(c, i).(summaries := c.summaries[i := text]));
      CloseMatches(r, c);
    }
  }

  function AfterOpen(c: Client, kind: Kind): Client {
    c.(next := c.next + 1, open := c.open[c.next := Slot(kind, false)])
  }

  lemma OpenReads(events: seq<Event>, c: Client, kind: Kind)
    requires Read(events) == Accepted(c) && !c.ended
    ensures Read(events + [ItemAdded(c.next, kind)]) == Accepted(AfterOpen(c, kind))
    ensures Read(events + [ItemAdded(c.next, kind)] + [PartAdded(c.next)]) == Accepted(AfterOpen(c, kind))
  {
    ReadsOneMore(events, c, ItemAdded(c.next, kind));
    ReadsOneMore(events + [ItemAdded(c.next, kind)], AfterOpen(c, kind), PartAdded(c.next));
  }

  lemma OpenReasoningMatches(r: Relay, c: Client)
    requires Matches(r, c) && !r.reasoningStarted
    ensures Matches(OpenReasoning(r), AfterOpen(c, ReasoningItem))
  {
  }

  lemma OpenTextMatches(r: Relay, c: Client)
    requires Matches(r, c) && !r.textStarted
    ensures Matches(OpenText(r), AfterOpen(c, MessageItem))
  {
  }

  function AfterOpenReasoning(r: Relay, c: Client): Client {
    if r.reasoningStarted then c else AfterOpen(c, ReasoningItem)
  }

  lemma OpenReasoningKeepsInv(r: Relay, c: Client, pieces: seq<Piece>)
    requires Inv(r, c, pieces)
    ensures Inv(OpenReasoning(r), AfterOpenReasoning(r, c), pieces)
  {
    if !r.reasoningStarted {
      OpenReads(r.events, c, ReasoningItem);
      OpenReasoningMatches(r, c);
    }
  }

  function AfterOpenText(r: Relay, c: Client): Client {
    if r.textStarted then c else AfterOpen(c, MessageItem)
  }

  lemma OpenTextKeepsInv(r: Relay, c: Client, pieces: seq<Piece>)
    requires Inv(r, c, pieces)
    ensures Inv(OpenText(r), AfterOpenText(r, c), pieces)
  {
    if !r.textStarted {
      OpenReads(r.events, c, MessageItem);
      OpenTextMatches(r, c);
    }
  }

  function AfterThought(r: Relay, c: Client, text: string): Client {
    Pondered(AfterOpenReasoning(r, c), OpenReasoning(r).reasoningIndex, text)
  }

  /** A delta opens and closes nothing. */
  lemma SameItemsMatch(r: Relay, c: Client, r': Relay, c': Client)
    requires Matches(r, c)
    requires c'.open == c.open && c'.next == c.next && c'.ended == c.ended
    requires r'.next == r.next && r'.outputs == r.outputs
    requires r'.textStarted == r.textStarted && r'.textIndex == r.textIndex
    requires r'.reasoningStarted == r.reasoningStarted && r'.reasoningIndex == r.reasoningIndex
    ensures Matches(r', c')
  {
  }

  lemma TellThoughtCarries(r: Relay, c: Client, pieces: seq<Piece>, text: string)
    requires Carries(r, c, pieces)
    ensures Carries(TellThought(r, text), Pondered(c, r.reasoningIndex, text), pieces + [Thought(text)])
  {
    Extend(pieces, Thought(text), 0);
  }

  lemma TellThoughtKeepsInv(r: Relay, c: Client, pieces: seq<Piece>, text: string)
    requires Inv(r, c, pieces) && r.reasoningStarted
    ensures Inv(TellThought(r, text), Pondered(c, r.reasoningIndex, text), pieces + [Thought(text)])
  {
    ReadsOneMore(r.events, c, ReasoningDelta(r.reasoningIndex, text));
    SameItemsMatch(r, c, TellThought(r, text), Pondered(c, r.reasoningIndex, text));
    TellThoughtCarries(r, c, pieces, text);
  }

  lemma ThoughtKeepsInv(r: Relay, c: Client, pieces: seq<Piece>, text: string)
    requires Inv(r, c, pieces)
    ensures Inv(OnThought(r, text), AfterThought(r, c, text), pieces + [Thought(text)])
  {
    OpenReasoningKeepsInv(r, c, pieces);
    TellThoughtKeepsInv(OpenReasoning(r), AfterOpenReasoning(r, c), pieces, text);
  }

  function AfterText(r: Relay, c: Client, text: string): Client {
    AfterOpenText(r, AfterClose(r, c)).(text := c.text + text)
  }

  lemma TellTextCarries(r: Relay, c: Client, pieces: seq<Piece>, text: string)
    requires Carries(r, c, pieces) && r.textStarted
    ensures Carries(TellText(r, text), c.(text := c.text + text), pieces + [Text(text)])
  {
    Extend(pieces, Text(text), 0);
  }

  lemma TellTextKeepsInv(r: Relay, c: Client, pieces: seq<Piece>, text: string)
    requires Inv(r, c, pieces) && r.textStarted
    ensures Inv(TellText(r, text), c.(text := c.text + text), pieces + [Text(text)])
  {
    ReadsOneMore(r.events, c, TextDelta(r.textIndex, text));
    SameItemsMatch(r, c, TellText(r, text), c.(text := c.text + text));
    TellTextCarries(r, c, pieces, text);
  }

  lemma TextKeepsInv(r: Relay, c: Client, pieces: seq<Piece>, text: string)
    requires Inv(r, c, pieces)
    ensures Inv(OnText(r, text), AfterText(r, c, text), pieces + [Text(text)])
  {
    CloseKeepsInv(r, c, pieces);
    OpenTextKeepsInv(CloseReasoning(r), AfterClose(r, c), pieces);
    TellTextKeepsInv(OpenText(CloseReasoning(r)), AfterOpenText(r, AfterClose(r, c)), pieces, text);
  }

  function AfterAnnounce(r: Relay, c: Client, index: int, delta: ToolDelta): Client {
    if delta.name == "" || index in r.outputs then c else AfterOpen(c, ToolItem)
  }

  lemma AnnounceMatches(r: Relay, c: Client, index: int, delta: ToolDelta)
    requires Matches(r, c) && delta.name != "" && index !in r.outputs
    ensures Matches(Announce(r, index, delta), AfterOpen(c, ToolItem))
  {
    var r', c' := Announce(r, index, delta), AfterOpen(c, ToolItem);
    forall b | b in c'.open && c'.open[b].kind.ToolItem? ensures IsOutput(r'.outputs, b) {
      if b == r.next {
        assert r'.outputs[index] == b;
      } else {
        assert IsOutput(r.outputs, b);
        var i :| i in r.outputs && r.outputs[i] == b;
        assert r'.outputs[i] == b;
      }
    }
  }

  /** What announcing a tool leaves alone, and the tools named after it. */
  lemma AnnounceChanges(r: Relay, index: int, delta: ToolDelta)
    ensures var r' := Announce(r, index, delta);
      && r'.reasoningText == r.reasoningText && r'.textStarted == r.textStarted && r'.lengths == r.lengths
      && r'.next >= r.next && r'.outputs.Keys == r.outputs.Keys + if delta.name == "" then {} else {index}
  {}

  lemma AnnounceIsHeard(r: Relay, c: Client, index: int, delta: ToolDelta)
    ensures var c' := AfterAnnounce(r, c, index, delta);
      c' == c.(next := c'.next, open := c'.open)
  {}

  lemma AnnounceCarries(r: Relay, c: Client, pieces: seq<Piece>, index: int, delta: ToolDelta)
    requires Carries(r, c, pieces) && c.next == r.next
    ensures Carries(Announce(r, index, delta), AfterAnnounce(r, c, index, delta), pieces + [Tool(index, delta)])
  {
    Extend(pieces, Tool(index, delta), 0);
    AnnounceChanges(r, index, delta);
    AnnounceIsHeard(r, c, index, delta);
  }

  lemma AnnounceKeepsInv(r: Relay, c: Client, pieces: seq<Piece>, index: int, delta: ToolDelta)
    requires Inv(r, c, pieces)
    ensures Inv(Announce(r, index, delta), AfterAnnounce(r, c, index, delta), pieces + [Tool(index, delta)])
  {
    AnnounceCarries(r, c, pieces, index, delta);
    if delta.name != "" && index !in r.outputs {
      OpenReads(r.events, c, ToolItem);
      AnnounceMatches(r, c, index, delta);
    }
  }

  function AfterSend(d: Decoder, r: Relay, c: Client, index: int, accumulated: string): Client {
    if index !in r.outputs || |accumulated| <= Emitted(r, index) || d.custom(NameIn(r, index)) then c
    else
      var b := r.outputs[index];
      c.(arguments := c.arguments[b := ArgumentsAt(c, b) + accumulated[Emitted(r, index)..]])
  }

  lemma SendCarries(d: Decoder, r: Relay, c: Client, pieces: seq<Piece>, index: int, accumulated: string)
    requires Carries(r, c, pieces) && forall i :: i in r.outputs ==> r.outputs[i] < r.next
    ensures Carries(Send(d, r, index, accumulated), AfterSend(d, r, c, index, accumulated), pieces)
  {
  }

  lemma SendReads(d: Decoder, r: Relay, c: Client, index: int, accumulated: string)
    requires Read(r.events) == Accepted(c) && !c.ended
    requires index in r.outputs ==> Live(c, r.outputs[index], ToolItem)
    ensures Read(Send(d, r, index, accumulated).events) == Accepted(AfterSend(d, r, c, index, accumulated))
  {
    if index in r.outputs && |accumulated| > Emitted(r, index) && !d.custom(NameIn(r, index)) {
      ReadsOneMore(r.events, c, ArgumentsDelta(r.outputs[index], accumulated[Emitted(r, index)..]));
    }
  }

  lemma SendMatches(d: Decoder, r: Relay, c: Client, index: int, accumulated: string)
    requires Matches(r, c)
    ensures Matches(Send(d, r, index, accumulated), AfterSend(d, r, c, index, accumulated))
  {
    SameItemsMatch(r, c, Send(d, r, index, accumulated), AfterSend(d, r, c, index, accumulated));
  }

  lemma SendKeepsInv(d: Decoder, r: Relay, c: Client, pieces: seq<Piece>, index: int, accumulated: string)
    requires Inv(r, c, pieces)
    ensures Inv(Send(d, r, index, accumulated), AfterSend(d, r, c, index, accumulated), pieces)
  {
    SendReads(d, r, c, index, accumulated);
    SendMatches(d, r, c, index, accumulated);
    SendCarries(d, r, c, pieces, index, accumulated);
  }

  function AfterTool(d: Decoder, r: Relay, c: Client, index: int, delta: ToolDelta, accumulated: string): Client {
    var closed := CloseReasoning(r);
    AfterSend(d, Announce(closed, index, delta), AfterAnnounce(closed, AfterClose(r, c), index, delta), index,
      accumulated)
  }

  lemma ToolKeepsInv(d: Decoder, r: Relay, c: Client, pieces: seq<Piece>, index: int, delta: ToolDelta,
                     accumulated: string)
    requires Inv(r, c, pieces)
    ensures Inv(OnTool(d, r, index, delta, accumulated), AfterTool(d, r, c, index, delta, accumulated),
                pieces + [Tool(index, delta)])
  {
    CloseKeepsInv(r, c, pieces);
    var closed := CloseReasoning(r);
    AnnounceKeepsInv(closed, AfterClose(r, c), pieces, index, delta);
    SendKeepsInv(d, Announce(closed, index, delta), AfterAnnounce(closed, AfterClose(r, c), index, delta),
                 pieces + [Tool(index, delta)], index, accumulated);
  }

  // ---------------------------------------------------------------- one tool's arguments

  lemma ThoughtKeepsTold(r: Relay, c: Client, i: int, name: string, s: string, text: string)
    requires Told(r, c, i, name, s)
    ensures Told(OnThought(r, text), AfterThought(r, c, text), i, name, s)
  {
  }

  lemma TextKeepsTold(r: Relay, c: Client, i: int, name: string, s: string, text: string)
    requires Told(r, c, i, name, s)
    ensures Told(OnText(r, text), AfterText(r, c, text), i, name, s)
  {
  }

  function NewName(name: string, i: int, index: int, delta: ToolDelta): string {
    if i == index && delta.name != "" then delta.name else name
  }

  lemma AnnounceKeepsTold(r: Relay, c: Client, pieces: seq<Piece>, i: int, name: string, s: string, index: int,
                          delta: ToolDelta)
    requires Inv(r, c, pieces) && Told(r, c, i, name, s)
    ensures Told(Announce(r, index, delta), AfterAnnounce(r, c, index, delta), i, NewName(name, i, index, delta),
                 if i == index && i !in r.outputs then "" else s)
  {
  }

  lemma CloseKeepsTold(r: Relay, c: Client, i: int, name: string, s: string)
    requires Told(r, c, i, name, s)
    ensures Told(CloseReasoning(r), AfterClose(r, c), i, name, s)
  {
  }

  lemma SendReachesTotal(d: Decoder, r: Relay, c: Client, i: int, s: string, accumulated: string)
    requires i in r.outputs && ArgumentsAt(c, r.outputs[i]) == s && Emitted(r, i) == |s|
    requires s <= accumulated && !d.custom(NameIn(r, i))
    ensures ArgumentsAt(AfterSend(d, r, c, i, accumulated), r.outputs[i]) == accumulated
    ensures Emitted(Send(d, r, i, accumulated), i) == |accumulated|
  {
    assert s + accumulated[|s|..] == accumulated;
  }

  lemma SendSparesOthers(d: Decoder, r: Relay, c: Client, i: int, index: int, accumulated: string)
    requires i != index && i in r.outputs && OneOutputEach(r.outputs)
    ensures ArgumentsAt(AfterSend(d, r, c, index, accumulated), r.outputs[i]) == ArgumentsAt(c, r.outputs[i])
    ensures Emitted(Send(d, r, index, accumulated), i) == Emitted(r, i)
  {
  }

  lemma SendKeepsTold(d: Decoder, r: Relay, c: Client, i: int, name: string, s: string, index: int, accumulated: string)
    requires Told(r, c, i, name, s) && OneOutputEach(r.outputs)
    requires i == index ==> s <= accumulated && !d.custom(name)
    ensures Told(Send(d, r, index, accumulated), AfterSend(d, r, c, index, accumulated), i, name,
                 if i == index then accumulated else s)
  {
    var r' := Send(d, r, index, accumulated);
    assert r'.names == r.names && r'.outputs == r.outputs;
    if i in r.outputs {
      if i == index {
        SendReachesTotal(d, r, c, i, s, accumulated);
      } else {
        SendSparesOthers(d, r, c, i, index, accumulated);
      }
    }
  }

  lemma AnnounceAndSendKeepTold(d: Decoder, r: Relay, c: Client, pieces: seq<Piece>, i: int, name: string, s: string,
                                index: int, delta: ToolDelta, accumulated: string)
    requires Inv(r, c, pieces) && Told(r, c, i, name, s)
    requires i == index ==> s <= accumulated && !d.custom(NewName(name, i, index, delta))
    ensures Told(Send(d, Announce(r, index, delta), index, accumulated),
                 AfterSend(d, Announce(r, index, delta), AfterAnnounce(r, c, index, delta), index, accumulated), i,
                 NewName(name, i, index, delta), if i == index then accumulated else s)
  {
    AnnounceKeepsTold(r, c, pieces, i, name, s, index, delta);
    AnnounceKeepsInv(r, c, pieces, index, delta);
    SendKeepsTold(d, Announce(r, index, delta), AfterAnnounce(r, c, index, delta), i,
                  NewName(name, i, index, delta), if i == index && i !in r.outputs then "" else s, index, accumulated);
  }

  /** A plain tool catches up with its accumulated arguments at every delta, named late or not. */
  lemma ToolKeepsTold(d: Decoder, r: Relay, c: Client, pieces: seq<Piece>, i: int, name: string, s: string, index: int,
                      delta: ToolDelta, accumulated: string)
    requires Inv(r, c, pieces) && Told(r, c, i, name, s)
    requires i == index ==> s <= accumulated && !d.custom(NewName(name, i, index, delta))
    ensures Told(OnTool(d, r, index, delta, accumulated), AfterTool(d, r, c, index, delta, accumulated), i,
                 NewName(name, i, index, delta), if i == index then accumulated else s)
  {
    CloseKeepsInv(r, c, pieces);
    CloseKeepsTold(r, c, i, name, s);
    AnnounceAndSendKeepTold(d, CloseReasoning(r), AfterClose(r, c), pieces, i, name, s, index, delta, accumulated);
  }

  /** Nothing of a custom tool's arguments was sent. */
  ghost predicate Hushed(d: Decoder, r: Relay, c: Client, i: int) {
    i in r.outputs ==> d.custom(NameIn(r, i)) && ArgumentsAt(c, r.outputs[i]) == ""
  }

  lemma ThoughtKeepsHushed(d: Decoder, r: Relay, c: Client, i: int, text: string)
    requires Hushed(d, r, c, i)
    ensures Hushed(d, OnThought(r, text), AfterThought(r, c, text), i)
  {}

  lemma TextKeepsHushed(d: Decoder, r: Relay, c: Client, i: int, text: string)
    requires Hushed(d, r, c, i)
    ensures Hushed(d, OnText(r, text), AfterText(r, c, text), i)
  {}

  lemma AnnounceKeepsHushed(d: Decoder, r: Relay, c: Client, pieces: seq<Piece>, i: int, index: int, delta: ToolDelta)
    requires Inv(r, c, pieces) && Hushed(d, r, c, i)
    requires i == index && delta.name != "" ==> d.custom(delta.name)
    ensures Hushed(d, Announce(r, index, delta), AfterAnnounce(r, c, index, delta), i)
  {}

  lemma SendKeepsHushed(d: Decoder, r: Relay, c: Client, i: int, index: int, accumulated: string)
    requires Hushed(d, r, c, i) && OneOutputEach(r.outputs)
    ensures Hushed(d, Send(d, r, index, accumulated), AfterSend(d, r, c, index, accumulated), i)
  {
    if i != index && i in r.outputs { SendSparesOthers(d, r, c, i, index, accumulated); }
  }

  lemma ToolKeepsHushed(d: Decoder, r: Relay, c: Client, pieces: seq<Piece>, i: int, index: int, delta: ToolDelta,
                        accumulated: string)
    requires Inv(r, c, pieces) && Hushed(d, r, c, i)
    requires i == index && delta.name != "" ==> d.custom(delta.name)
    ensures Hushed(d, OnTool(d, r, index, delta, accumulated), AfterTool(d, r, c, index, delta, accumulated), i)
  {
    CloseKeepsInv(r, c, pieces);
    var closed, after := CloseReasoning(r), AfterClose(r, c);
    AnnounceKeepsHushed(d, closed, after, pieces, i, index, delta);
    AnnounceKeepsInv(closed, after, pieces, index, delta);
    var announced := Announce(closed, index, delta);
    SendKeepsHushed(d, announced, AfterAnnounce(closed, after, index, delta), i, index, accumulated);
  }
}
