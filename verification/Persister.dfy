/** The cooldown persister: a versioned dirty set fed by observers in any order, one drainer whose
    two writes per snapshot may fail in any way, flush markers, and shutdown. Each event below is
    one critical section or one write; runs interleave them arbitrarily.

    The pool stamps every snapshot with a fresh version under its lock (`Pool.Stamp`), so an account
    and a version name one snapshot; tables and queues hold versions, zero meaning none. */
module Persister {
  import opened Strings

  type Versions = map<string, nat>

  function Of(m: Versions, id: string): nat {
    if id in m then m[id] else 0
  }

  function Max(a: nat, b: nat): nat {
    if a < b then b else a
  }

  /** Everything guarded by `persistMu`. */
  datatype Queue = Queue(dirty: Versions, flushes: seq<nat>, persisted: Versions, closed: bool)

  function Enqueue(q: Queue, id: string, v: nat): Queue {
    if id !in q.dirty || v >= q.dirty[id] then q.(dirty := q.dirty[id := v]) else q
  }

  function Observe(q: Queue, id: string, v: nat): Queue {
    if q.closed then q else Enqueue(q, id, v)
  }

  predicate AlreadyPersisted(q: Queue, id: string, v: nat) {
    id in q.persisted && v <= q.persisted[id]
  }

  function Dequeue(q: Queue, id: string): Queue {
    q.(dirty := q.dirty - {id})
  }

  function Record(q: Queue, id: string, v: nat): Queue {
    if Of(q.persisted, id) < v then q.(persisted := q.persisted[id := v]) else q
  }

  /** The account the drainer takes next. */
  ghost predicate IsLowest(id: string, dirty: Versions) {
    id in dirty && forall other :: other in dirty ==> AtMost(id, other)
  }

  // ---------------------------------------------------------------- the critical sections

  /** The queue itself, each method one section under `persistMu`. */
  class PersistQueue {
    var dirty: Versions
    var flushes: seq<nat>
    var persisted: Versions
    var closed: bool

    ghost function Now(): Queue
      reads this
    {
      Queue(dirty, flushes, persisted, closed)
    }

    constructor ()
      ensures Now() == Queue(map[], [], map[], false)
    {
      dirty, flushes, persisted, closed := map[], [], map[], false;
    }

    method ObserveSnapshot(id: string, v: nat)
      modifies this
      ensures Now() == Observe(old(Now()), id, v)
    {
      if !closed {
        if id !in dirty || v >= dirty[id] {
          dirty := dirty[id := v];
        }
      }
    }

    method RequestFlush(marker: nat) returns (queued: bool)
      modifies this
      ensures queued == !old(closed)
      ensures Now() == if queued then old(Now()).(flushes := old(flushes) + [marker]) else old(Now())
    {
      queued := !closed;
      if queued {
        flushes := flushes + [marker];
      }
    }

    method BeginClose()
      modifies this
      ensures Now() == old(Now()).(closed := true)
    {
      closed := true;
    }

    /** Takes the lowest dirty account; `write` is false when a newer version is already on disk. */
    method TakeNext() returns (id: string, v: nat, write: bool)
      requires dirty != map[]
      modifies this
      ensures IsLowest(id, old(dirty)) && v == old(dirty)[id]
      ensures write == !AlreadyPersisted(old(Now()), id, v)
      ensures Now() == Dequeue(old(Now()), id)
    {
      id := LowestKey();
      v := dirty[id];
      dirty := dirty - {id};
      write := !(id in persisted && v <= persisted[id]);
    }

    method LowestKey() returns (id: string)
      requires dirty != map[]
      ensures IsLowest(id, dirty)
    {
      LessIsStrictTotalOrder();
      id :| id in dirty;
      var left := dirty.Keys - {id};
      while left != {}
        invariant id in dirty && left <= dirty.Keys
        invariant forall other :: other in dirty && other !in left ==> AtMost(id, other)
        decreases left
      {
        var k :| k in left;
        if Less(k, id) {
          id := k;
        }
        left := left - {k};
      }
    }

    method FireFlushes() returns (fired: seq<nat>)
      requires dirty == map[]
      modifies this
      ensures fired == old(flushes) && Now() == old(Now()).(flushes := [])
    {
      fired := flushes;
      flushes := [];
    }

    method PutBack(id: string, v: nat)
      modifies this
      ensures Now() == Enqueue(old(Now()), id, v)
    {
      if id !in dirty || v >= dirty[id] {
        dirty := dirty[id := v];
      }
    }

    method RecordPersisted(id: string, v: nat)
      modifies this
      ensures Now() == Record(old(Now()), id, v)
    {
      if Of(persisted, id) < v {
        persisted := persisted[id := v];
      }
    }
  }

  // ---------------------------------------------------------------- the system

  datatype Stage = WritingState | WritingCooldowns | Written | Failed

  datatype Drainer =
    | Idle
    | Busy(id: string, v: nat, stage: Stage)
    | BackingOff
    | Exited(abandoned: bool)

  /** `states` and `cooldowns` are the two tables on disk. The rest records what happened: the
      newest version produced per account, the snapshots no observer has delivered yet, the newest
      delivered before shutdown, what each flush marker covers, and which have fired. */
  datatype Sys = Sys(
    q: Queue,
    drainer: Drainer,
    states: Versions,
    cooldowns: Versions,
    counter: nat,
    latest: Versions,
    undelivered: set<(string, nat)>,
    delivered: Versions,
    covers: seq<Versions>,
    fired: set<nat>)

  function Init(): Sys {
    Sys(Queue(map[], [], map[], false), Idle, map[], map[], 0, map[], {}, map[], [], {})
  }

  /** `applied` says whether the write reached the table; a write may fail after it did. `Take`
      names the account the drainer picks. */
  datatype Event =
    | Produce(id: string)
    | Deliver(id: string, v: nat)
    | Flush
    | Close
    | Take(id: string)
    | Fire
    | Exit
    | Write(applied: bool, ok: bool)
    | FinishWritten
    | FinishFailed
    | BackoffOver
    | BackoffInterrupted

  ghost predicate Enabled(s: Sys, e: Event) {
    match e
    case Produce(_) => true
    case Deliver(id, v) => (id, v) in s.undelivered
    case Flush => !s.q.closed
    case Close => !s.q.closed
    case Take(id) => s.drainer.Idle? && IsLowest(id, s.q.dirty)
    case Fire => s.drainer.Idle? && s.q.dirty == map[] && s.q.flushes != []
    case Exit => s.drainer.Idle? && s.q.dirty == map[] && s.q.flushes == [] && s.q.closed
    case Write(applied, ok) =>
      s.drainer.Busy? && (s.drainer.stage.WritingState? || s.drainer.stage.WritingCooldowns?) && (ok ==> applied)
    case FinishWritten => s.drainer.Busy? && s.drainer.stage.Written?
    case FinishFailed => s.drainer.Busy? && s.drainer.stage.Failed?
    case BackoffOver => s.drainer.BackingOff?
    case BackoffInterrupted => s.drainer.BackingOff? && s.q.closed
  }

  function NextStage(stage: Stage, ok: bool): Stage {
    if !ok then Failed else if stage.WritingState? then WritingCooldowns else Written
  }

  /** The effect of an enabled event. */
  function Effect(s: Sys, e: Event): Sys {
    match e
    case Produce(id) =>
      s.(counter := s.counter + 1, latest := s.latest[id := s.counter + 1],
         undelivered := s.undelivered + {(id, s.counter + 1)})
    case Deliver(id, v) =>
      s.(q := Observe(s.q, id, v), undelivered := s.undelivered - {(id, v)},
         delivered := if s.q.closed then s.delivered else s.delivered[id := Max(Of(s.delivered, id), v)])
    case Flush =>
      s.(q := s.q.(flushes := s.q.flushes + [|s.covers|]), covers := s.covers + [s.delivered])
    case Close => s.(q := s.q.(closed := true))
    case Take(id) =>
      var v := Of(s.q.dirty, id);
      s.(q := Dequeue(s.q, id), drainer := if AlreadyPersisted(s.q, id, v) then Idle else Busy(id, v, WritingState))
    case Fire =>
      s.(q := s.q.(flushes := []), fired := s.fired + set i | 0 <= i < |s.q.flushes| :: s.q.flushes[i])
    case Exit => s.(drainer := Exited(false))
    case Write(applied, ok) =>
      if !s.drainer.Busy? then s else
      var (id, v) := (s.drainer.id, s.drainer.v);
      var state := s.drainer.stage.WritingState?;
      s.(states := if applied && state then s.states[id := v] else s.states,
         cooldowns := if applied && !state then s.cooldowns[id := v] else s.cooldowns,
         drainer := Busy(id, v, NextStage(s.drainer.stage, ok)))
    case FinishWritten =>
      if !s.drainer.Busy? then s else s.(q := Record(s.q, s.drainer.id, s.drainer.v), drainer := Idle)
    case FinishFailed =>
      if !s.drainer.Busy? then s else s.(q := Enqueue(s.q, s.drainer.id, s.drainer.v), drainer := BackingOff)
    case BackoffOver => s.(drainer := Idle)
    case BackoffInterrupted => s.(drainer := Exited(true))
  }

  ghost function Next(s: Sys, e: Event): Sys {
    if Enabled(s, e) then Effect(s, e) else s
  }

  ghost function RunFrom(s: Sys, events: seq<Event>): Sys {
    if events == [] then s else Next(RunFrom(s, events[..|events| - 1]), events[|events| - 1])
  }

  ghost function Run(events: seq<Event>): Sys {
    RunFrom(Init(), events)
  }

  // ---------------------------------------------------------------- one account at a time

  /** Everything the system knows about one account. `hand` is the version being written. */
  datatype Cell = Cell(dirty: nat, persisted: nat, hand: nat, stage: Stage, state: nat, cooldown: nat, latest: nat,
                       delivered: nat)

  function Hand(d: Drainer, id: string): nat {
    if d.Busy? && d.id == id then d.v else 0
  }

  function CellOf(s: Sys, id: string): Cell {
    Cell(Of(s.q.dirty, id), Of(s.q.persisted, id), Hand(s.drainer, id),
         if s.drainer.Busy? then s.drainer.stage else WritingState,
         Of(s.states, id), Of(s.cooldowns, id), Of(s.latest, id), Of(s.delivered, id))
  }

  /** The newest version the queue, the drainer's hand or the persisted record vouches for. */
  function Vouched(c: Cell): nat {
    Max(Max(c.dirty, c.persisted), c.hand)
  }

  /** No table row outruns what will still be written for its account, nothing persisted is missing
      from a table, and every delivered snapshot is vouched for. */
  ghost predicate CellInv(c: Cell) {
    && Vouched(c) <= c.latest && c.state <= c.latest && c.cooldown <= c.latest
    && c.persisted <= c.state && c.persisted <= c.cooldown
    && c.delivered <= Vouched(c)
    && (if c.hand > 0
        then && c.persisted < c.hand && c.state <= c.hand && c.cooldown <= c.hand
             && (c.stage.WritingCooldowns? ==> c.state == c.hand)
             && (c.stage.Written? ==> c.state == c.hand && c.cooldown == c.hand)
        else c.state <= Max(c.dirty, c.persisted) && c.cooldown <= Max(c.dirty, c.persisted))
  }

  ghost predicate CellsInv(s: Sys) {
    forall id :: CellInv(CellOf(s, id))
  }

  /** The newest snapshot is still on its way or vouched for, as long as the queue is open. */
  ghost predicate NewestInFlight(s: Sys) {
    !s.q.closed ==> forall id :: id in s.latest ==>
      (id, s.latest[id]) in s.undelivered || s.latest[id] <= Vouched(CellOf(s, id))
  }

  ghost predicate VersionsInRange(s: Sys) {
    && (forall id :: id in s.latest ==> 0 < s.latest[id] <= s.counter)
    && (forall id, v :: (id, v) in s.undelivered ==> 0 < v <= Of(s.latest, id))
    && (forall id :: id in s.q.dirty ==> s.q.dirty[id] > 0)
    && (s.drainer.Busy? ==> s.drainer.v > 0)
  }

  ghost predicate Covered(need: Versions, have: Versions) {
    forall id :: id in need ==> need[id] <= Of(have, id)
  }

  ghost predicate MarkersCovered(s: Sys) {
    && (forall i :: 0 <= i < |s.q.flushes| ==> s.q.flushes[i] < |s.covers|)
    && (forall i :: 0 <= i < |s.covers| ==> Covered(s.covers[i], s.delivered))
    && (forall i :: i in s.fired ==> i < |s.covers| && Covered(s.covers[i], s.q.persisted))
  }

  ghost predicate DrainerExplained(s: Sys) {
    && (s.drainer.BackingOff? ==> s.q.dirty != map[])
    && (s.drainer.Exited? ==> s.q.closed && (s.drainer.abandoned <==> s.q.dirty != map[]))
  }

  ghost predicate Inv(s: Sys) {
    CellsInv(s) && NewestInFlight(s) && VersionsInRange(s) && MarkersCovered(s) && DrainerExplained(s)
  }

  lemma CellsKept(s: Sys, e: Event)
    requires CellsInv(s) && VersionsInRange(s) && Enabled(s, e)
    ensures CellsInv(Effect(s, e))
  {
    forall id ensures CellInv(CellOf(Effect(s, e), id)) {
      CellKept(s, e, id);
    }
  }

  lemma CellKept(s: Sys, e: Event, id: string)
    requires CellInv(CellOf(s, id)) && VersionsInRange(s) && Enabled(s, e)
    ensures CellInv(CellOf(Effect(s, e), id))
  {
    match e
    case Produce(k) => ProductionKeepsCell(s, k, id);
    case Deliver(k, v) => DeliveryKeepsCell(s, k, v, id);
    case Take(k) => TakeKeepsCell(s, k, id);
    case Write(applied, ok) => WriteKeepsCell(s, applied, ok, id);
    case FinishWritten => FinishKeepsCell(s, e, id);
    case FinishFailed => FinishKeepsCell(s, e, id);
    case _ =>
  }

  lemma ProductionKeepsCell(s: Sys, k: string, id: string)
    requires CellInv(CellOf(s, id)) && VersionsInRange(s)
    ensures CellInv(CellOf(Effect(s, Produce(k)), id))
  {
    assert CellOf(Effect(s, Produce(k)), id) ==
      CellOf(s, id).(latest := if k == id then s.counter + 1 else Of(s.latest, id));
  }

  lemma DeliveryKeepsCell(s: Sys, k: string, v: nat, id: string)
    requires CellInv(CellOf(s, id)) && VersionsInRange(s) && (k, v) in s.undelivered
    ensures CellInv(CellOf(Effect(s, Deliver(k, v)), id))
  {
    DeliveredCell(s, k, v, id);
  }

  lemma DeliveredCell(s: Sys, k: string, v: nat, id: string)
    requires VersionsInRange(s) && (k, v) in s.undelivered
    ensures var c := CellOf(s, id);
      CellOf(Effect(s, Deliver(k, v)), id) ==
        if k == id && !s.q.closed then c.(dirty := Max(c.dirty, v), delivered := Max(c.delivered, v)) else c
  {}

  lemma TakeKeepsCell(s: Sys, k: string, id: string)
    requires CellInv(CellOf(s, id)) && VersionsInRange(s) && Enabled(s, Take(k))
    ensures CellInv(CellOf(Effect(s, Take(k)), id))
  {
    if k != id { assert Of(s.q.dirty - {k}, id) == Of(s.q.dirty, id); }
  }

  lemma WriteKeepsCell(s: Sys, applied: bool, ok: bool, id: string)
    requires CellInv(CellOf(s, id)) && VersionsInRange(s) && Enabled(s, Write(applied, ok))
    ensures CellInv(CellOf(Effect(s, Write(applied, ok)), id))
  {}

  lemma FinishKeepsCell(s: Sys, e: Event, id: string)
    requires CellInv(CellOf(s, id)) && VersionsInRange(s) && Enabled(s, e)
    requires e.FinishWritten? || e.FinishFailed?
    ensures CellInv(CellOf(Effect(s, e), id))
  {
    FinishedCell(s, e, id);
  }

  /** What the drainer held is recorded, or back in the queue. */
  lemma FinishedCell(s: Sys, e: Event, id: string)
    requires VersionsInRange(s) && Enabled(s, e) && (e.FinishWritten? || e.FinishFailed?)
    ensures var c := CellOf(s, id);
      CellOf(Effect(s, e), id) ==
        c.(hand := 0, stage := WritingState,
           persisted := if e.FinishWritten? then Max(c.persisted, c.hand) else c.persisted,
           dirty := if e.FinishFailed? then Max(c.dirty, c.hand) else c.dirty)
  {}

  lemma RangesKept(s: Sys, e: Event)
    requires VersionsInRange(s) && Enabled(s, e)
    ensures VersionsInRange(Effect(s, e))
  {}

  lemma VouchedNeverDrops(s: Sys, e: Event, id: string)
    requires Enabled(s, e)
    ensures Vouched(CellOf(s, id)) <= Vouched(CellOf(Effect(s, e), id))
  {}

  lemma NewestKept(s: Sys, e: Event)
    requires NewestInFlight(s) && VersionsInRange(s) && Enabled(s, e)
    ensures NewestInFlight(Effect(s, e))
  {
    var s' := Effect(s, e);
    if !s'.q.closed {
      forall id | id in s'.latest
        ensures (id, s'.latest[id]) in s'.undelivered || s'.latest[id] <= Vouched(CellOf(s', id))
      {
        VouchedNeverDrops(s, e, id);
      }
    }
  }

  lemma MarkersKept(s: Sys, e: Event)
    requires MarkersCovered(s) && CellsInv(s) && Enabled(s, e)
    ensures MarkersCovered(Effect(s, e))
  {
    var s' := Effect(s, e);
    forall need | Covered(need, s.q.persisted) ensures Covered(need, s'.q.persisted) {}
    forall need | Covered(need, s.delivered) ensures Covered(need, s'.delivered) {}
    if e.Fire? {
      forall id ensures Of(s.delivered, id) <= Of(s.q.persisted, id) {
        assert CellInv(CellOf(s, id));
      }
    }
  }

  lemma ExplanationKept(s: Sys, e: Event)
    requires DrainerExplained(s) && Enabled(s, e)
    ensures DrainerExplained(Effect(s, e))
  {
    if e.FinishFailed? {
      assert s.drainer.id in Effect(s, e).q.dirty;
    }
  }

  lemma {:induction false} RunsKeepInv(events: seq<Event>)
    ensures Inv(Run(events))
  {
    if events != [] {
      var s, e := Run(events[..|events| - 1]), events[|events| - 1];
      RunsKeepInv(events[..|events| - 1]);
      if Enabled(s, e) {
        CellsKept(s, e);
        RangesKept(s, e);
        NewestKept(s, e);
        MarkersKept(s, e);
        ExplanationKept(s, e);
      }
    }
  }

  // ---------------------------------------------------------------- guarantees

  lemma NextNeverGoesBack(s: Sys, e: Event, id: string)
    requires CellInv(CellOf(s, id)) && VersionsInRange(s) && Enabled(s, e)
    ensures Of(s.states, id) <= Of(Effect(s, e).states, id)
    ensures Of(s.cooldowns, id) <= Of(Effect(s, e).cooldowns, id)
  {}

  /** Whatever the delivery order and however writes fail, neither table ever goes back to an older
      snapshot of an account. */
  lemma {:induction false} DiskNeverGoesBack(events: seq<Event>, more: seq<Event>, id: string)
    ensures Of(Run(events).states, id) <= Of(Run(events + more).states, id)
    ensures Of(Run(events).cooldowns, id) <= Of(Run(events + more).cooldowns, id)
  {
    if more == [] {
      assert events + more == events;
    } else {
      var all, shorter := events + more, more[..|more| - 1];
      DiskNeverGoesBack(events, shorter, id);
      assert all[..|all| - 1] == events + shorter && all[|all| - 1] == more[|more| - 1];
      RunsKeepInv(events + shorter);
      var s, e := Run(events + shorter), more[|more| - 1];
      assert CellInv(CellOf(s, id));
      if Enabled(s, e) { NextNeverGoesBack(s, e, id); }
    }
  }

  /** With nothing undelivered, an empty dirty set, an idle drainer and no shutdown, both tables
      hold the newest snapshot the pool ever produced for every account. */
  lemma QuiescentDiskIsNewest(events: seq<Event>, id: string)
    requires var s := Run(events);
      s.undelivered == {} && s.q.dirty == map[] && s.drainer.Idle? && !s.q.closed
    ensures var s := Run(events);
      Of(s.states, id) == Of(s.latest, id) && Of(s.cooldowns, id) == Of(s.latest, id)
  {
    RunsKeepInv(events);
    assert CellInv(CellOf(Run(events), id));
  }

  /** When a flush marker has fired, every snapshot delivered before that flush was requested is no
      newer than the version persisted for its account, and both tables hold at least that. */
  lemma FlushGuarantee(events: seq<Event>, marker: nat, id: string)
    requires var s := Run(events); marker in s.fired && marker < |s.covers| && id in s.covers[marker]
    ensures var s := Run(events);
      && s.covers[marker][id] <= Of(s.q.persisted, id)
      && Of(s.q.persisted, id) <= Of(s.states, id) && Of(s.q.persisted, id) <= Of(s.cooldowns, id)
  {
    RunsKeepInv(events);
    assert CellInv(CellOf(Run(events), id));
  }

  /** Once the drainer has exited, shutdown has begun, and it left the dirty set empty exactly when
      it was not interrupted while backing off; then everything delivered in time is persisted. */
  lemma ExitSavesEverythingUnlessInterrupted(events: seq<Event>)
    requires Run(events).drainer.Exited?
    ensures var s := Run(events);
      && s.q.closed
      && (s.q.dirty == map[] <==> !s.drainer.abandoned)
      && (!s.drainer.abandoned ==> Covered(s.delivered, s.q.persisted))
  {
    RunsKeepInv(events);
    var s := Run(events);
    forall id | id in s.delivered && !s.drainer.abandoned ensures s.delivered[id] <= Of(s.q.persisted, id) {
      assert CellInv(CellOf(s, id));
    }
  }

  /** The drainer's last write failed and it has not tried again. */
  predicate Stalled(d: Drainer) {
    d.BackingOff? || (d.Busy? && d.stage.Failed?)
  }

  predicate NoWriteFails(events: seq<Event>) {
    forall i :: 0 <= i < |events| && events[i].Write? ==> events[i].ok
  }

  /** However the system goes on from here without a failing write, once the drainer has exited the
      dirty set is empty and everything delivered in time is persisted. */
  ghost predicate SavesEverything(s: Sys) {
    forall more :: NoWriteFails(more) && RunFrom(s, more).drainer.Exited? ==>
      var end := RunFrom(s, more);
      end.q.dirty == map[] && Covered(end.delivered, end.q.persisted)
  }

  lemma {:induction false} RunsCompose(s: Sys, events: seq<Event>, more: seq<Event>)
    ensures RunFrom(s, events + more) == RunFrom(RunFrom(s, events), more)
  {
    if more == [] {
      assert events + more == events;
    } else {
      var n := |more| - 1;
      RunsCompose(s, events, more[..n]);
      assert (events + more)[..|events| + n] == events + more[..n] && (events + more)[|events| + n] == more[n];
    }
  }

  lemma RunOneMore(s: Sys, events: seq<Event>, e: Event)
    ensures RunFrom(s, events + [e]) == Next(RunFrom(s, events), e)
  {
    assert (events + [e])[..|events|] == events;
  }

  ghost predicate Going(s: Sys) {
    s.q.closed && !Stalled(s.drainer) && s.drainer != Exited(true)
  }

  lemma StepKeepsGoing(s: Sys, e: Event)
    requires Going(s) && (e.Write? ==> e.ok) && Enabled(s, e)
    ensures Going(Effect(s, e))
  {
  }

  /** Without a failing write a closed queue's drainer does not stall, and is not interrupted. */
  lemma {:induction false} NeverStalls(s: Sys, more: seq<Event>)
    requires Going(s) && NoWriteFails(more)
    ensures Going(RunFrom(s, more))
  {
    if more != [] {
      var before, e := RunFrom(s, more[..|more| - 1]), more[|more| - 1];
      NeverStalls(s, more[..|more| - 1]);
      if Enabled(before, e) { StepKeepsGoing(before, e); }
    }
  }

  lemma CloseSavesUnlessStalled(events: seq<Event>, more: seq<Event>)
    requires !Run(events).q.closed && !Stalled(Run(events).drainer) && NoWriteFails(more)
    requires RunFrom(Next(Run(events), Close), more).drainer.Exited?
    ensures var end := RunFrom(Next(Run(events), Close), more);
      end.q.dirty == map[] && Covered(end.delivered, end.q.persisted)
  {
    RunsKeepInv(events);
    assert Going(Next(Run(events), Close));
    NeverStalls(Next(Run(events), Close), more);
    RunOneMore(Init(), events, Close);
    RunsCompose(Init(), events + [Close], more);
    ExitSavesEverythingUnlessInterrupted(events + [Close] + more);
  }

  lemma RunOfTwo(s: Sys, a: Event, b: Event)
    ensures RunFrom(s, [a]) == Next(s, a) && RunFrom(s, [a, b]) == Next(Next(s, a), b)
  {
    RunOneMore(s, [], a);
    RunOneMore(s, [a], b);
    assert [] + [a] == [a] && [a] + [b] == [a, b];
  }

  /** A drainer that has stalled can be interrupted before it tries again. */
  lemma StalledAbandons(s: Sys) returns (more: seq<Event>)
    requires s.q.closed && Stalled(s.drainer) && DrainerExplained(s)
    ensures NoWriteFails(more) && RunFrom(s, more).drainer.Exited? && RunFrom(s, more).q.dirty != map[]
  {
    if s.drainer.BackingOff? {
      more := [BackoffInterrupted];
      RunOfTwo(s, BackoffInterrupted, BackoffInterrupted);
    } else {
      more := [FinishFailed, BackoffInterrupted];
      RunOfTwo(s, FinishFailed, BackoffInterrupted);
      assert s.drainer.id in Next(s, FinishFailed).q.dirty;
    }
  }

  /** Closing an open queue at any point of any run loses nothing, as long as no write fails from
      then on, exactly when the drainer has not stalled at that moment. */
  lemma CloseSavesEverythingExactly(events: seq<Event>)
    requires !Run(events).q.closed
    ensures SavesEverything(Next(Run(events), Close)) <==> !Stalled(Run(events).drainer)
  {
    var s := Next(Run(events), Close);
    if Stalled(Run(events).drainer) {
      RunsKeepInv(events);
      var more := StalledAbandons(s);
      assert RunFrom(s, more).drainer.Exited?;
    } else {
      forall more | NoWriteFails(more) && RunFrom(s, more).drainer.Exited?
        ensures var end := RunFrom(s, more); end.q.dirty == map[] && Covered(end.delivered, end.q.persisted)
      {
        CloseSavesUnlessStalled(events, more);
      }
    }
  }

  lemma FirstSnapshotArrives(id: string)
    ensures RunFrom(Init(), [Produce(id), Deliver(id, 1)]) ==
      Sys(Queue(map[id := 1], [], map[], false), Idle, map[], map[], 1, map[id := 1], {}, map[id := 1], [], {})
  {
    RunOfTwo(Init(), Produce(id), Deliver(id, 1));
    assert Next(Init(), Produce(id)).undelivered == {(id, 1)};
  }

  lemma FirstWriteFails(s: Sys, id: string)
    requires s.q == Queue(map[id := 1], [], map[], false) && s.drainer.Idle?
    ensures RunFrom(s, [Take(id), Write(false, false)]) ==
      s.(q := Queue(map[], [], map[], false), drainer := Busy(id, 1, Failed))
  {
    RunOfTwo(s, Take(id), Write(false, false));
    TakesTheOnlyOne(s, id);
  }

  lemma TakesTheOnlyOne(s: Sys, id: string)
    requires s.q == Queue(map[id := 1], [], map[], false) && s.drainer.Idle?
    ensures Next(s, Take(id)) == s.(q := Queue(map[], [], map[], false), drainer := Busy(id, 1, WritingState))
  {
    assert s.q.dirty - {id} == map[];
  }

  lemma FailedWriteIsAbandoned(s: Sys, id: string)
    requires s.q == Queue(map[], [], map[], false) && s.drainer == Busy(id, 1, Failed)
    ensures RunFrom(s, [FinishFailed, Close]) == s.(q := Queue(map[id := 1], [], map[], true), drainer := BackingOff)
    ensures RunFrom(s, [FinishFailed, Close] + [BackoffInterrupted]) ==
      s.(q := Queue(map[id := 1], [], map[], true), drainer := Exited(true))
  {
    RunOfTwo(s, FinishFailed, Close);
    RunOneMore(s, [FinishFailed, Close], BackoffInterrupted);
  }

  /** Such a run from the start: one snapshot, whose write fails before shutdown; none fails after, and
      the snapshot is on neither table. */
  lemma CloseDuringBackoffAbandons(id: string)
    ensures var s := Run([Produce(id), Deliver(id, 1)] + [Take(id), Write(false, false)] +
                         ([FinishFailed, Close] + [BackoffInterrupted]));
      && s.drainer == Exited(true) && s.q.dirty == map[id := 1] && s.delivered == map[id := 1]
      && s.states == map[] && s.cooldowns == map[]
  {
    var start, failing := [Produce(id), Deliver(id, 1)], [Take(id), Write(false, false)];
    FirstSnapshotArrives(id);
    RunsCompose(Init(), start, failing);
    FirstWriteFails(Run(start), id);
    RunsCompose(Init(), start + failing, [FinishFailed, Close] + [BackoffInterrupted]);
    FailedWriteIsAbandoned(Run(start + failing), id);
  }
}
