/** One gate per account for quota fetches: created on demand, counted, and dropped by the last
    participant. Each event is one section under `quotaFetchMu` or one channel operation. */
module QuotaGate {

  type Id = string
  type Gate = nat
  type Tid = nat

  /** The gate table and each gate's count of holder plus waiters. */
  datatype Table = Table(gates: map<Id, Gate>, refs: map<Gate, nat>, nextGate: Gate)

  function Refs(t: Table, g: Gate): nat {
    if g in t.refs then t.refs[g] else 0
  }

  function Enroll(t: Table, id: Id): (Table, Gate) {
    if id in t.gates then
      var g := t.gates[id];
      (t.(refs := t.refs[g := Refs(t, g) + 1]), g)
    else
      (Table(t.gates[id := t.nextGate], t.refs[t.nextGate := 1], t.nextGate + 1), t.nextGate)
  }

  function Leave(t: Table, id: Id, g: Gate): Table {
    var left := if Refs(t, g) > 0 then Refs(t, g) - 1 else 0;
    var t' := t.(refs := t.refs[g := left]);
    if left == 0 && id in t.gates && t.gates[id] == g then t'.(gates := t.gates - {id}) else t'
  }

  class GateTable {
    var gates: map<Id, Gate>
    var refs: map<Gate, nat>
    var nextGate: Gate

    ghost function Now(): Table
      reads this
    {
      Table(gates, refs, nextGate)
    }

    constructor ()
      ensures Now() == Table(map[], map[], 0)
    {
      gates, refs, nextGate := map[], map[], 0;
    }

    /** The locked half of `acquireQuotaFetch`. */
    method EnrollFetch(id: Id) returns (g: Gate)
      modifies this
      ensures (Now(), g) == Enroll(old(Now()), id)
    {
      if id !in gates {
        gates := gates[id := nextGate];
        refs := refs[nextGate := 0];
        nextGate := nextGate + 1;
      }
      g := gates[id];
      refs := refs[g := (if g in refs then refs[g] else 0) + 1];
      assert id !in old(gates) ==> refs == old(refs)[g := 1];
    }

    /** `releaseQuotaFetchRef`. */
    method ReleaseRef(id: Id, g: Gate)
      requires g in refs && refs[g] > 0
      modifies this
      ensures Now() == Leave(old(Now()), id, g)
    {
      refs := refs[g := refs[g] - 1];
      if refs[g] == 0 {
        if id in gates && gates[id] == g {
          gates := gates - {id};
        }
      }
    }
  }

  /** A fetcher waits for the gate, holds it, or is about to give up its reference. */
  datatype Phase = Waiting | Holding | Leaving

  datatype Fetcher = Fetcher(id: Id, gate: Gate, phase: Phase)

  /** `full` holds the gates whose one-slot channel is occupied. */
  datatype Sys = Sys(t: Table, full: set<Gate>, fetchers: map<Tid, Fetcher>, nextTid: Tid)

  datatype Event = Arrive(id: Id) | Enter(tid: Tid) | GiveUp(tid: Tid) | Drain(tid: Tid) | Depart(tid: Tid)

  predicate At(s: Sys, tid: Tid, phase: Phase) {
    tid in s.fetchers && s.fetchers[tid].phase == phase
  }

  predicate Enabled(s: Sys, e: Event) {
    match e
    case Arrive(_) => true
    case Enter(tid) => At(s, tid, Waiting) && s.fetchers[tid].gate !in s.full
    case GiveUp(tid) => At(s, tid, Waiting)
    case Drain(tid) => At(s, tid, Holding)
    case Depart(tid) => At(s, tid, Leaving)
  }

  function Next(s: Sys, e: Event): Sys {
    if !Enabled(s, e) then s else
    match e
    case Arrive(id) =>
      var (t, g) := Enroll(s.t, id);
      s.(t := t, fetchers := s.fetchers[s.nextTid := Fetcher(id, g, Waiting)], nextTid := s.nextTid + 1)
    case Enter(tid) =>
      s.(full := s.full + {s.fetchers[tid].gate}, fetchers := s.fetchers[tid := s.fetchers[tid].(phase := Holding)])
    case GiveUp(tid) => s.(fetchers := s.fetchers[tid := s.fetchers[tid].(phase := Leaving)])
    case Drain(tid) =>
      s.(full := s.full - {s.fetchers[tid].gate}, fetchers := s.fetchers[tid := s.fetchers[tid].(phase := Leaving)])
    case Depart(tid) =>
      var f := s.fetchers[tid];
      s.(t := Leave(s.t, f.id, f.gate), fetchers := s.fetchers - {tid})
  }

  function Run(events: seq<Event>): Sys {
    if events == [] then Sys(Table(map[], map[], 0), {}, map[], 0)
    else Next(Run(events[..|events| - 1]), events[|events| - 1])
  }

  ghost function Users(s: Sys, g: Gate): set<Tid> {
    set tid | tid in s.fetchers && s.fetchers[tid].gate == g
  }

  /** Every participant of an account uses the gate now in the table. */
  ghost predicate Shared(s: Sys) {
    && (forall tid :: tid in s.fetchers ==>
          tid < s.nextTid && s.fetchers[tid].id in s.t.gates && s.t.gates[s.fetchers[tid].id] == s.fetchers[tid].gate)
    && (forall id :: id in s.t.gates ==> s.t.gates[id] < s.t.nextGate)
    && (forall a, b :: a in s.t.gates && b in s.t.gates && s.t.gates[a] == s.t.gates[b] ==> a == b)
  }

  /** A gate in the table counts its participants and has one. */
  ghost predicate CountedFor(s: Sys, id: Id) {
    id in s.t.gates ==> Refs(s.t, s.t.gates[id]) == |Users(s, s.t.gates[id])| > 0
  }

  ghost predicate Counted(s: Sys) {
    forall id :: CountedFor(s, id)
  }

  ghost predicate HoldsGate(s: Sys, tid: Tid, g: Gate) {
    At(s, tid, Holding) && s.fetchers[tid].gate == g
  }

  /** A held gate's channel is full, and one fetcher at most holds it. */
  ghost predicate Exclusive(s: Sys) {
    && (forall tid, g :: HoldsGate(s, tid, g) ==> g in s.full)
    && (forall a, b, g :: HoldsGate(s, a, g) && HoldsGate(s, b, g) ==> a == b)
  }

  /** A full channel has its holder, so no gate stays shut behind nobody. */
  ghost predicate FullIsHeld(s: Sys) {
    forall g :: g in s.full ==> exists tid :: HoldsGate(s, tid, g)
  }

  lemma SharedKept(s: Sys, e: Event)
    requires Shared(s) && Counted(s) && Enabled(s, e)
    ensures Shared(Next(s, e))
  {
    if e.Depart? {
      assert CountedFor(s, s.fetchers[e.tid].id);
      forall other | other in s.fetchers && other != e.tid
        ensures s.fetchers[other].id in Next(s, e).t.gates
      {
        DepartLeavesOthersTheirGate(s, e.tid, other);
      }
    }
  }

  /** The gate leaves the table only when nobody else uses it. */
  lemma DepartLeavesOthersTheirGate(s: Sys, tid: Tid, other: Tid)
    requires At(s, tid, Leaving) && Shared(s) && CountedFor(s, s.fetchers[tid].id)
    requires other in s.fetchers && other != tid
    ensures s.fetchers[other].id in Next(s, Depart(tid)).t.gates
  {
    var g := s.fetchers[tid].gate;
    if s.fetchers[other].gate == g { TwoUsers(s, g, tid, other); }
  }

  lemma TwoUsers(s: Sys, g: Gate, a: Tid, b: Tid)
    requires a in Users(s, g) && b in Users(s, g) && a != b
    ensures |Users(s, g)| > 1
  {
    assert Users(s, g) == {a, b} + (Users(s, g) - {a, b});
  }

  lemma ArrivalJoinsUsers(s: Sys, id: Id)
    requires Shared(s)
    ensures var g := Enroll(s.t, id).1;
      && |Users(Next(s, Arrive(id)), g)| == |Users(s, g)| + 1
      && (id !in s.t.gates ==> Users(s, g) == {})
  {
    var g := Enroll(s.t, id).1;
    assert Users(Next(s, Arrive(id)), g) == Users(s, g) + {s.nextTid};
    assert s.nextTid !in Users(s, g);
  }

  lemma ArriveCounts(s: Sys, id: Id, k: Id)
    requires Shared(s) && CountedFor(s, k)
    ensures CountedFor(Next(s, Arrive(id)), k)
  {
    var s' := Next(s, Arrive(id));
    if k == id {
      ArrivalJoinsUsers(s, id);
    } else if k in s.t.gates {
      assert Users(s', s.t.gates[k]) == Users(s, s.t.gates[k]);
    }
  }

  lemma DepartCounts(s: Sys, tid: Tid, k: Id)
    requires Shared(s) && CountedFor(s, k) && At(s, tid, Leaving)
    ensures CountedFor(Next(s, Depart(tid)), k)
  {
    var s' := Next(s, Depart(tid));
    var g := s.fetchers[tid].gate;
    if k == s.fetchers[tid].id {
      assert Users(s', g) == Users(s, g) - {tid} && tid in Users(s, g);
    } else if k in s.t.gates {
      assert Users(s', s.t.gates[k]) == Users(s, s.t.gates[k]);
    }
  }

  lemma PhaseChangeCounts(s: Sys, e: Event)
    requires Counted(s) && Enabled(s, e) && (e.Enter? || e.GiveUp? || e.Drain?)
    ensures Counted(Next(s, e))
  {
    forall id ensures CountedFor(Next(s, e), id) {
      assert CountedFor(s, id);
      if id in s.t.gates { PhaseChangeKeepsUsers(s, e, s.t.gates[id]); }
    }
  }

  lemma PhaseChangeKeepsUsers(s: Sys, e: Event, g: Gate)
    requires Enabled(s, e) && (e.Enter? || e.GiveUp? || e.Drain?)
    ensures Users(Next(s, e), g) == Users(s, g)
  {}

  /** Who holds a gate after a step. */
  lemma HoldsAfter(s: Sys, e: Event, tid: Tid, g: Gate)
    requires Shared(s) && Enabled(s, e)
    ensures HoldsGate(Next(s, e), tid, g) <==>
      if e.Enter? && tid == e.tid then g == s.fetchers[tid].gate
      else HoldsGate(s, tid, g) && !(e.Drain? && tid == e.tid)
  {}

  lemma ExclusionKept(s: Sys, e: Event)
    requires Exclusive(s) && Shared(s) && Enabled(s, e)
    ensures Exclusive(Next(s, e))
  {
    var s' := Next(s, e);
    if e.Drain? { assert HoldsGate(s, e.tid, s.fetchers[e.tid].gate); }
    forall tid, g | HoldsGate(s', tid, g) ensures g in s'.full { HoldsAfter(s, e, tid, g); }
    forall a, b, g | HoldsGate(s', a, g) && HoldsGate(s', b, g) ensures a == b {
      HoldsAfter(s, e, a, g);
      HoldsAfter(s, e, b, g);
    }
  }

  lemma HolderKept(s: Sys, e: Event, g: Gate)
    requires Shared(s) && FullIsHeld(s) && Enabled(s, e) && g in Next(s, e).full
    ensures exists tid :: HoldsGate(Next(s, e), tid, g)
  {
    if g in s.full {
      var tid :| HoldsGate(s, tid, g);
      HoldsAfter(s, e, tid, g);
    } else {
      HoldsAfter(s, e, e.tid, g);
    }
  }

  lemma {:induction false} RunsHoldTheirGates(events: seq<Event>)
    ensures FullIsHeld(Run(events))
  {
    if events != [] {
      var s, e := Run(events[..|events| - 1]), events[|events| - 1];
      RunsHoldTheirGates(events[..|events| - 1]);
      RunsStayExclusive(events[..|events| - 1]);
      if Enabled(s, e) {
        forall g | g in Next(s, e).full ensures exists tid :: HoldsGate(Next(s, e), tid, g) { HolderKept(s, e, g); }
      }
    }
  }

  lemma {:induction false} RunsStayExclusive(events: seq<Event>)
    ensures var s := Run(events); Shared(s) && Counted(s) && Exclusive(s)
  {
    if events != [] {
      var s, e := Run(events[..|events| - 1]), events[|events| - 1];
      RunsStayExclusive(events[..|events| - 1]);
      if Enabled(s, e) {
        ExclusionKept(s, e);
        SharedKept(s, e);
        match e
        case Arrive(id) => forall k { ArriveCounts(s, id, k); }
        case Depart(tid) => forall k { DepartCounts(s, tid, k); }
        case _ => PhaseChangeCounts(s, e);
      }
    }
  }

  /** At most one fetch per account runs at a time: all its participants share one gate, whatever
      gates came and went before. */
  lemma FetchesAreExclusive(events: seq<Event>, a: Tid, b: Tid)
    requires var s := Run(events); At(s, a, Holding) && At(s, b, Holding) && s.fetchers[a].id == s.fetchers[b].id
    ensures a == b
  {
    RunsStayExclusive(events);
    var s := Run(events);
    assert HoldsGate(s, a, s.fetchers[a].gate) && HoldsGate(s, b, s.fetchers[b].gate);
  }

  /** A waiting fetch may go on exactly when no other participant holds its gate. */
  lemma WaitingMeansSomebodyHolds(events: seq<Event>, tid: Tid)
    requires At(Run(events), tid, Waiting)
    ensures var s := Run(events);
      Enabled(s, Enter(tid)) <==> forall other :: !HoldsGate(s, other, s.fetchers[tid].gate)
  {
    RunsStayExclusive(events);
    RunsHoldTheirGates(events);
  }

  /** How many steps a participant has left: waiting, holding the gate, leaving. */
  function StepsLeft(s: Sys, tid: Tid): nat {
    if tid !in s.fetchers then 0
    else match s.fetchers[tid].phase
      case Waiting => 3
      case Holding => 2
      case Leaving => 1
  }

  /** The participant whose step it is. */
  predicate StepOf(e: Event, tid: Tid) {
    !e.Arrive? && e.tid == tid
  }

  /** Each step of a participant brings it nearer its end, and no step of another touches it: a fetch takes
      at most three steps, and gives its gate and its reference back. */
  lemma EveryFetchEnds(s: Sys, e: Event, tid: Tid)
    requires Enabled(s, e) && tid < s.nextTid
    ensures StepOf(e, tid) ==> StepsLeft(Next(s, e), tid) < StepsLeft(s, tid) <= 3
    ensures !StepOf(e, tid) ==> StepsLeft(Next(s, e), tid) == StepsLeft(s, tid)
    ensures e == Drain(tid) ==> s.fetchers[tid].gate !in Next(s, e).full
  {}

  /** The table holds a gate exactly for the accounts somebody is fetching or waiting to fetch, so
      an idle account costs nothing, and no participant is ever cut off from its gate. */
  lemma TableHoldsBusyAccountsOnly(events: seq<Event>, id: Id)
    ensures var s := Run(events);
      id in s.t.gates <==> exists tid :: tid in s.fetchers && s.fetchers[tid].id == id
  {
    RunsStayExclusive(events);
    var s := Run(events);
    assert CountedFor(s, id);
    if id in s.t.gates {
      assert Users(s, s.t.gates[id]) != {};
      var tid :| tid in Users(s, s.t.gates[id]);
      assert s.fetchers[tid].id == id;
    }
  }
}

/** After-use quota refreshes: completions of one account share a running refresher, which makes
    one more pass when something completed meanwhile. */
module AfterUse {

  type Id = string
  type Tid = nat

  datatype Phase = Starting | InPass | Deciding | Leaving

  datatype Refresher = Refresher(id: Id, phase: Phase)

  /** `dirty` is `quotaAfterUse`: absent when no refresher runs, true when it owes another pass. The
      last three fields record, per account, the completions accepted, the passes begun, and how
      many completions had been accepted when the latest pass began. */
  datatype Sys = Sys(
    dirty: map<Id, bool>,
    refreshers: map<Tid, Refresher>,
    nextTid: Tid,
    waiting: nat,
    cancelled: bool,
    accepted: map<Id, nat>,
    passes: map<Id, nat>,
    covered: map<Id, nat>)

  function Of(m: map<Id, nat>, id: Id): nat {
    if id in m then m[id] else 0
  }

  datatype Verdict = Refused | Marked | StartedOne

  /** The locked half of `RefreshFEFOQuotaAfterUse`. */
  function Complete(dirty: map<Id, bool>, cancelled: bool, id: Id): (map<Id, bool>, Verdict) {
    if cancelled then (dirty, Refused)
    else if id in dirty then (dirty[id := true], Marked)
    else (dirty[id := false], StartedOne)
  }

  /** The refresher's decision after a pass: run again or stop. */
  function Decide(dirty: map<Id, bool>, cancelled: bool, id: Id): (map<Id, bool>, bool) {
    if id in dirty && dirty[id] && !cancelled then (dirty[id := false], true) else (dirty - {id}, false)
  }

  class Coalescer {
    var dirty: map<Id, bool>
    var cancelled: bool

    constructor ()
      ensures dirty == map[] && !cancelled
    {
      dirty, cancelled := map[], false;
    }

    method CompleteUse(id: Id) returns (v: Verdict)
      modifies this`dirty
      ensures (dirty, v) == Complete(old(dirty), cancelled, id)
    {
      if cancelled {
        return Refused;
      }
      if id in dirty {
        dirty := dirty[id := true];
        return Marked;
      }
      dirty := dirty[id := false];
      v := StartedOne;
    }

    method DecideAgain(id: Id) returns (again: bool)
      modifies this`dirty
      ensures (dirty, again) == Decide(old(dirty), cancelled, id)
    {
      if !(id in dirty && dirty[id]) || cancelled {
        dirty := dirty - {id};
        return false;
      }
      dirty := dirty[id := false];
      again := true;
    }
  }

  datatype Event = Completion(id: Id) | Begin(tid: Tid) | End(tid: Tid) | Choose(tid: Tid) | Finish(tid: Tid) | Cancel

  predicate At(s: Sys, tid: Tid, phase: Phase) {
    tid in s.refreshers && s.refreshers[tid].phase == phase
  }

  predicate Enabled(s: Sys, e: Event) {
    match e
    case Completion(_) => true
    case Begin(tid) => At(s, tid, Starting)
    case End(tid) => At(s, tid, InPass)
    case Choose(tid) => At(s, tid, Deciding)
    case Finish(tid) => At(s, tid, Leaving)
    case Cancel => true
  }

  function Goto(s: Sys, tid: Tid, phase: Phase): Sys
    requires tid in s.refreshers
  {
    s.(refreshers := s.refreshers[tid := s.refreshers[tid].(phase := phase)])
  }

  function Next(s: Sys, e: Event): Sys {
    if !Enabled(s, e) then s else
    match e
    case Completion(id) =>
      var (dirty, v) := Complete(s.dirty, s.cancelled, id);
      var counted := s.(dirty := dirty, accepted := s.accepted[id := Of(s.accepted, id) + 1]);
      if v.Refused? then s
      else if v.Marked? then counted
      else counted.(refreshers := s.refreshers[s.nextTid := Refresher(id, Starting)], nextTid := s.nextTid + 1,
                    waiting := s.waiting + 1)
    case Begin(tid) =>
      var id := s.refreshers[tid].id;
      Goto(s, tid, InPass).(passes := s.passes[id := Of(s.passes, id) + 1],
                            covered := s.covered[id := Of(s.accepted, id)])
    case End(tid) => Goto(s, tid, Deciding)
    case Choose(tid) =>
      var (dirty, again) := Decide(s.dirty, s.cancelled, s.refreshers[tid].id);
      Goto(s, tid, if again then Starting else Leaving).(dirty := dirty)
    case Finish(tid) =>
      s.(refreshers := s.refreshers - {tid}, waiting := if s.waiting > 0 then s.waiting - 1 else 0)
    case Cancel => s.(cancelled := true)
  }

  function Run(events: seq<Event>): Sys {
    if events == [] then Sys(map[], map[], 0, 0, false, map[], map[], map[])
    else Next(Run(events[..|events| - 1]), events[|events| - 1])
  }

  /** `tid` is refreshing account `id`, not merely leaving. */
  predicate Active(s: Sys, tid: Tid, id: Id) {
    tid in s.refreshers && s.refreshers[tid].id == id && s.refreshers[tid].phase != Leaving
  }

  ghost predicate SingleRefresher(s: Sys) {
    && (forall tid :: tid in s.refreshers ==> tid < s.nextTid)
    && (forall tid, id :: Active(s, tid, id) ==> id in s.dirty)
    && (forall a, b, id :: Active(s, a, id) && Active(s, b, id) ==> a == b)
    && (forall id :: id in s.dirty ==> exists tid :: Active(s, tid, id))
  }

  predicate Owes(s: Sys, id: Id) {
    id in s.dirty && s.dirty[id]
  }

  ghost predicate AboutToBegin(s: Sys, id: Id) {
    exists tid :: Active(s, tid, id) && At(s, tid, Starting)
  }

  /** Until shutdown a completion no pass has covered yet is owed one, or the refresher is about to
      begin a pass. */
  ghost predicate NothingForgotten(s: Sys) {
    && (forall id :: Of(s.covered, id) <= Of(s.accepted, id))
    && (!s.cancelled ==> forall id :: Of(s.covered, id) < Of(s.accepted, id) ==>
          Owes(s, id) || AboutToBegin(s, id))
  }

  /** Every pass begun or promised is paid for by its own completion. */
  ghost predicate PaidFor(s: Sys, id: Id) {
    Of(s.passes, id) + (if Owes(s, id) then 1 else 0) + (if AboutToBegin(s, id) then 1 else 0) <= Of(s.accepted, id)
  }

  ghost predicate PassesPaid(s: Sys) {
    forall id :: PaidFor(s, id)
  }

  ghost predicate GroupCounts(s: Sys) {
    s.waiting == |s.refreshers|
  }

  lemma IdsStayBelow(s: Sys, e: Event)
    requires SingleRefresher(s) && Enabled(s, e)
    ensures forall tid :: tid in Next(s, e).refreshers ==> tid < Next(s, e).nextTid
  {}

  /** A refresher active after a step was so before, or the step started it; and the account stays marked
      as having one. */
  lemma ActiveBefore(s: Sys, e: Event, tid: Tid, id: Id)
    requires SingleRefresher(s) && Enabled(s, e) && Active(Next(s, e), tid, id)
    ensures id in Next(s, e).dirty
    ensures Active(s, tid, id) || (e == Completion(id) && tid == s.nextTid && id !in s.dirty)
  {
    if e.Choose? { assert Active(s, e.tid, s.refreshers[e.tid].id); }
    assert Active(s, tid, id) || (e == Completion(id) && tid == s.nextTid);
  }

  /** An account marked as having a refresher has one. */
  lemma DirtyHasOne(s: Sys, e: Event, id: Id)
    requires SingleRefresher(s) && Enabled(s, e) && id in Next(s, e).dirty
    ensures exists tid :: Active(Next(s, e), tid, id)
  {
    if id in s.dirty {
      var tid :| Active(s, tid, id);
      assert Active(Next(s, e), tid, id);
    } else {
      assert Active(Next(s, e), s.nextTid, id);
    }
  }

  lemma SingleKept(s: Sys, e: Event)
    requires SingleRefresher(s) && Enabled(s, e)
    ensures SingleRefresher(Next(s, e))
  {
    var s' := Next(s, e);
    IdsStayBelow(s, e);
    forall tid, id | Active(s', tid, id)
      ensures id in s'.dirty
      ensures Active(s, tid, id) || (e == Completion(id) && tid == s.nextTid && id !in s.dirty)
    {
      ActiveBefore(s, e, tid, id);
    }
    forall id | id in s'.dirty ensures exists tid :: Active(s', tid, id) { DirtyHasOne(s, e, id); }
  }

  /** A refresher about to begin a pass stays so until it begins. */
  lemma StaysAboutToBegin(s: Sys, e: Event, id: Id)
    requires SingleRefresher(s) && Enabled(s, e) && AboutToBegin(s, id)
    requires !(e.Begin? && s.refreshers[e.tid].id == id)
    ensures AboutToBegin(Next(s, e), id)
  {
    var tid :| Active(s, tid, id) && At(s, tid, Starting);
    assert Active(Next(s, e), tid, id) && At(Next(s, e), tid, Starting);
  }

  /** What puts a refresher about to begin: the completion that starts it, or its choice to run again. */
  lemma BecomesAboutToBegin(s: Sys, e: Event, id: Id)
    requires SingleRefresher(s) && Enabled(s, e) && AboutToBegin(Next(s, e), id)
    ensures AboutToBegin(s, id) || e == Completion(id) || (e.Choose? && s.refreshers[e.tid].id == id && Owes(s, id))
    ensures e == Completion(id) ==> id !in s.dirty || AboutToBegin(s, id)
  {
    var tid :| Active(Next(s, e), tid, id) && At(Next(s, e), tid, Starting);
    ActiveBefore(s, e, tid, id);
    if !AboutToBegin(s, id) { assert !(Active(s, tid, id) && At(s, tid, Starting)); }
  }

  lemma BeginningIsNoLongerAhead(s: Sys, tid: Tid)
    requires SingleRefresher(s) && At(s, tid, Starting)
    ensures AboutToBegin(s, s.refreshers[tid].id) && !AboutToBegin(Next(s, Begin(tid)), s.refreshers[tid].id)
  {
    var s', id := Next(s, Begin(tid)), s.refreshers[tid].id;
    assert Active(s, tid, id);
    forall other ensures !(Active(s', other, id) && At(s', other, Starting)) {
      if Active(s', other, id) { ActiveBefore(s, Begin(tid), other, id); }
    }
  }

  lemma OwedOnceCovered(s: Sys, e: Event, id: Id)
    requires SingleRefresher(s) && NothingForgotten(s) && Enabled(s, e) && !Next(s, e).cancelled
    requires Of(Next(s, e).covered, id) < Of(Next(s, e).accepted, id)
    ensures Owes(Next(s, e), id) || AboutToBegin(Next(s, e), id)
  {
    var s' := Next(s, e);
    if !Owes(s', id) {
      if e == Completion(id) {
        assert Active(s', s.nextTid, id) && At(s', s.nextTid, Starting);
      } else if Owes(s, id) {
        assert Active(s', e.tid, id) && At(s', e.tid, Starting);
      } else {
        StaysAboutToBegin(s, e, id);
      }
    }
  }

  lemma NothingForgottenKept(s: Sys, e: Event)
    requires SingleRefresher(s) && NothingForgotten(s) && Enabled(s, e)
    ensures NothingForgotten(Next(s, e))
  {
    var s' := Next(s, e);
    if !s'.cancelled {
      forall id | Of(s'.covered, id) < Of(s'.accepted, id) ensures Owes(s', id) || AboutToBegin(s', id) {
        OwedOnceCovered(s, e, id);
      }
    }
  }

  lemma PassPaid(s: Sys, e: Event, id: Id)
    requires SingleRefresher(s) && PaidFor(s, id) && Enabled(s, e)
    ensures PaidFor(Next(s, e), id)
  {
    if AboutToBegin(Next(s, e), id) { BecomesAboutToBegin(s, e, id); }
    if e.Begin? && s.refreshers[e.tid].id == id { BeginningIsNoLongerAhead(s, e.tid); }
  }

  lemma {:induction false} RunsKeepPromises(events: seq<Event>)
    ensures var s := Run(events); SingleRefresher(s) && NothingForgotten(s) && PassesPaid(s) && GroupCounts(s)
  {
    if events != [] {
      var s, e := Run(events[..|events| - 1]), events[|events| - 1];
      RunsKeepPromises(events[..|events| - 1]);
      if Enabled(s, e) {
        SingleKept(s, e);
        NothingForgottenKept(s, e);
        forall id { PassPaid(s, e, id); }
      }
    }
  }

  /** At most one refresher of an account runs, and the wait group counts every refresher alive. */
  lemma OneRefresherPerAccount(events: seq<Event>, id: Id, a: Tid, b: Tid)
    requires Active(Run(events), a, id) && Active(Run(events), b, id)
    ensures a == b && Run(events).waiting == |Run(events).refreshers|
  {
    RunsKeepPromises(events);
  }

  /** Once no refresher of an account is running, and unless the manager is closing, the latest pass
      began after every accepted completion. */
  lemma EveryCompletionIsFollowedByAPass(events: seq<Event>, id: Id)
    requires var s := Run(events); !s.cancelled && forall tid :: !Active(s, tid, id)
    ensures var s := Run(events); Of(s.covered, id) == Of(s.accepted, id)
  {
    RunsKeepPromises(events);
  }

  /** How many steps a refresher has left once the manager is closing. */
  function StepsLeft(s: Sys, tid: Tid): nat {
    if tid !in s.refreshers then 0
    else match s.refreshers[tid].phase
      case Starting => 4
      case InPass => 3
      case Deciding => 2
      case Leaving => 1
  }

  /** Once the manager is closing no completion is accepted and no refresher starts, and those there are end
      within four steps of their own: none decides to run again, so the wait for them ends. */
  lemma CancelEndsEveryRefresher(s: Sys, e: Event, tid: Tid)
    requires (s.cancelled || e.Cancel?) && Enabled(s, e) && tid < s.nextTid
    ensures var s' := Next(s, e);
      && s'.cancelled && s'.nextTid == s.nextTid && s'.accepted == s.accepted && s'.refreshers.Keys <= s.refreshers.Keys
      && (if !e.Completion? && !e.Cancel? && e.tid == tid then StepsLeft(s', tid) < StepsLeft(s, tid) <= 4
          else StepsLeft(s', tid) == StepsLeft(s, tid))
  {}

  /** Passes never outnumber completions. */
  lemma PassesNeverOutnumberCompletions(events: seq<Event>, id: Id)
    ensures var s := Run(events); Of(s.passes, id) <= Of(s.accepted, id)
  {
    RunsKeepPromises(events);
    assert PaidFor(Run(events), id);
  }
}
