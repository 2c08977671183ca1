/** In-flight slots over every interleaving of requests, registrations and removals. */
module InFlight {
  import opened Items
  import opened PoolModel
  import Routing

  /** `holders` counts, per account, the requests and open stream bodies that reserved a slot and
      have not freed it. */
  datatype Sys = Sys(items: seq<Item>, holders: multiset<string>)

  /** One critical section of the pool. */
  datatype Event =
    | Take(id: string)
    | Drop(id: string)
    | Register(item: Item)
    | Unregister(id: string)
    | Rewrite(items: seq<Item>)

  /** A holder frees a slot it has; a registration carries no live counter; every other section
      rewrites the accounts in place without touching slots. */
  predicate Enabled(s: Sys, e: Event) {
    match e
    case Take(_) => true
    case Drop(id) => id in s.holders
    case Register(item) => item.id != "" && item.inFlight == 0
    case Unregister(_) => true
    case Rewrite(items) =>
      |items| == |s.items| &&
      forall i :: 0 <= i < |items| ==>
        items[i].id == s.items[i].id && items[i].inFlight == s.items[i].inFlight &&
        items[i].maxInFlight == s.items[i].maxInFlight
  }

  function Next(s: Sys, e: Event): Sys {
    match e
    case Take(id) => Sys(Taken(s.items, id), if HasRoom(s.items, id) then s.holders + multiset{id} else s.holders)
    case Drop(id) => Sys(Given(s.items, id), s.holders - multiset{id})
    case Register(item) => Sys(Upserted(s.items, item), s.holders)
    case Unregister(id) => Sys(Removed(s.items, id), s.holders)
    case Rewrite(items) => Sys(items, s.holders)
  }

  /** What the pool records of an account: its counter and its cap, zero when it is unknown. */
  function Count(items: seq<Item>, id: string): nat {
    if IndexIn(items, id) < |items| then items[IndexIn(items, id)].inFlight else 0
  }

  function Cap(items: seq<Item>, id: string): int {
    if IndexIn(items, id) < |items| then items[IndexIn(items, id)].maxInFlight else 0
  }

  predicate Known(items: seq<Item>, id: string) {
    IndexIn(items, id) < |items|
  }

  // ---------------------------------------------------------------- one section, one account

  lemma IndexSurvives(items: seq<Item>, items': seq<Item>, id: string)
    requires |items| == |items'| && forall i :: 0 <= i < |items| ==> items[i].id == items'[i].id
    ensures IndexIn(items', id) == IndexIn(items, id)
  {
    IndexIsUnique(items', id, IndexIn(items, id));
  }

  lemma TakenCounts(items: seq<Item>, taken: string, id: string)
    ensures Count(Taken(items, taken), id) == Count(items, id) + if taken == id && HasRoom(items, id) then 1 else 0
    ensures Cap(Taken(items, taken), id) == Cap(items, id)
  {
    IndexSurvives(items, Taken(items, taken), id);
  }

  lemma GivenCounts(items: seq<Item>, given: string, id: string)
    ensures Count(Given(items, given), id) == Count(items, id) - if given == id && Count(items, id) > 0 then 1 else 0
    ensures Cap(Given(items, given), id) == Cap(items, id)
  {
    IndexSurvives(items, Given(items, given), id);
  }

  lemma UpsertedCounts(items: seq<Item>, item: Item, id: string)
    requires item.inFlight == 0
    ensures Count(Upserted(items, item), id) == Count(items, id)
    ensures id != item.id ==> Cap(Upserted(items, item), id) == Cap(items, id)
  {
    var i := IndexIn(items, item.id);
    if i < |items| {
      IndexSurvives(items, Upserted(items, item), id);
    } else {
      var j := IndexIn(items, id);
      if j < |items| || id == item.id {
        IndexIsUnique(Upserted(items, item), id, j);
      } else {
        IndexIsUnique(Upserted(items, item), id, |items| + 1);
      }
    }
  }

  lemma RemovedIndex(items: seq<Item>, i: nat, id: string)
    requires Routing.DistinctIds(items) && i < |items|
    ensures var j, rest := IndexIn(items, id), items[..i] + items[i + 1..];
      IndexIn(rest, id) == if j == i then |rest| else if j < i then j else j - 1
  {
    var j, rest := IndexIn(items, id), items[..i] + items[i + 1..];
    forall k | 0 <= k < |rest| ensures rest[k] == items[if k < i then k else k + 1] {}
    IndexIsUnique(rest, id, if j == i then |rest| else if j < i then j else j - 1);
  }

  lemma RemovedCounts(items: seq<Item>, removed: string, id: string)
    requires Routing.DistinctIds(items)
    ensures Count(Removed(items, removed), id) == if id == removed then 0 else Count(items, id)
    ensures id != removed ==> Cap(Removed(items, removed), id) == Cap(items, id)
  {
    if Known(items, removed) {
      RemovedIndex(items, IndexIn(items, removed), id);
    }
  }

  /** What one section does to one account's counter and holders. A removal is the only way for the
      two to part. */
  lemma StepCounts(s: Sys, e: Event, id: string)
    requires Enabled(s, e) && Routing.DistinctIds(s.items)
    ensures var s' := Next(s, e);
      match e
      case Take(t) =>
        var more := if t == id && HasRoom(s.items, id) then 1 else 0;
        Count(s'.items, id) == Count(s.items, id) + more && s'.holders[id] == s.holders[id] + more
      case Drop(t) =>
        && Count(s'.items, id) == Count(s.items, id) - (if t == id && Count(s.items, id) > 0 then 1 else 0)
        && s'.holders[id] == s.holders[id] - if t == id then 1 else 0
      case Unregister(t) =>
        Count(s'.items, id) == (if t == id then 0 else Count(s.items, id)) && s'.holders[id] == s.holders[id]
      case _ => Count(s'.items, id) == Count(s.items, id) && s'.holders[id] == s.holders[id]
  {
    match e
    case Take(t) => TakenCounts(s.items, t, id);
    case Drop(t) => GivenCounts(s.items, t, id);
    case Register(item) => UpsertedCounts(s.items, item, id);
    case Unregister(t) => RemovedCounts(s.items, t, id);
    case Rewrite(items) => IndexSurvives(s.items, items, id);
  }

  lemma SameIdsAreDistinct(items: seq<Item>, items': seq<Item>)
    requires Routing.DistinctIds(items) && |items| == |items'|
    requires forall i :: 0 <= i < |items| ==> items[i].id == items'[i].id
    ensures Routing.DistinctIds(items')
  {
  }

  lemma RegisterKeepsIdsDistinct(items: seq<Item>, item: Item)
    requires Routing.DistinctIds(items) && item.id != ""
    ensures Routing.DistinctIds(Upserted(items, item))
  {
    if Known(items, item.id) { SameIdsAreDistinct(items, Upserted(items, item)); }
  }

  lemma StepKeepsIdsDistinct(s: Sys, e: Event)
    requires Enabled(s, e) && Routing.DistinctIds(s.items)
    ensures Routing.DistinctIds(Next(s, e).items)
  {
    match e
    case Register(item) => RegisterKeepsIdsDistinct(s.items, item);
    case Unregister(_) =>
    case _ => SameIdsAreDistinct(s.items, Next(s, e).items);
  }

  ghost predicate Conserved(s: Sys, id: string) {
    Count(s.items, id) == s.holders[id]
  }

  /** The counter equals the number of holders after every section, except exactly a removal of the
      account while it is held. */
  lemma ConservedUnlessRemovedWhileHeld(s: Sys, e: Event, id: string)
    requires Enabled(s, e) && Routing.DistinctIds(s.items) && Conserved(s, id)
    ensures Conserved(Next(s, e), id) <==> !(e == Unregister(id) && s.holders[id] > 0)
  {
    StepCounts(s, e, id);
  }

  // ---------------------------------------------------------------- whole runs

  predicate Legal(s: Sys, events: seq<Event>)
    decreases |events|
  {
    events == [] || (Enabled(s, events[0]) && Legal(Next(s, events[0]), events[1..]))
  }

  function After(s: Sys, events: seq<Event>): Sys
    decreases |events|
  {
    if events == [] then s else After(Next(s, events[0]), events[1..])
  }

  predicate RemovedOnlyIdle(s: Sys, events: seq<Event>, id: string)
    decreases |events|
  {
    events == [] ||
    ((events[0] == Unregister(id) ==> s.holders[id] == 0) && RemovedOnlyIdle(Next(s, events[0]), events[1..], id))
  }

  predicate CapStays(s: Sys, events: seq<Event>, id: string, cap: int)
    decreases |events|
  {
    (Known(s.items, id) ==> Cap(s.items, id) == cap) &&
    (events == [] || CapStays(Next(s, events[0]), events[1..], id, cap))
  }

  /** For an account never removed while held, the counter is the number of holders at every point. */
  lemma {:induction false} SlotsAreConserved(s: Sys, events: seq<Event>, id: string)
    requires Legal(s, events) && Routing.DistinctIds(s.items) && Conserved(s, id) && RemovedOnlyIdle(s, events, id)
    ensures Conserved(After(s, events), id)
    decreases |events|
  {
    if events == [] {
    } else {
      ConservedUnlessRemovedWhileHeld(s, events[0], id);
      StepKeepsIdsDistinct(s, events[0]);
      SlotsAreConserved(Next(s, events[0]), events[1..], id);
    }
  }

  /** Whatever is removed or re-registered, a counter never exceeds the number of holders; so it is
      zero once nobody holds the account. */
  lemma {:induction false} CountersNeverLeak(s: Sys, events: seq<Event>, id: string)
    requires Legal(s, events) && Routing.DistinctIds(s.items) && Count(s.items, id) <= s.holders[id]
    ensures Count(After(s, events).items, id) <= After(s, events).holders[id]
    decreases |events|
  {
    if events == [] {
    } else {
      StepCounts(s, events[0], id);
      StepKeepsIdsDistinct(s, events[0]);
      CountersNeverLeak(Next(s, events[0]), events[1..], id);
    }
  }

  lemma StepStaysWithinCap(s: Sys, e: Event, id: string, cap: int)
    requires Enabled(s, e) && Routing.DistinctIds(s.items)
    requires cap > 0 && Count(s.items, id) <= cap && (Known(s.items, id) ==> Cap(s.items, id) == cap)
    ensures Count(Next(s, e).items, id) <= cap
  {
    StepCounts(s, e, id);
  }

  /** For an account with a fixed positive cap that is never removed while held, no more than `cap`
      requests and bodies hold it at any point. */
  lemma {:induction false} HoldersStayWithinCap(s: Sys, events: seq<Event>, id: string, cap: int)
    requires Legal(s, events) && Routing.DistinctIds(s.items) && Conserved(s, id)
    requires RemovedOnlyIdle(s, events, id) && CapStays(s, events, id, cap)
    requires cap > 0 && s.holders[id] <= cap
    ensures After(s, events).holders[id] <= cap
    decreases |events|
  {
    if events == [] {
    } else {
      StepStaysWithinCap(s, events[0], id, cap);
      ConservedUnlessRemovedWhileHeld(s, events[0], id);
      StepKeepsIdsDistinct(s, events[0]);
      HoldersStayWithinCap(Next(s, events[0]), events[1..], id, cap);
    }
  }

  // ---------------------------------------------------------------- exactly when the cap survives a removal

  /** However the system goes on, as long as the account is not removed while held and keeps its cap
      whenever it is known, no more than `cap` requests and bodies hold it. */
  ghost predicate StaysWithinCap(s: Sys, id: string, cap: int) {
    forall events :: Legal(s, events) && RemovedOnlyIdle(s, events, id) && CapStays(s, events, id, cap) ==>
      After(s, events).holders[id] <= cap
  }

  function Takes(id: string, n: nat): seq<Event> {
    if n == 0 then [] else [Take(id)] + Takes(id, n - 1)
  }

  /** A run that breaks no promise: legal, no removal while held, the cap unchanged. */
  ghost predicate Fair(s: Sys, events: seq<Event>, id: string, cap: int) {
    Legal(s, events) && RemovedOnlyIdle(s, events, id) && CapStays(s, events, id, cap)
  }

  lemma FairStep(s: Sys, e: Event, rest: seq<Event>, id: string, cap: int)
    requires Enabled(s, e) && !e.Unregister? && (Known(s.items, id) ==> Cap(s.items, id) == cap)
    requires Fair(Next(s, e), rest, id, cap)
    ensures Fair(s, [e] + rest, id, cap) && After(s, [e] + rest) == After(Next(s, e), rest)
  {
    assert ([e] + rest)[0] == e && ([e] + rest)[1..] == rest;
  }

  lemma TakenStaysKnown(items: seq<Item>, id: string)
    ensures Known(Taken(items, id), id) <==> Known(items, id)
  {
    IndexSurvives(items, Taken(items, id), id);
  }

  /** An account with `n` slots to spare lets `n` more requests in, whoever else holds it. */
  lemma {:induction false} TakesFill(s: Sys, id: string, cap: int, n: nat)
    requires Routing.DistinctIds(s.items) && Known(s.items, id) && Cap(s.items, id) == cap
    requires Count(s.items, id) + n <= cap
    ensures Fair(s, Takes(id, n), id, cap)
    ensures After(s, Takes(id, n)).holders[id] == s.holders[id] + n
    decreases n
  {
    if n > 0 {
      var next := Next(s, Take(id));
      StepCounts(s, Take(id), id);
      StepKeepsIdsDistinct(s, Take(id));
      TakenCounts(s.items, id, id);
      TakenStaysKnown(s.items, id);
      TakesFill(next, id, cap, n - 1);
      FairStep(s, Take(id), Takes(id, n - 1), id, cap);
    }
  }

  lemma RegisteredIsIdle(items: seq<Item>, item: Item)
    requires !Known(items, item.id) && item.inFlight == 0
    ensures Known(Upserted(items, item), item.id) && Count(Upserted(items, item), item.id) == 0
    ensures Cap(Upserted(items, item), item.id) == item.maxInFlight
  {
    UpsertedCounts(items, item, item.id);
    IndexIsUnique(Upserted(items, item), item.id, |items|);
  }

  /** Registering an account that somebody still holds, and filling it up, exceeds its cap. */
  lemma RegisteringOverAdmits(s: Sys, item: Item, cap: int)
    requires Routing.DistinctIds(s.items) && !Known(s.items, item.id) && s.holders[item.id] > 0
    requires item.id != "" && item.inFlight == 0 && item.maxInFlight == cap > 0
    ensures Fair(s, [Register(item)] + Takes(item.id, cap), item.id, cap)
    ensures After(s, [Register(item)] + Takes(item.id, cap)).holders[item.id] > cap
  {
    var next := Next(s, Register(item));
    StepKeepsIdsDistinct(s, Register(item));
    RegisteredIsIdle(s.items, item);
    TakesFill(next, item.id, cap, cap);
    FairStep(s, Register(item), Takes(item.id, cap), item.id, cap);
  }

  lemma RemovalForgets(s: Sys, id: string)
    requires Routing.DistinctIds(s.items)
    ensures !Known(Next(s, Unregister(id)).items, id) && Routing.DistinctIds(Next(s, Unregister(id)).items)
  {
    StepKeepsIdsDistinct(s, Unregister(id));
    if Known(s.items, id) {
      RemovedIndex(s.items, IndexIn(s.items, id), id);
    }
  }

  /** After a removal the account's cap holds in every continuation exactly when nobody held it. */
  lemma RemovalKeepsCapExactlyWhenIdle(s: Sys, id: string, cap: int)
    requires Routing.DistinctIds(s.items) && Conserved(s, id) && cap > 0
    ensures StaysWithinCap(Next(s, Unregister(id)), id, cap) <==> s.holders[id] == 0
  {
    var gone := Next(s, Unregister(id));
    RemovalForgets(s, id);
    if s.holders[id] > 0 {
      var item := s.items[IndexIn(s.items, id)].(inFlight := 0, maxInFlight := cap);
      RegisteringOverAdmits(gone, item, cap);
      var events := [Register(item)] + Takes(id, cap);
      assert Legal(gone, events) && After(gone, events).holders[id] > cap;
    } else {
      ConservedUnlessRemovedWhileHeld(s, Unregister(id), id);
      forall events | Legal(gone, events) && RemovedOnlyIdle(gone, events, id) && CapStays(gone, events, id, cap)
        ensures After(gone, events).holders[id] <= cap
      {
        HoldersStayWithinCap(gone, events, id, cap);
      }
    }
  }

  /** A worker restart removes and registers its account whoever holds it. With a cap of one, two
      requests can then hold the account at once. */
  lemma RestartWhileHeldOverAdmits(item: Item)
    requires item.id != "" && item.inFlight == 0 && item.maxInFlight == 1
    ensures var id := item.id;
      var events := [Register(item), Take(id), Unregister(id), Register(item), Take(id)];
      && Legal(Sys([], multiset{}), events)
      && After(Sys([], multiset{}), events).holders[id] == 2
      && Count(After(Sys([], multiset{}), events).items, id) == 1
  {
    var id := item.id;
    var entry := item.(provider := NormalizeFamily(item.provider), region := NormalizeRegion(item.region));
    var idle, busy := Sys([entry], multiset{}), Sys([entry.(inFlight := 1)], multiset{id});
    var gone, again := Sys([], multiset{id}), Sys([entry], multiset{id});
    var twice := Sys([entry.(inFlight := 1)], multiset{id, id});
    assert Next(Sys([], multiset{}), Register(item)) == idle && Next(idle, Take(id)) == busy;
    assert Next(busy, Unregister(id)) == gone;
    assert Next(gone, Register(item)) == again && Next(again, Take(id)) == twice;
    FiveSteps(Sys([], multiset{}), Register(item), idle, Take(id), busy, Unregister(id), gone, Register(item), again,
      Take(id));
  }

  lemma FiveSteps(s0: Sys, a: Event, s1: Sys, b: Event, s2: Sys, c: Event, s3: Sys, d: Event, s4: Sys, e: Event)
    requires Enabled(s0, a) && Enabled(s1, b) && Enabled(s2, c) && Enabled(s3, d) && Enabled(s4, e)
    requires s1 == Next(s0, a) && s2 == Next(s1, b) && s3 == Next(s2, c) && s4 == Next(s3, d)
    ensures Legal(s0, [a, b, c, d, e]) && After(s0, [a, b, c, d, e]) == Next(s4, e)
  {
    RunStep(s4, e, [], [e]);
    RunStep(s3, d, [e], [d, e]);
    RunStep(s2, c, [d, e], [c, d, e]);
    RunStep(s1, b, [c, d, e], [b, c, d, e]);
    RunStep(s0, a, [b, c, d, e], [a, b, c, d, e]);
  }

  lemma RunStep(s: Sys, e: Event, rest: seq<Event>, all: seq<Event>)
    requires Enabled(s, e) && Legal(Next(s, e), rest) && all == [e] + rest
    ensures Legal(s, all) && After(s, all) == After(Next(s, e), rest)
  {
    assert all[1..] == rest;
  }
}
