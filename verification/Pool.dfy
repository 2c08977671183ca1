/** The account pool. Every method of it is one critical section under the pool's lock, or a part of one;
    only the restore at boot, at the end of the class, is the manager's own loop over two sections a row. */
module PoolModel {
  import opened Strings
  import opened Items
  import opened Routing
  import Cooldown
  import Restore
  import Fefo
  import Batches
  import Latch
  import Fairness
  import RR = RoundRobin
  import SW = SmoothWeighted

  /** First position of `id`; the length when it is absent. */
  function IndexIn(items: seq<Item>, id: string): (i: nat)
    ensures i <= |items|
    ensures i < |items| ==> items[i].id == id
    ensures forall j :: 0 <= j < i ==> items[j].id != id
  {
    if items == [] || items[0].id == id then 0 else 1 + IndexIn(items[1..], id)
  }

  lemma IndexIsUnique(items: seq<Item>, id: string, i: nat)
    requires i <= |items| && (i < |items| ==> items[i].id == id)
    requires forall j :: 0 <= j < i ==> items[j].id != id
    ensures i == IndexIn(items, id)
  {}

  lemma FindAtIndex(items: seq<Item>, id: string)
    ensures Find(items, id) == if IndexIn(items, id) < |items| then Some(items[IndexIn(items, id)]) else None
  {}

  /** The pool contents after `Upsert(item)`. */
  function Upserted(items: seq<Item>, item: Item): seq<Item> {
    var i := IndexIn(items, item.id);
    if i < |items| then items[i := Restore.Merge(items[i], item)]
    else items + [item.(provider := NormalizeFamily(item.provider), region := NormalizeRegion(item.region))]
  }

  function CountWhere<T>(items: seq<T>, p: T -> bool): (count: nat)
    ensures count == 0 <==> forall i :: 0 <= i < |items| ==> !p(items[i])
  {
    if items == [] then 0
    else CountWhere(items[..|items| - 1], p) + if p(items[|items| - 1]) then 1 else 0
  }

  /** The positions that satisfy `p`. */
  ghost function Positions<T>(items: seq<T>, p: T -> bool): set<nat> {
    set i: nat | i < |items| && p(items[i])
  }

  lemma {:induction false} CountsEachPosition<T>(items: seq<T>, p: T -> bool)
    ensures CountWhere(items, p) == |Positions(items, p)|
  {
    if items != [] {
      var n := |items| - 1;
      CountsEachPosition(items[..n], p);
      assert Positions(items, p) == Positions(items[..n], p) + if p(items[n]) then {n} else {};
    }
  }

  /** The accounts on the route are those that match the query, busy or cooling ones included. */
  lemma RouteCountIsMatches(items: seq<Item>, q: Query, now: Time)
    ensures RouteCount(items, q, now) == |set i: nat | i < |items| && Matches(items[i], q, now)|
  {
    CountsEachPosition(items, OnRoute(q, now));
    assert Positions(items, OnRoute(q, now)) == set i: nat | i < |items| && Matches(items[i], q, now);
  }

  method Tally<T>(items: seq<T>, p: T -> bool) returns (count: nat)
    ensures count == CountWhere(items, p)
  {
    count := 0;
    for i := 0 to |items|
      invariant count == CountWhere(items[..i], p)
    {
      assert items[..i + 1][..i] == items[..i];
      if p(items[i]) {
        count := count + 1;
      }
    }
    assert items[..|items|] == items;
  }

  method FindEarliest<T>(items: seq<T>, cooling: T -> bool, resume: T -> Time) returns (best: Option<T>)
    ensures best == EarliestOf(items, cooling, resume, |items|)
  {
    best := None;
    for i := 0 to |items|
      invariant best == EarliestOf(items, cooling, resume, i)
    {
      if cooling(items[i]) && (best.None? || resume(items[i]) < resume(best.value)) {
        best := Some(items[i]);
      }
    }
  }

  function OnRoute(q: Query, now: Time): Item -> bool {
    (item: Item) => Matches(item, q, now)
  }

  /** How many accounts are on the route, busy or cooling ones included. */
  function RouteCount(items: seq<Item>, q: Query, now: Time): nat {
    CountWhere(items, OnRoute(q, now))
  }

  /** The account exists and has a slot free. */
  predicate HasRoom(items: seq<Item>, id: string) {
    IndexIn(items, id) < |items| && !Saturated(items[IndexIn(items, id)])
  }

  /** The pool contents after a slot was reserved, and after one was freed: the counter of an unknown
      account, or one already at zero, is left alone. */
  function Taken(items: seq<Item>, id: string): seq<Item> {
    var i := IndexIn(items, id);
    if HasRoom(items, id) then items[i := items[i].(inFlight := items[i].inFlight + 1)] else items
  }

  function Given(items: seq<Item>, id: string): seq<Item> {
    var i := IndexIn(items, id);
    if i < |items| && items[i].inFlight > 0 then items[i := items[i].(inFlight := items[i].inFlight - 1)] else items
  }

  function Removed(items: seq<Item>, id: string): seq<Item> {
    var i := IndexIn(items, id);
    if i < |items| then items[..i] + items[i + 1..] else items
  }

  /** All a pool holds between two of its critical sections. */
  datatype Contents = Contents(items: seq<Item>, memory: Memory, strategy: Strategy, counter: nat)

  ghost predicate Sound(c: Contents) {
    && DistinctIds(c.items) && Balanced(c.memory)
    && forall i :: 0 <= i < |c.items| ==> c.items[i].stateVersion <= c.counter
  }

  type Snapshot = c: Contents | Sound(c)
    witness Contents([], Memory(map[], map[], map[]), RoundRobin, 0)

  class Pool {
    var items: seq<Item>
    var lastPicked: map<string, string>
    var lastRegion: map<string, string>
    var weightCounter: map<string, SW.Counters>
    var strategy: Strategy
    var stateCounter: nat

    ghost predicate Valid()
      reads this
    {
      Sound(Now())
    }

    ghost function Now(): Contents
      reads this
    {
      Contents(items, MemoryNow(), strategy, stateCounter)
    }

    ghost function MemoryNow(): Memory
      reads this
    {
      Memory(lastPicked, lastRegion, weightCounter)
    }

    constructor ()
      ensures Valid() && items == [] && strategy == RoundRobin && MemoryNow() == Memory(map[], map[], map[])
    {
      items, lastPicked, lastRegion, weightCounter := [], map[], map[], map[];
      strategy, stateCounter := RoundRobin, 0;
    }

    method SetRoutingStrategy(next: Strategy)
      requires Valid()
      modifies this
      ensures Valid() && items == old(items) && stateCounter == old(stateCounter)
      ensures strategy == next && MemoryNow() == Memory(map[], map[], map[])
    {
      strategy, lastPicked, lastRegion, weightCounter := next, map[], map[], map[];
    }

    method Locate(id: string) returns (i: nat)
      ensures i == IndexIn(items, id)
    {
      i := 0;
      while i < |items| && items[i].id != id
        invariant i <= |items|
        invariant forall j :: 0 <= j < i ==> items[j].id != id
      {
        i := i + 1;
      }
      IndexIsUnique(items, id, i);
    }

    method ByID(id: string) returns (item: Option<Item>)
      ensures item == Find(items, id)
    {
      var i := Locate(id);
      FindAtIndex(items, id);
      item := if i < |items| then Some(items[i]) else None;
    }

    method LenRoute(query: Query, now: Time) returns (count: nat)
      ensures count == RouteCount(items, Stamped(query, strategy, now), now)
      ensures var q := query.(fefoNow := if strategy == EarliestExpiry then now else query.fefoNow);
        count == |set i: nat | i < |items| && Matches(items[i], q, now)|
    {
      RouteCountIsMatches(items, Stamped(query, strategy, now), now);
      count := Tally(items, OnRoute(Stamped(query, strategy, now), now));
    }

    // -------------------------------------------------------------- scheduling

    method CollectUsable(q: Query, now: Time) returns (usable: seq<Item>)
      ensures usable == UsableItems(items, q, now)
    {
      usable := [];
      for i := 0 to |items|
        invariant usable == UsableItems(items[..i], q, now)
      {
        assert items[..i + 1][..i] == items[..i];
        if Usable(items[i], q, now) {
          usable := usable + [items[i]];
        }
      }
      assert items[..|items|] == items;
    }

    method RetryHint(q: Query, now: Time) returns (best: Option<Item>)
      ensures best == Soonest(items, q, now)
    {
      best := FindEarliest(items, CoolingFor(q, now), ResumeFor(q));
    }

    /** The region latch: keep the remembered region while it carries a fair share of the route,
        re-seat on the largest one otherwise. */
    method NarrowToServedRegion(available: seq<Item>, q: Query, key: string) returns (regional: seq<Item>)
      requires available != [] && key == RotationKey(q)
      ensures regional == InServedRegion(available, q, Latched(MemoryNow(), key))
    {
      if q.regionFilter != "" {
        return available;
      }
      if key in lastRegion {
        var previous := lastRegion[key];
        var largest := Latch.LargestCount(available, Region);
        if Latch.Size(available, Region, previous) > 0 && !(Latch.Size(available, Region, previous) * 2 < largest) {
          return Latch.InGroup(available, Region, previous);
        }
      }
      var preferred := Latch.LargestGroup(available, Region);
      regional := Latch.InGroup(available, Region, preferred);
    }

    method FillFirst(finalists: seq<Item>) returns (b: nat)
      requires finalists != []
      ensures b == FillFirstIndex(finalists, |finalists|)
    {
      b := 0;
      for i := 1 to |finalists|
        invariant b == FillFirstIndex(finalists, i)
      {
        var w, best := NormalizeWeight(finalists[i].weight), NormalizeWeight(finalists[b].weight);
        if w > best || (w == best && Less(finalists[i].id, finalists[b].id)) {
          b := i;
        }
      }
    }

    /** Total weight of the finalists and whether they all weigh the same. */
    method Survey(finalists: seq<Item>) returns (total: int, uniform: bool)
      requires finalists != []
      ensures total == SW.Sum(SW.Weights(Weigh(finalists)))
      ensures uniform == Uniform(finalists)
    {
      total, uniform := 0, true;
      var weights := SW.Weights(Weigh(finalists));
      for i := 0 to |finalists|
        invariant total == SW.Sum(weights[..i])
        invariant uniform == forall j :: 0 <= j < i ==>
          NormalizeWeight(finalists[j].weight) == NormalizeWeight(finalists[0].weight)
      {
        var weight := NormalizeWeight(finalists[i].weight);
        assert weights[..i + 1][..i] == weights[..i];
        total := total + weight;
        if weight != NormalizeWeight(finalists[0].weight) {
          uniform := false;
        }
      }
      assert weights[..|finalists|] == weights;
    }

    /** Smooth weighted round-robin: the finalist with the largest counter pays the total. */
    method ChargeLargest(finalists: seq<Item>, key: string, total: int) returns (b: nat)
      requires finalists != [] && SW.DistinctIds(Weigh(finalists))
      requires total == SW.Sum(SW.Weights(Weigh(finalists)))
      modifies this`weightCounter
      ensures b == SW.Winner(CountersOf(old(MemoryNow()), key), Weigh(finalists))
      ensures weightCounter == old(weightCounter)[key := SW.Charge(CountersOf(old(MemoryNow()), key), Weigh(finalists))]
    {
      var start: SW.Counters := if key in weightCounter then weightCounter[key] else map[];
      var counters;
      counters, b := SW.CreditAll(Weigh(finalists), start);
      var id := finalists[b].id;
      SW.ChargeIsDebit(start, Weigh(finalists), counters, b);
      weightCounter := weightCounter[key := counters[id := SW.Count(counters, id) - total]];
    }

    /** Applies the strategy to the final list. */
    method Choose(finalists: seq<Item>, key: string) returns (b: nat)
      requires finalists != [] && SW.DistinctIds(Weigh(finalists))
      modifies this`weightCounter
      ensures b == ChosenIndex(finalists, strategy, old(MemoryNow()), key)
      ensures weightCounter ==
        Remember(finalists, strategy, old(MemoryNow()), key, finalists[b]).weightCounter
    {
      if strategy.FillFirst? {
        b := FillFirst(finalists);
        return;
      }
      if strategy.Weighted? {
        var total, uniform := Survey(finalists);
        if !uniform {
          b := ChargeLargest(finalists, key, total);
          return;
        }
      }
      b := RR.SuccessorIndex(Ids(finalists), Lookup(lastPicked, key));
    }

    /** Keeps the cursor map bounded: a new route at the limit resets every route. */
    method EnsureRotationKey(key: string)
      modifies this`lastPicked, this`lastRegion, this`weightCounter
      ensures MemoryNow() == EnsureKey(old(MemoryNow()), key)
    {
      if key !in lastPicked && |lastPicked| >= ROTATION_LIMIT {
        lastPicked, lastRegion, weightCounter := map[], map[], map[];
      }
    }

    method Shortlist(available: seq<Item>, q: Query, now: Time) returns (finalists: seq<Item>)
      requires available != []
      ensures finalists == Finalists(available, strategy, MemoryNow(), q, now)
    {
      finalists := NarrowToServedRegion(available, q, RotationKey(q));
      if strategy.EarliestExpiry? {
        finalists := Batches.NarrowCandidates(finalists, Family, Fefo.DayOf(q.publicModel, now));
      }
    }

    /** Picks among the finalists and remembers the pick for the route. */
    method Settle(finalists: seq<Item>, key: string) returns (picked: Item)
      requires finalists != [] && SW.DistinctIds(Weigh(finalists))
      modifies this`lastPicked, this`lastRegion, this`weightCounter
      ensures picked == finalists[ChosenIndex(finalists, strategy, old(MemoryNow()), key)]
      ensures MemoryNow() == Remember(finalists, strategy, old(MemoryNow()), key, picked)
    {
      var b := Choose(finalists, key);
      picked := finalists[b];
      lastPicked := lastPicked[key := picked.id];
      lastRegion := lastRegion[key := Region(picked)];
    }

    /** Serves one of the available items and remembers it for the route. */
    method ServeFrom(available: seq<Item>, q: Query, now: Time) returns (picked: Item)
      requires Valid() && available == Available(items, q, now) && available != []
      modifies this`lastPicked, this`lastRegion, this`weightCounter
      ensures picked == Serve(available, strategy, old(MemoryNow()), q, now).0
      ensures MemoryNow() == Serve(available, strategy, old(MemoryNow()), q, now).1
    {
      Fairness.FinalistsAreSorted(items, strategy, EnsureKey(MemoryNow(), RotationKey(q)), q, now);
      EnsureRotationKey(RotationKey(q));
      var finalists := Shortlist(available, q, now);
      SortedIdsAreDistinct(finalists);
      picked := Settle(finalists, RotationKey(q));
    }

    /** What the preferred account settles, before any scheduling. */
    method ResolvePin(q: Query, now: Time) returns (pin: Pin)
      ensures pin == PinOutcome(items, q, now)
    {
      if q.prefer == "" {
        return Unpinned;
      }
      var pinned := ByID(q.prefer);
      if pinned.None? || pinned.value.id in q.excluded {
        return Unpinned;
      }
      if !CouldServe(pinned.value, q.publicModel) {
        return Refused;
      }
      pin := if Usable(pinned.value, q, now) then Pinned(pinned.value) else Unpinned;
    }

    method PickRoute(query: Query, now: Time) returns (r: Option<Item>)
      requires Valid()
      modifies this`lastPicked, this`lastRegion, this`weightCounter
      ensures Valid()
      ensures (r, MemoryNow()) == Pick(items, strategy, old(MemoryNow()), query, now)
    {
      hide Serve, Soonest, PinOutcome, UsableItems, SortById;
      PickConservesCounters(items, strategy, MemoryNow(), query, now);
      var q := Stamped(query, strategy, now);
      var pin := ResolvePin(q, now);
      if pin.Refused? {
        return None;
      }
      if pin.Pinned? {
        return Some(pin.item);
      }
      var usable := CollectUsable(q, now);
      var available := SortById(usable);
      if available == [] {
        r := RetryHint(q, now);
        return;
      }
      var picked := ServeFrom(available, q, now);
      r := Some(picked);
    }

    // -------------------------------------------------------------- cooldowns

    /** Writes one item, stamped with the next version, and hands its snapshot to the observer. */
    method Stamp(i: nat, item: Item) returns (snapshot: Item)
      requires Valid() && i < |items| && item.id == items[i].id
      modifies this`items, this`stateCounter
      ensures Valid() && stateCounter == old(stateCounter) + 1
      ensures snapshot == item.(stateVersion := stateCounter) && items == old(items)[i := snapshot]
    {
      stateCounter := stateCounter + 1;
      snapshot := item.(stateVersion := stateCounter);
      items := items[i := snapshot];
    }

    method StampClassified(i: nat, f: Cooldown.Failure, now: Time) returns (snapshot: Item)
      requires Valid() && i < |items|
      modifies this`items, this`stateCounter
      ensures Valid() && stateCounter == old(stateCounter) + 1
      ensures snapshot == Cooldown.Classified(old(items)[i], f, now).(stateVersion := stateCounter)
      ensures items == old(items)[i := snapshot]
    {
      snapshot := Stamp(i, Cooldown.Classified(items[i], f, now));
    }

    method MarkClassified(id: string, f: Cooldown.Failure, now: Time) returns (snapshot: Option<Item>)
      requires Valid()
      modifies this`items, this`stateCounter
      ensures Valid()
      ensures var i := IndexIn(old(items), id);
        if id == "" || f.kind == Cooldown.MODEL_NOT_AVAILABLE || i == |old(items)|
        then snapshot.None? && items == old(items) && stateCounter == old(stateCounter)
        else && stateCounter == old(stateCounter) + 1
             && snapshot == Some(Cooldown.Classified(old(items)[i], f, now).(stateVersion := stateCounter))
             && items == old(items)[i := snapshot.value]
    {
      if id == "" || f.kind == Cooldown.MODEL_NOT_AVAILABLE {
        return None;
      }
      var i := Locate(id);
      if i == |items| {
        return None;
      }
      var s := StampClassified(i, f, now);
      snapshot := Some(s);
    }

    method MarkOK(id: string, model: string) returns (snapshot: Option<Item>)
      requires Valid()
      modifies this`items, this`stateCounter
      ensures Valid()
      ensures var i := IndexIn(old(items), id);
        if id == "" || i == |old(items)|
        then snapshot.None? && items == old(items) && stateCounter == old(stateCounter)
        else && stateCounter == old(stateCounter) + 1
             && snapshot == Some(Cooldown.Succeeded(old(items)[i], model).(stateVersion := stateCounter))
             && items == old(items)[i := snapshot.value]
    {
      if id == "" {
        return None;
      }
      var i := Locate(id);
      if i == |items| {
        return None;
      }
      var s := Stamp(i, Cooldown.Succeeded(items[i], model));
      snapshot := Some(s);
    }

    method ClearAccountQuotaCooldown(id: string) returns (snapshot: Option<Item>)
      requires Valid()
      modifies this`items, this`stateCounter
      ensures Valid()
      ensures var i := IndexIn(old(items), id);
        if i < |old(items)| && old(items)[i].downUntil != 0 && old(items)[i].lastKind in {"", Cooldown.QUOTA}
        then && stateCounter == old(stateCounter) + 1
             && snapshot == Some(Cooldown.QuotaCleared(old(items)[i]).(stateVersion := stateCounter))
             && items == old(items)[i := snapshot.value]
        else snapshot.None? && items == old(items) && stateCounter == old(stateCounter)
    {
      var i := Locate(id);
      if i == |items| || items[i].downUntil == 0 || (items[i].lastKind != "" && items[i].lastKind != Cooldown.QUOTA) {
        return None;
      }
      var s := Stamp(i, Cooldown.QuotaCleared(items[i]));
      snapshot := Some(s);
    }

    // -------------------------------------------------------------- slots

    method Acquire(id: string) returns (ok: bool)
      requires Valid()
      modifies this`items
      ensures Valid()
      ensures (ok <==> HasRoom(old(items), id)) && items == Taken(old(items), id)
    {
      var i := Locate(id);
      ok := i < |items| && !(items[i].maxInFlight > 0 && items[i].inFlight >= items[i].maxInFlight);
      if ok {
        items := items[i := items[i].(inFlight := items[i].inFlight + 1)];
      }
    }

    method Release(id: string)
      requires Valid()
      modifies this`items
      ensures Valid()
      ensures items == Given(old(items), id)
    {
      var i := Locate(id);
      if i < |items| && items[i].inFlight > 0 {
        items := items[i := items[i].(inFlight := items[i].inFlight - 1)];
      }
    }

    // -------------------------------------------------------------- membership

    method Upsert(item: Item)
      requires Valid() && item.stateVersion <= stateCounter
      modifies this`items
      ensures Valid()
      ensures items == if item.id == "" then old(items) else Upserted(old(items), item)
    {
      if item.id == "" {
        return;
      }
      var i := Locate(item.id);
      if i < |items| {
        items := items[i := Restore.Merge(items[i], item)];
      } else {
        items := items + [item.(provider := NormalizeFamily(item.provider), region := NormalizeRegion(item.region))];
      }
    }

    method Remove(id: string)
      requires Valid()
      modifies this`items, this`lastPicked
      ensures Valid()
      ensures items == Removed(old(items), id)
      ensures MemoryNow() ==
        if items != old(items) then Fairness.DropCursor(old(MemoryNow()), id) else old(MemoryNow())
    {
      var i := Locate(id);
      if i < |items| {
        items := items[..i] + items[i + 1..];
        lastPicked := map key | key in lastPicked && lastPicked[key] != id :: lastPicked[key];
      }
    }

    /** One row of the manager's loop: reads the account (one section), applies the row to the copy, and
        merges the copy back (another section), here with nothing in between. */
    method RestoreOne(row: Restore.Row)
      requires Valid()
      modifies this`items
      ensures Valid() && |items| == |old(items)|
      ensures forall i :: 0 <= i < |items| ==> items[i] == Restore.RestoreStep(old(items)[i], row)
    {
      var found := ByID(row.accountId);
      FindAtIndex(items, row.accountId);
      if found.Some? {
        Upsert(Restore.RestoreRow(found.value, row));
      }
    }

    /** The manager's restore at boot, undisturbed. */
    method RestoreCooldowns(rows: seq<Restore.Row>)
      requires Valid()
      modifies this`items
      ensures Valid() && |items| == |old(items)|
      ensures forall i :: 0 <= i < |items| ==> items[i] == Restore.RestoreAll(old(items)[i], rows)
    {
      for k := 0 to |rows|
        invariant Valid() && |items| == |old(items)|
        invariant forall i :: 0 <= i < |items| ==> items[i] == Restore.RestoreAll(old(items)[i], rows[..k])
      {
        assert rows[..k + 1][..k] == rows[..k];
        RestoreOne(rows[k]);
      }
      assert rows[..|rows|] == rows;
    }
  }

  lemma SortedIdsAreDistinct(items: seq<Item>)
    requires RR.Sorted(Ids(items))
    ensures SW.DistinctIds(Weigh(items))
  {
    forall i, j | 0 <= i < j < |items| ensures items[i].id != items[j].id {
      RR.SortedIsInjective(Ids(items), i, j);
    }
  }
}
