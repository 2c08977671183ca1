/** Rotation over whole runs of `PickRoute`: the finalists arrive sorted, the cursor walks them,
    and so no account that stays a finalist is starved. Also where fairness ends. */
module Fairness {
  import opened Strings
  import opened Items
  import opened Routing
  import Fefo
  import Batches
  import Latch
  import RR = RoundRobin

  predicate Precedes(a: Item, b: Item) {
    Less(a.id, b.id)
  }

  ghost predicate Ascending(items: seq<Item>) {
    forall i, j :: 0 <= i < j < |items| ==> Precedes(items[i], items[j])
  }

  lemma {:induction false} InsertKeepsAscending(item: Item, sorted: seq<Item>)
    requires Ascending(sorted) && forall x :: x in sorted ==> x.id != item.id
    ensures Ascending(Insert(item, sorted))
  {
    LessIsStrictTotalOrder();
    if sorted != [] && !Less(item.id, sorted[0].id) {
      assert sorted[0] in sorted;
      InsertKeepsAscending(item, sorted[1..]);
      var rest := Insert(item, sorted[1..]);
      forall x | x in rest ensures Precedes(sorted[0], x) {
        if x != item {
          var i :| 0 <= i < |sorted[1..]| && sorted[1..][i] == x;
          assert sorted[i + 1] == x;
        }
      }
      assert forall i :: 0 <= i < |rest| ==> rest[i] in rest;
    }
  }

  lemma {:induction false} SortIsAscending(items: seq<Item>)
    requires DistinctIds(items)
    ensures Ascending(SortById(items))
  {
    if items != [] {
      var n := |items| - 1;
      SortIsAscending(items[..n]);
      forall x | x in SortById(items[..n]) ensures x.id != items[n].id {
        var i :| 0 <= i < n && items[i] == x;
      }
      InsertKeepsAscending(items[n], SortById(items[..n]));
    }
  }

  lemma UsableAreOthers(items: seq<Item>, q: Query, now: Time)
    requires DistinctIds(items) && items != []
    ensures forall item :: item in UsableItems(items[..|items| - 1], q, now) ==> item.id != items[|items| - 1].id
  {
    var n := |items| - 1;
    forall item | item in UsableItems(items[..n], q, now) ensures item.id != items[n].id {
      var j :| 0 <= j < n && items[j] == item;
    }
  }

  lemma UsableOneMore(items: seq<Item>, q: Query, now: Time)
    requires items != []
    ensures var before := UsableItems(items[..|items| - 1], q, now);
      UsableItems(items, q, now) == before || UsableItems(items, q, now) == before + [items[|items| - 1]]
  {
  }

  lemma OneMoreDistinct(before: seq<Item>, item: Item)
    requires DistinctIds(before) && item.id != "" && forall x :: x in before ==> x.id != item.id
    ensures DistinctIds(before + [item])
  {
    assert forall i :: 0 <= i < |before| ==> before[i] in before;
  }

  lemma FirstAreDistinct(items: seq<Item>)
    requires DistinctIds(items) && items != []
    ensures DistinctIds(items[..|items| - 1]) && items[|items| - 1].id != ""
  {
  }

  lemma {:induction false} UsableAreDistinct(items: seq<Item>, q: Query, now: Time)
    requires DistinctIds(items)
    ensures DistinctIds(UsableItems(items, q, now))
  {
    if items != [] {
      FirstAreDistinct(items);
      UsableAreDistinct(items[..|items| - 1], q, now);
      UsableAreOthers(items, q, now);
      UsableOneMore(items, q, now);
      OneMoreDistinct(UsableItems(items[..|items| - 1], q, now), items[|items| - 1]);
    }
  }

  lemma {:induction false} GroupIsAscending(items: seq<Item>, group: Item -> string, g: string)
    requires Ascending(items)
    ensures Ascending(Latch.InGroup(items, group, g))
  {
    if items != [] {
      var n := |items| - 1;
      GroupIsAscending(items[..n], group, g);
      var before := Latch.InGroup(items[..n], group, g);
      forall i | 0 <= i < |before| ensures Precedes(before[i], items[n]) {
        assert before[i] in before;
        var j :| 0 <= j < n && items[j] == before[i];
      }
    }
  }

  /** The finalists carry strictly increasing, non-empty IDs, as the rotation needs. */
  lemma FinalistsAreSorted(items: seq<Item>, strategy: Strategy, m: Memory, q: Query, now: Time)
    requires DistinctIds(items) && Available(items, q, now) != []
    ensures RR.Sorted(Ids(Finalists(Available(items, q, now), strategy, m, q, now)))
  {
    var available := Available(items, q, now);
    UsableAreDistinct(items, q, now);
    SortIsAscending(UsableItems(items, q, now));
    var latched := Latched(m, RotationKey(q));
    GroupIsAscending(available, Region, Latch.Served(available, Region, latched));
    var regional := InServedRegion(available, q, latched);
    Batches.KeptIsOrdered(regional, Family, Fefo.DayOf(q.publicModel, now), |regional|, Precedes);
    var finalists := Finalists(available, strategy, m, q, now);
    forall i | 0 <= i < |finalists| ensures finalists[i].id != "" {
      assert finalists[i] in finalists;
      assert finalists[i] in items;
    }
  }

  // ---------------------------------------------------------------- runs

  /** One `PickRoute` call of a run: the pool it saw, the memory it started from, its query. */
  datatype Call = Call(items: seq<Item>, memory: Memory, query: Query, now: Time)

  /** The call rotates: its strategy does, or weighs accounts of equal weight. */
  ghost predicate Rotates(c: Call, strategy: Strategy, key: string) {
    var q := Stamped(c.query, strategy, c.now);
    && DistinctIds(c.items)
    && PinOutcome(c.items, q, c.now) == Unpinned
    && Available(c.items, q, c.now) != []
    && RotationKey(q) == key
    && EnsureKey(c.memory, key) == c.memory
    && (strategy.RoundRobin? || strategy.EarliestExpiry? ||
        (strategy.Weighted? && Uniform(Finalists(Available(c.items, q, c.now), strategy, c.memory, q, c.now))))
  }

  ghost function FinalistIds(c: Call, strategy: Strategy): (ids: seq<string>)
    requires Available(c.items, Stamped(c.query, strategy, c.now), c.now) != []
    ensures ids != []
  {
    var q := Stamped(c.query, strategy, c.now);
    Ids(Finalists(Available(c.items, q, c.now), strategy, c.memory, q, c.now))
  }

  /** Consecutive calls on one route; in between anything may happen to the pool, but nothing
      resets this route's cursor. */
  ghost predicate RotationRun(calls: seq<Call>, strategy: Strategy, key: string) {
    && (forall k :: 0 <= k < |calls| ==> Rotates(calls[k], strategy, key))
    && (forall k :: 0 <= k < |calls| - 1 ==>
          CursorOf(calls[k + 1].memory, key) == CursorOf(Outcome(calls[k], strategy).1, key))
  }

  ghost function Outcome(c: Call, strategy: Strategy): (Option<Item>, Memory) {
    Pick(c.items, strategy, c.memory, c.query, c.now)
  }

  /** One rotating call serves the finalist after the cursor and leaves the cursor on it. */
  lemma CallFollowsCursor(c: Call, strategy: Strategy, key: string)
    requires Rotates(c, strategy, key)
    ensures var ids := FinalistIds(c, strategy);
      var id := ids[RR.SuccessorIndex(ids, CursorOf(c.memory, key))];
      && Outcome(c, strategy).0.Some? && Outcome(c, strategy).0.value.id == id
      && CursorOf(Outcome(c, strategy).1, key) == id
      && RR.Sorted(ids)
  {
    var q := Stamped(c.query, strategy, c.now);
    FinalistsAreSorted(c.items, strategy, c.memory, q, c.now);
    var available := Available(c.items, q, c.now);
    var finalists := Finalists(available, strategy, c.memory, q, c.now);
    var picked := finalists[ChosenIndex(finalists, strategy, c.memory, key)];
    assert Outcome(c, strategy) == (Some(picked), Remember(finalists, strategy, c.memory, key, picked));
  }

  ghost function Lists(calls: seq<Call>, strategy: Strategy, key: string): (lists: seq<seq<string>>)
    requires RotationRun(calls, strategy, key)
    ensures |lists| == |calls|
    ensures forall k :: 0 <= k < |calls| ==> lists[k] == FinalistIds(calls[k], strategy)
  {
    seq(|calls|, k requires 0 <= k < |calls| => FinalistIds(calls[k], strategy))
  }

  ghost function Cursors(calls: seq<Call>, key: string): (r: seq<string>)
    ensures |r| == |calls| && forall k :: 0 <= k < |calls| ==> r[k] == CursorOf(calls[k].memory, key)
  {
    seq(|calls|, k requires 0 <= k < |calls| => CursorOf(calls[k].memory, key))
  }

  ghost function NextCursors(calls: seq<Call>, strategy: Strategy, key: string): (r: seq<string>)
    ensures |r| == |calls| && forall k :: 0 <= k < |calls| ==> r[k] == CursorOf(Outcome(calls[k], strategy).1, key)
  {
    seq(|calls|, k requires 0 <= k < |calls| => CursorOf(Outcome(calls[k], strategy).1, key))
  }

  /** Cursors that each follow their list, and start where the one before ended, are the rotation's. */
  lemma {:induction false} LinkedCursorsRotate(
    lists: seq<seq<string>>, before: seq<string>, after: seq<string>, k: nat)
    requires k < |lists| == |before| == |after|
    requires forall j {:trigger lists[j]} :: 0 <= j < |lists| ==>
      lists[j] != [] && after[j] == lists[j][RR.SuccessorIndex(lists[j], before[j])]
    requires forall j :: 0 < j < |lists| ==> before[j] == after[j - 1]
    ensures after[k] == RR.PickAt(lists, before[0], k)
  {
    if k > 0 { LinkedCursorsRotate(lists, before, after, k - 1); }
  }

  lemma RunIsLinked(calls: seq<Call>, strategy: Strategy, key: string, k: nat)
    requires RotationRun(calls, strategy, key) && k < |calls|
    ensures var ids := FinalistIds(calls[k], strategy);
      NextCursors(calls, strategy, key)[k] == ids[RR.SuccessorIndex(ids, Cursors(calls, key)[k])]
    ensures k > 0 ==> Cursors(calls, key)[k] == NextCursors(calls, strategy, key)[k - 1]
  {
    CallFollowsCursor(calls[k], strategy, key);
    if k > 0 { assert calls[k - 1 + 1] == calls[k]; }
  }

  lemma CursorsFollowRotation(calls: seq<Call>, strategy: Strategy, key: string, k: nat)
    requires RotationRun(calls, strategy, key) && k < |calls|
    ensures NextCursors(calls, strategy, key)[k] == RR.PickAt(Lists(calls, strategy, key), Cursors(calls, key)[0], k)
  {
    var lists, before, after := Lists(calls, strategy, key), Cursors(calls, key), NextCursors(calls, strategy, key);
    forall j | 0 <= j < |calls|
      ensures lists[j] != [] && after[j] == lists[j][RR.SuccessorIndex(lists[j], before[j])]
      ensures j > 0 ==> before[j] == after[j - 1]
    {
      RunIsLinked(calls, strategy, key, j);
    }
    LinkedCursorsRotate(lists, before, after, k);
  }

  lemma RunFollowsRotation(calls: seq<Call>, strategy: Strategy, key: string, k: nat)
    requires RotationRun(calls, strategy, key) && k < |calls|
    ensures var at := RR.PickAt(Lists(calls, strategy, key), CursorOf(calls[0].memory, key), k);
      && Outcome(calls[k], strategy).0.Some? && Outcome(calls[k], strategy).0.value.id == at
      && CursorOf(Outcome(calls[k], strategy).1, key) == at
  {
    CursorsFollowRotation(calls, strategy, key, k);
    CallFollowsCursor(calls[k], strategy, key);
  }

  ghost predicate Serves(c: Call, strategy: Strategy, id: string) {
    Outcome(c, strategy).0.Some? && Outcome(c, strategy).0.value.id == id
  }

  lemma RunIsSorted(calls: seq<Call>, strategy: Strategy, key: string, k: nat)
    requires RotationRun(calls, strategy, key) && k < |calls|
    ensures RR.Sorted(FinalistIds(calls[k], strategy))
  {
    CallFollowsCursor(calls[k], strategy, key);
  }

  /** The account is among the finalists, who are all known. */
  ghost predicate StaysFinalist(ids: seq<string>, universe: set<string>, x: string) {
    x in ids && forall id :: id in ids ==> id in universe
  }

  lemma ServedWithin(lists: seq<seq<string>>, universe: set<string>, cursor: string, x: string) returns (k: nat)
    requires |lists| == |universe| && x in universe
    requires forall j :: 0 <= j < |lists| ==> RR.Sorted(lists[j]) && StaysFinalist(lists[j], universe, x)
    ensures k < |lists| && (forall j :: 0 <= j <= k ==> lists[j] != []) && RR.PickAt(lists, cursor, k) == x
  {
    RR.NeverStarves(lists, universe, cursor, x);
    k :| 0 <= k < |universe| && RR.PickAt(lists, cursor, k) == x;
  }

  /** While the cursor is not reset, an account that stays a finalist is served within N picks,
      N being the number of distinct IDs ever seen, whatever other accounts come and go. */
  lemma PoolNeverStarves(calls: seq<Call>, strategy: Strategy, key: string, universe: set<string>, x: string)
    requires RotationRun(calls, strategy, key) && |calls| == |universe| && x in universe
    requires forall k :: 0 <= k < |calls| ==> StaysFinalist(FinalistIds(calls[k], strategy), universe, x)
    ensures exists k :: 0 <= k < |calls| && Serves(calls[k], strategy, x)
  {
    assert |calls| > 0 by { assert {x} <= universe; RR.SubsetIsSmaller({x}, universe); }
    var lists := Lists(calls, strategy, key);
    forall j | 0 <= j < |lists| ensures RR.Sorted(lists[j]) && StaysFinalist(lists[j], universe, x) {
      RunIsSorted(calls, strategy, key, j);
    }
    var k := ServedWithin(lists, universe, CursorOf(calls[0].memory, key), x);
    RunFollowsRotation(calls, strategy, key, k);
    assert Serves(calls[k], strategy, x);
  }

  // ---------------------------------------------------------------- a fixed set of finalists

  ghost predicate SameFinalists(calls: seq<Call>, strategy: Strategy, key: string, ids: seq<string>) {
    RotationRun(calls, strategy, key) && forall k :: 0 <= k < |calls| ==> FinalistIds(calls[k], strategy) == ids
  }

  /** Over the same finalists call `k` serves position `k` of the rotation from the first call's cursor. */
  lemma FixedRunRotates(calls: seq<Call>, strategy: Strategy, key: string, ids: seq<string>, k: nat)
    requires SameFinalists(calls, strategy, key, ids) && k < |calls| && ids != []
    ensures Serves(calls[k], strategy, ids[RR.Rotation(ids, CursorOf(calls[0].memory, key), k)])
  {
    var lists, cursor := Lists(calls, strategy, key), CursorOf(calls[0].memory, key);
    assert lists[k] == ids && forall j :: 0 <= j < |lists| ==> lists[j] == ids;
    assert RR.PickAt(lists, cursor, k) == ids[RR.Rotation(ids, cursor, k)] by {
      RR.FixedPicks(ids, lists, cursor, k);
    }
    RunFollowsRotation(calls, strategy, key, k);
  }

  lemma FixedRunIsSorted(calls: seq<Call>, strategy: Strategy, key: string, ids: seq<string>)
    requires SameFinalists(calls, strategy, key, ids) && calls != []
    ensures RR.Sorted(ids) && ids != []
  {
    RunIsSorted(calls, strategy, key, 0);
  }

  ghost predicate ServedBy(calls: seq<Call>, strategy: Strategy, id: string, k: nat) {
    k < |calls| && Serves(calls[k], strategy, id)
  }

  /** Any n consecutive calls over the same n finalists serve each of them exactly once. */
  lemma FixedRunServesEachOnce(calls: seq<Call>, strategy: Strategy, key: string, ids: seq<string>, id: string)
    requires SameFinalists(calls, strategy, key, ids) && |calls| == |ids| && id in ids
    ensures exists k :: ServedBy(calls, strategy, id, k)
    ensures forall j, k :: ServedBy(calls, strategy, id, j) && ServedBy(calls, strategy, id, k) ==> j == k
  {
    FixedRunIsSorted(calls, strategy, key, ids);
    var cursor := CursorOf(calls[0].memory, key);
    RR.VisitsEachOnce(ids, cursor);
    assert RR.Visits(ids, cursor, id);
    var k :| 0 <= k < |ids| && ids[RR.Rotation(ids, cursor, k)] == id;
    FixedRunRotates(calls, strategy, key, ids, k);
    assert ServedBy(calls, strategy, id, k);
    forall j, k | ServedBy(calls, strategy, id, j) && ServedBy(calls, strategy, id, k) ensures j == k {
      FixedRunRotates(calls, strategy, key, ids, j);
      FixedRunRotates(calls, strategy, key, ids, k);
    }
  }

  // ---------------------------------------------------------------- regions

  /** The call schedules, rather than answering a pin or a retry hint, on route `key`. */
  ghost predicate Schedules(c: Call, strategy: Strategy, key: string) {
    var q := Stamped(c.query, strategy, c.now);
    && PinOutcome(c.items, q, c.now) == Unpinned
    && Available(c.items, q, c.now) != []
    && RotationKey(q) == key
    && EnsureKey(c.memory, key) == c.memory
  }

  /** Two consecutive calls of a route serve different regions exactly when, at the second call,
      the first call's region has no candidate or fewer than half of the largest. Both may use
      any strategy; only the second must name no region. */
  lemma RegionChangesOnlyWhenBehind(first: Call, second: Call, strategy: Strategy, key: string)
    requires Schedules(first, strategy, key) && Schedules(second, strategy, key)
    requires Latched(second.memory, key) == Latched(Outcome(first, strategy).1, key)
    requires second.query.regionFilter == ""
    ensures var q := Stamped(second.query, strategy, second.now);
      var available := Available(second.items, q, second.now);
      var (a, b) := (Outcome(first, strategy).0, Outcome(second, strategy).0);
      && a.Some? && b.Some?
      && (Region(b.value) != Region(a.value) <==>
            Latch.Size(available, Region, Region(a.value)) == 0 || Latch.Stale(available, Region, Region(a.value)))
  {
    var q1 := Stamped(first.query, strategy, first.now);
    ServeTouchesOneRoute(Available(first.items, q1, first.now), strategy, first.memory, q1, first.now, "");
    var q2 := Stamped(second.query, strategy, second.now);
    LatchHolds(Available(second.items, q2, second.now), strategy, second.memory, q2, second.now,
               Region(Outcome(first, strategy).0.value));
  }

  /** A query that names a region shares the memory of the query that names none exactly when it
      names the global region: that is where a pinned request can move the latch. */
  lemma OnlyGlobalPinsShareTheRoute(q: Query, region: string)
    requires region != ""
    ensures RotationKey(q.(regionFilter := region)) == RotationKey(q.(regionFilter := "")) <==>
      NormalizeRegion(region) == "global"
  {
    EmptyRegionIsGlobal();
    SameMiddle(ProviderKey(q) + "|", NormalizeRegion(region), "global", "|" + RouteModel(q.publicModel));
    KeyParts(q, region);
    KeyParts(q, "");
  }

  lemma EmptyRegionIsGlobal()
    ensures NormalizeRegion("") == "global"
  {
    assert TrimLeft("") == "" && TrimRight("") == "";
    assert ToLower("") == "";
  }

  lemma KeyParts(q: Query, region: string)
    ensures RotationKey(q.(regionFilter := region)) ==
      ProviderKey(q) + "|" + NormalizeRegion(region) + ("|" + RouteModel(q.publicModel))
  {
    var text := ProviderKey(q) + "|" + NormalizeRegion(region);
    assert text + "|" + RouteModel(q.publicModel) == text + ("|" + RouteModel(q.publicModel));
  }

  lemma SameMiddle(a: string, g: string, h: string, z: string)
    ensures a + g + z == a + h + z <==> g == h
  {
    var left, right := a + g + z, a + h + z;
    if left == right {
      assert |g| == |h|;
      assert g == left[|a|..|a| + |g|];
      assert h == right[|a|..|a| + |h|];
    }
  }

  // ---------------------------------------------------------------- where fairness ends

  /** Removing an account clears every cursor that points at it. */
  function DropCursor(m: Memory, id: string): Memory {
    m.(lastPicked := map key | key in m.lastPicked && m.lastPicked[key] != id :: m.lastPicked[key])
  }

  /** Removing an account forgets it as the last pick of every route, and nothing else. */
  lemma RemovalForgetsExactly(m: Memory, id: string, key: string)
    requires id != ""
    ensures var m' := DropCursor(m, id);
      && CursorOf(m', key) == (if CursorOf(m, key) == id then "" else CursorOf(m, key))
      && m'.lastRegion == m.lastRegion && m'.weightCounter == m.weightCounter
  {}

  /** Removing and re-registering the account just served sends rotation back to the head, so the
      head account is served again however many others wait. */
  lemma RemovalRestartsRotation(c: Call, strategy: Strategy, key: string, m: Memory)
    requires Rotates(c, strategy, key) && CursorOf(m, key) != "" && c.memory == DropCursor(m, CursorOf(m, key))
    ensures Serves(c, strategy, FinalistIds(c, strategy)[0])
  {
    CallFollowsCursor(c, strategy, key);
  }

  /** The same request after the account just served was removed and registered again. */
  ghost function Bounced(c: Call, key: string): Call {
    var m := Outcome(c, RoundRobin).1;
    c.(memory := DropCursor(m, CursorOf(m, key)))
  }

  ghost function Bounce(key: string): Call -> Call {
    c => Bounced(c, key)
  }

  ghost function Repeated<T>(step: T -> T, x: T, k: nat): T {
    if k == 0 then x else step(Repeated(step, x, k - 1))
  }

  ghost function BouncedTimes(c: Call, key: string, k: nat): Call {
    Repeated(Bounce(key), c, k)
  }

  /** A rotating call within a region, on a route whose cursor was dropped and that the rotation limit
      leaves alone. */
  ghost predicate AtTheHead(c: Call, key: string) {
    && Rotates(c, RoundRobin, key) && c.query.regionFilter != ""
    && CursorOf(c.memory, key) == "" && |c.memory.lastPicked| < ROTATION_LIMIT
  }

  lemma DropForgetsKey(m: Memory, key: string, id: string, region: string)
    requires |m.lastPicked| < ROTATION_LIMIT
    ensures
      var m' := DropCursor(m.(lastPicked := m.lastPicked[key := id], lastRegion := m.lastRegion[key := region]), id);
      CursorOf(m', key) == "" && |m'.lastPicked| < ROTATION_LIMIT
  {
    var m' := DropCursor(m.(lastPicked := m.lastPicked[key := id], lastRegion := m.lastRegion[key := region]), id);
    assert m'.lastPicked.Keys <= m.lastPicked.Keys;
    RR.SubsetIsSmaller(m'.lastPicked.Keys, m.lastPicked.Keys);
  }

  lemma HeadIsServed(c: Call, key: string) returns (region: string)
    requires AtTheHead(c, key)
    ensures Serves(c, RoundRobin, FinalistIds(c, RoundRobin)[0])
    ensures CursorOf(Outcome(c, RoundRobin).1, key) == FinalistIds(c, RoundRobin)[0]
    ensures Outcome(c, RoundRobin).1 ==
      c.memory.(lastPicked := c.memory.lastPicked[key := FinalistIds(c, RoundRobin)[0]],
                lastRegion := c.memory.lastRegion[key := region])
  {
    CallFollowsCursor(c, RoundRobin, key);
    var finalists := Finalists(Available(c.items, c.query, c.now), RoundRobin, c.memory, c.query, c.now);
    assert Outcome(c, RoundRobin).1 == Remember(finalists, RoundRobin, c.memory, key, finalists[0]);
    region := Region(finalists[0]);
  }

  lemma BouncedIsAtTheHead(c: Call, key: string)
    requires AtTheHead(c, key)
    ensures AtTheHead(Bounced(c, key), key)
    ensures FinalistIds(Bounced(c, key), RoundRobin) == FinalistIds(c, RoundRobin)
  {
    var region := HeadIsServed(c, key);
    DropForgetsKey(c.memory, key, FinalistIds(c, RoundRobin)[0], region);
  }

  lemma {:induction false} RepeatingKeeps<T(!new)>(step: T -> T, x: T, k: nat, claim: T -> bool)
    requires claim(x) && forall y {:trigger step(y)} :: claim(y) ==> claim(step(y))
    ensures claim(Repeated(step, x, k))
  {
    if k > 0 { RepeatingKeeps(step, x, k - 1, claim); }
  }

  lemma StaysAtTheHead(c: Call, key: string, k: nat)
    requires AtTheHead(c, key)
    ensures AtTheHead(BouncedTimes(c, key, k), key)
    ensures FinalistIds(BouncedTimes(c, key, k), RoundRobin) == FinalistIds(c, RoundRobin)
  {
    var ids := FinalistIds(c, RoundRobin);
    var claim: Call -> bool := (d: Call) => AtTheHead(d, key) && FinalistIds(d, RoundRobin) == ids;
    forall d | claim(d) ensures claim(Bounce(key)(d)) {
      BouncedIsAtTheHead(d, key);
    }
    RepeatingKeeps(Bounce(key), c, k, claim);
  }

  /** When each account served is removed and registered again before the next call, every call serves the
      head, and no other finalist is ever served. */
  lemma RemovalsStarveTheRest(c: Call, key: string, k: nat, x: string)
    requires AtTheHead(c, key) && x != FinalistIds(c, RoundRobin)[0]
    ensures !Serves(BouncedTimes(c, key, k), RoundRobin, x)
  {
    StaysAtTheHead(c, key, k);
    var region := HeadIsServed(BouncedTimes(c, key, k), key);
  }
}
