/** What one `PickRoute` call chooses and leaves behind, as a function of the pool, and what
    that choice promises: exactness, the region latch, and rotation without starvation. */
module Routing {
  import opened Strings
  import opened Items
  import Fefo
  import Batches
  import Latch
  import RR = RoundRobin
  import SW = SmoothWeighted

  datatype Strategy = RoundRobin | Weighted | FillFirst | EarliestExpiry

  /** The per-route memory: rotation cursors, served regions and smooth-weighting counters. */
  datatype Memory = Memory(
    lastPicked: map<string, string>,
    lastRegion: map<string, string>,
    weightCounter: map<string, SW.Counters>)

  const ROTATION_LIMIT: nat := 4096

  // ---------------------------------------------------------------- predicates

  predicate Matches(item: Item, q: Query, now: Time) {
    !Fefo.QuotaExceeded(item, q) && ReadyAndScoped(item, q) && HasModel(item, q.publicModel, now)
  }

  predicate HintMatches(item: Item, q: Query) {
    !Fefo.QuotaExceeded(item, q) && ReadyAndScoped(item, q) && CouldServe(item, q.publicModel)
  }

  predicate Usable(item: Item, q: Query, now: Time) {
    Matches(item, q, now) && !Cooling(item, q, now) && !Saturated(item)
  }

  predicate CoolingHint(item: Item, q: Query, now: Time) {
    HintMatches(item, q) && Cooling(item, q, now)
  }

  /** The pool stamps the clock on the query only under the earliest-expiry strategy. */
  function Stamped(q: Query, strategy: Strategy, now: Time): Query {
    if strategy.EarliestExpiry? then q.(fefoNow := now) else q
  }

  ghost predicate DistinctIds(items: seq<Item>) {
    && (forall i, j :: 0 <= i < j < |items| ==> items[i].id != items[j].id)
    && (forall i :: 0 <= i < |items| ==> items[i].id != "")
  }

  // ---------------------------------------------------------------- candidate lists

  function Find(items: seq<Item>, id: string): (r: Option<Item>)
    ensures r.None? <==> forall i :: 0 <= i < |items| ==> items[i].id != id
    ensures r.Some? ==> r.value in items && r.value.id == id
  {
    if items == [] then None else if items[0].id == id then Some(items[0]) else Find(items[1..], id)
  }

  /** Usable items in pool order. */
  function UsableItems(items: seq<Item>, q: Query, now: Time): (r: seq<Item>)
    ensures forall item :: item in r <==> item in items && Usable(item, q, now)
  {
    if items == [] then []
    else
      var n := |items| - 1;
      assert items == items[..n] + [items[n]];
      var before := UsableItems(items[..n], q, now);
      if Usable(items[n], q, now) then before + [items[n]] else before
  }

  function Insert(item: Item, sorted: seq<Item>): (r: seq<Item>)
    ensures forall x :: x in r <==> x == item || x in sorted
    ensures |r| == |sorted| + 1
  {
    if sorted == [] || Less(item.id, sorted[0].id) then [item] + sorted
    else
      assert sorted == [sorted[0]] + sorted[1..];
      [sorted[0]] + Insert(item, sorted[1..])
  }

  function SortById(items: seq<Item>): (r: seq<Item>)
    ensures forall x :: x in r <==> x in items
    ensures |r| == |items|
  {
    if items == [] then []
    else
      var n := |items| - 1;
      assert items == items[..n] + [items[n]];
      Insert(items[n], SortById(items[..n]))
  }

  function Available(items: seq<Item>, q: Query, now: Time): (r: seq<Item>)
    ensures forall item :: item in r <==> item in items && Usable(item, q, now)
  {
    SortById(UsableItems(items, q, now))
  }

  function Ids(items: seq<Item>): (ids: seq<string>)
    ensures |ids| == |items| && forall i :: 0 <= i < |items| ==> ids[i] == items[i].id
  {
    seq(|items|, i requires 0 <= i < |items| => items[i].id)
  }

  function Weigh(items: seq<Item>): (cands: seq<SW.Candidate>)
    ensures |cands| == |items|
  {
    seq(|items|, i requires 0 <= i < |items| => SW.Candidate(items[i].id, NormalizeWeight(items[i].weight)))
  }

  // ---------------------------------------------------------------- the retry hint

  /** First of the first `k` entries with the earliest `resume` among those that are `cooling`. */
  function EarliestOf<T>(items: seq<T>, cooling: T -> bool, resume: T -> Time, k: nat): (r: Option<T>)
    requires k <= |items|
    ensures r.Some? ==> r.value in items && cooling(r.value)
    ensures forall i :: 0 <= i < k && cooling(items[i]) ==> r.Some? && resume(r.value) <= resume(items[i])
  {
    if k == 0 then None
    else
      var best := EarliestOf(items, cooling, resume, k - 1);
      if cooling(items[k - 1]) && (best.None? || resume(items[k - 1]) < resume(best.value))
      then Some(items[k - 1]) else best
  }

  function CoolingFor(q: Query, now: Time): Item -> bool {
    (item: Item) => CoolingHint(item, q, now)
  }

  function ResumeFor(q: Query): Item -> Time {
    (item: Item) => ResumeAt(item, q)
  }

  function Soonest(items: seq<Item>, q: Query, now: Time): Option<Item> {
    EarliestOf(items, CoolingFor(q, now), ResumeFor(q), |items|)
  }

  // ---------------------------------------------------------------- the route's memory

  function ProviderKey(q: Query): string {
    if q.providerFilter != "" then ToLower(Trim(q.providerFilter)) else "*"
  }

  function RotationKey(q: Query): string {
    ProviderKey(q) + "|" + NormalizeRegion(q.regionFilter) + "|" + RouteModel(q.publicModel)
  }

  /** A new route at the limit clears every route's memory. */
  function EnsureKey(m: Memory, key: string): Memory {
    if key !in m.lastPicked && |m.lastPicked| >= ROTATION_LIMIT then Memory(map[], map[], map[]) else m
  }

  function Latched(m: Memory, key: string): Option<string> {
    if key in m.lastRegion then Some(m.lastRegion[key]) else None
  }

  /** Candidates after the region latch; a query that names a region bypasses it. */
  function InServedRegion(available: seq<Item>, q: Query, latched: Option<string>): (r: seq<Item>)
    requires available != []
    ensures r != [] && forall item :: item in r ==> item in available
  {
    if q.regionFilter != "" then available
    else
      var g := Latch.Served(available, Region, latched);
      ServedIsInhabited(available, latched);
      Latch.InGroup(available, Region, g)
  }

  lemma ServedIsInhabited(available: seq<Item>, latched: Option<string>)
    requires available != []
    ensures Latch.Size(available, Region, Latch.Served(available, Region, latched)) > 0
  {
    var g := Latch.Largest(available, Region);
    var i :| 0 <= i < |available| && Region(available[i]) == g;
    Latch.SizePositive(available, Region, i);
  }

  /** The list the strategy finally chooses from. */
  function Finalists(available: seq<Item>, strategy: Strategy, m: Memory, q: Query, now: Time): (r: seq<Item>)
    requires available != []
    ensures r != [] && forall item :: item in r ==> item in available
  {
    var regional := InServedRegion(available, q, Latched(m, RotationKey(q)));
    if strategy.EarliestExpiry? then
      Batches.NarrowKeepsEveryGroup(regional, Family, Fefo.DayOf(q.publicModel, now), 0);
      Fefo.Candidates(regional, q.publicModel, now)
    else regional
  }

  function FillFirstIndex(items: seq<Item>, k: nat): (b: nat)
    requires 0 < k <= |items|
    ensures b < k
    ensures forall i :: 0 <= i < k ==> NormalizeWeight(items[i].weight) <= NormalizeWeight(items[b].weight)
  {
    if k == 1 then 0
    else
      var b := FillFirstIndex(items, k - 1);
      var w, best := NormalizeWeight(items[k - 1].weight), NormalizeWeight(items[b].weight);
      if w > best || (w == best && Less(items[k - 1].id, items[b].id)) then k - 1 else b
  }

  predicate Uniform(items: seq<Item>) {
    forall i :: 0 <= i < |items| ==> NormalizeWeight(items[i].weight) == NormalizeWeight(items[0].weight)
  }

  function CountersOf(m: Memory, key: string): SW.Counters {
    if key in m.weightCounter then m.weightCounter[key] else map[]
  }

  function CursorOf(m: Memory, key: string): string {
    Lookup(m.lastPicked, key)
  }

  function ChosenIndex(finalists: seq<Item>, strategy: Strategy, m: Memory, key: string): (b: nat)
    requires finalists != []
    ensures b < |finalists|
  {
    if strategy.FillFirst? then FillFirstIndex(finalists, |finalists|)
    else if strategy.Weighted? && !Uniform(finalists) then SW.Winner(CountersOf(m, key), Weigh(finalists))
    else RR.SuccessorIndex(Ids(finalists), CursorOf(m, key))
  }

  /** The memory after `picked` was served on `key`. */
  function Remember(finalists: seq<Item>, strategy: Strategy, m: Memory, key: string, picked: Item): Memory
    requires finalists != []
  {
    Memory(
      m.lastPicked[key := picked.id],
      m.lastRegion[key := Region(picked)],
      if strategy.Weighted? && !Uniform(finalists)
      then m.weightCounter[key := SW.Charge(CountersOf(m, key), Weigh(finalists))]
      else m.weightCounter)
  }

  function Serve(available: seq<Item>, strategy: Strategy, m: Memory, q: Query, now: Time): (Item, Memory)
    requires available != []
  {
    var key := RotationKey(q);
    var ready := EnsureKey(m, key);
    var finalists := Finalists(available, strategy, ready, q, now);
    var picked := finalists[ChosenIndex(finalists, strategy, ready, key)];
    (picked, Remember(finalists, strategy, ready, key, picked))
  }

  datatype Pin = Unpinned | Refused | Pinned(item: Item)

  /** What a preferred account settles before any scheduling: nothing, a refusal because it
      cannot serve the model, or the account itself. */
  function PinOutcome(items: seq<Item>, q: Query, now: Time): Pin {
    if q.prefer == "" then Unpinned
    else
      match Find(items, q.prefer)
      case None => Unpinned
      case Some(item) =>
        if item.id in q.excluded then Unpinned
        else if !CouldServe(item, q.publicModel) then Refused
        else if Usable(item, q, now) then Pinned(item)
        else Unpinned
  }

  /** One `PickRoute` call: the item handed out, if any, and the memory it leaves. */
  function Pick(items: seq<Item>, strategy: Strategy, m: Memory, query: Query, now: Time): (Option<Item>, Memory) {
    var q := Stamped(query, strategy, now);
    match PinOutcome(items, q, now)
    case Refused => (None, m)
    case Pinned(item) => (Some(item), m)
    case Unpinned =>
      var available := Available(items, q, now);
      if available == [] then (Soonest(items, q, now), m)
      else
        var served := Serve(available, strategy, m, q, now);
        (Some(served.0), served.1)
  }

  // ---------------------------------------------------------------- exactness

  lemma HintThatIsUpMatches(item: Item, q: Query, now: Time)
    ensures HintMatches(item, q) && !Cooling(item, q, now) ==> Matches(item, q, now)
    ensures Matches(item, q, now) ==> HintMatches(item, q)
  {}

  /** Every item on the route is up and at capacity. */
  ghost predicate OnlySaturated(items: seq<Item>, q: Query, now: Time) {
    forall item :: item in items && HintMatches(item, q) ==> Saturated(item) && !Cooling(item, q, now)
  }

  ghost predicate SomeUsable(items: seq<Item>, q: Query, now: Time) {
    exists item :: item in items && Usable(item, q, now)
  }

  ghost predicate ResumesFirst(items: seq<Item>, q: Query, now: Time, best: Item) {
    CoolingHint(best, q, now) &&
    forall item :: item in items && CoolingHint(item, q, now) ==> ResumeAt(best, q) <= ResumeAt(item, q)
  }

  lemma SoonestResumesFirst(items: seq<Item>, q: Query, now: Time)
    ensures var best := Soonest(items, q, now);
      && (best.Some? ==> best.value in items && ResumesFirst(items, q, now, best.value))
      && (best.None? ==> forall item :: item in items ==> !CoolingHint(item, q, now))
  {
    var cooling, resume := CoolingFor(q, now), ResumeFor(q);
    var best := EarliestOf(items, cooling, resume, |items|);
    forall item | item in items && cooling(item) ensures best.Some? && resume(best.value) <= resume(item) {
      var i :| 0 <= i < |items| && items[i] == item;
    }
    assert forall item :: cooling(item) == CoolingHint(item, q, now);
    assert forall item :: resume(item) == ResumeAt(item, q);
  }

  lemma NothingUsableMeansSaturatedOrCooling(items: seq<Item>, q: Query, now: Time)
    ensures OnlySaturated(items, q, now) <==>
      !SomeUsable(items, q, now) && forall item :: item in items ==> !CoolingHint(item, q, now)
  {
    forall item | item in items
      ensures (HintMatches(item, q) ==> Saturated(item) && !Cooling(item, q, now)) <==>
        !Usable(item, q, now) && !CoolingHint(item, q, now)
    {
      HintThatIsUpMatches(item, q, now);
    }
  }

  /** What scheduling among the route's accounts hands out, when no pin decided. */
  function Scheduled(items: seq<Item>, strategy: Strategy, m: Memory, q: Query, now: Time): Option<Item> {
    var available := Available(items, q, now);
    if available == [] then Soonest(items, q, now) else Some(Serve(available, strategy, m, q, now).0)
  }

  lemma ScheduledIsExact(items: seq<Item>, strategy: Strategy, m: Memory, q: Query, now: Time)
    ensures var r := Scheduled(items, strategy, m, q, now);
      && (r.Some? ==> r.value in items)
      && (r.Some? && !Usable(r.value, q, now) ==> !SomeUsable(items, q, now) && ResumesFirst(items, q, now, r.value))
      && (r.None? <==> OnlySaturated(items, q, now))
  {
    NothingUsableMeansSaturatedOrCooling(items, q, now);
    SoonestResumesFirst(items, q, now);
    var available := Available(items, q, now);
    if available != [] {
      assert available[0] in available;
      assert Serve(available, strategy, m, q, now).0 in available;
    }
  }

  lemma PickByPin(items: seq<Item>, strategy: Strategy, m: Memory, query: Query, now: Time)
    ensures var q := Stamped(query, strategy, now);
      Pick(items, strategy, m, query, now).0 ==
        match PinOutcome(items, q, now)
        case Refused => None
        case Pinned(item) => Some(item)
        case Unpinned => Scheduled(items, strategy, m, q, now)
  {
  }

  lemma PinnedIsUsable(items: seq<Item>, q: Query, now: Time)
    ensures PinOutcome(items, q, now).Pinned? ==>
      var item := PinOutcome(items, q, now).item;
      item in items && Usable(item, q, now) && SomeUsable(items, q, now) && !OnlySaturated(items, q, now)
  {
    NothingUsableMeansSaturatedOrCooling(items, q, now);
  }

  /** The item handed out is usable, or it is the cooling item that resumes first and no item is
      usable; nothing is handed out exactly when the pinned account cannot serve the model or
      every item on the route is merely saturated. */
  lemma PickIsExact(items: seq<Item>, strategy: Strategy, m: Memory, query: Query, now: Time)
    ensures var q := Stamped(query, strategy, now);
      var refused := PinOutcome(items, q, now) == Refused;
      var r := Pick(items, strategy, m, query, now).0;
      && (r.Some? ==> !refused && r.value in items)
      && (r.Some? && !Usable(r.value, q, now) ==> !SomeUsable(items, q, now) && ResumesFirst(items, q, now, r.value))
      && (r.None? <==> refused || OnlySaturated(items, q, now))
  {
    var q := Stamped(query, strategy, now);
    PickByPin(items, strategy, m, query, now);
    PinnedIsUsable(items, q, now);
    ScheduledIsExact(items, strategy, m, q, now);
  }

  lemma {:induction false} SameUsable(items: seq<Item>, q: Query, q': Query, now: Time)
    requires q' == q.(prefer := q'.prefer)
    ensures UsableItems(items, q', now) == UsableItems(items, q, now)
  {
    if items != [] {
      var n := |items| - 1;
      SameUsable(items[..n], q, q', now);
      assert Usable(items[n], q', now) == Usable(items[n], q, now);
    }
  }

  lemma {:induction false} SameEarliest<T>(items: seq<T>, p: T -> bool, p': T -> bool, r: T -> Time,
                                           r': T -> Time, k: nat)
    requires k <= |items|
    requires forall i :: 0 <= i < |items| ==> p(items[i]) == p'(items[i]) && r(items[i]) == r'(items[i])
    ensures EarliestOf(items, p, r, k) == EarliestOf(items, p', r', k)
  {
    if k > 0 {
      SameEarliest(items, p, p', r, r', k - 1);
      assert p(items[k - 1]) == p'(items[k - 1]) && r(items[k - 1]) == r'(items[k - 1]);
    }
  }

  lemma SameSoonest(items: seq<Item>, q: Query, q': Query, now: Time)
    requires q' == q.(prefer := q'.prefer)
    ensures Soonest(items, q', now) == Soonest(items, q, now)
  {
    var p, p', r, r' := CoolingFor(q, now), CoolingFor(q', now), ResumeFor(q), ResumeFor(q');
    forall i | 0 <= i < |items| ensures p(items[i]) == p'(items[i]) && r(items[i]) == r'(items[i]) {
      assert CoolingHint(items[i], q, now) == CoolingHint(items[i], q', now);
      assert ResumeAt(items[i], q) == ResumeAt(items[i], q');
    }
    SameEarliest(items, p, p', r, r', |items|);
  }

  /** Without a preference that settles it, the preference makes no difference. */
  lemma UnsettledIsUnpreferred(items: seq<Item>, strategy: Strategy, m: Memory, query: Query, now: Time)
    requires PinOutcome(items, Stamped(query, strategy, now), now).Unpinned?
    ensures Pick(items, strategy, m, query, now) == Pick(items, strategy, m, query.(prefer := ""), now)
  {
    var q, q' := Stamped(query, strategy, now), Stamped(query.(prefer := ""), strategy, now);
    SameUsable(items, q, q', now);
    SameSoonest(items, q, q', now);
    var available := Available(items, q, now);
    if available != [] {
      assert Serve(available, strategy, m, q', now) == Serve(available, strategy, m, q, now);
    }
  }

  /** A preferred account that is in the pool, not excluded and usable is the one handed out, and nothing is
      remembered of it. One that cannot serve the model gets the query refused. In every other case the
      query is scheduled as if it preferred nobody. */
  lemma PreferenceIsServed(items: seq<Item>, strategy: Strategy, m: Memory, query: Query, now: Time)
    ensures var q := query.(fefoNow := if strategy == EarliestExpiry then now else query.fefoNow);
      var preferred := if query.prefer in query.excluded || query.prefer == "" then None else Find(items, query.prefer);
      var result := Pick(items, strategy, m, query, now);
      if preferred.Some? && Usable(preferred.value, q, now) then result == (preferred, m)
      else if preferred.Some? && !CouldServe(preferred.value, query.publicModel) then result == (None, m)
      else result == Pick(items, strategy, m, query.(prefer := ""), now)
  {
    var q := Stamped(query, strategy, now);
    var found := Find(items, query.prefer);
    if found.Some? { HintThatIsUpMatches(found.value, q, now); }
    if PinOutcome(items, q, now).Unpinned? { UnsettledIsUnpreferred(items, strategy, m, query, now); }
  }

  /** With a usable account on the route, and no preference that refuses the query, a usable one is handed
      out. */
  lemma UsableMeansServed(items: seq<Item>, strategy: Strategy, m: Memory, query: Query, now: Time, x: Item)
    requires x in items && Usable(x, Stamped(query, strategy, now), now)
    requires PinOutcome(items, Stamped(query, strategy, now), now) != Refused
    ensures var r := Pick(items, strategy, m, query, now).0;
      r.Some? && Usable(r.value, Stamped(query, strategy, now), now)
  {
    var q := Stamped(query, strategy, now);
    PickIsExact(items, strategy, m, query, now);
    NothingUsableMeansSaturatedOrCooling(items, q, now);
    assert SomeUsable(items, q, now);
  }

  /** Only a cooling item has a retry delay, so the executor's check on `RetryAfter` dispatches
      exactly the items that were handed out as usable. */
  lemma RetryDelayMeansCooling(item: Item, q: Query, now: Time)
    requires now > 0
    ensures ResumeAt(item, q) > now <==> Cooling(item, q, now)
  {}

  // ---------------------------------------------------------------- memory

  lemma RememberTouchesOneRoute(finalists: seq<Item>, strategy: Strategy, m: Memory, key: string, picked: Item,
                                other: string)
    requires finalists != []
    ensures var m' := Remember(finalists, strategy, m, key, picked);
      && CursorOf(m', key) == picked.id && Latched(m', key) == Some(Region(picked))
      && (other != key ==>
            CursorOf(m', other) == CursorOf(m, other) && Latched(m', other) == Latched(m, other) &&
            CountersOf(m', other) == CountersOf(m, other))
  {}

  /** A served query remembers the region and account it served, and, unless the rotation limit
      cleared everything, touches no other route. */
  lemma ServeTouchesOneRoute(available: seq<Item>, strategy: Strategy, m: Memory, q: Query, now: Time, other: string)
    requires available != []
    ensures var (picked, m') := Serve(available, strategy, m, q, now);
      var key := RotationKey(q);
      && CursorOf(m', key) == picked.id && Latched(m', key) == Some(Region(picked))
      && (EnsureKey(m, key) == m && other != key ==>
            CursorOf(m', other) == CursorOf(m, other) && Latched(m', other) == Latched(m, other) &&
            CountersOf(m', other) == CountersOf(m, other))
  {
    var key := RotationKey(q);
    var ready := EnsureKey(m, key);
    var finalists := Finalists(available, strategy, ready, q, now);
    RememberTouchesOneRoute(finalists, strategy, ready, key, finalists[ChosenIndex(finalists, strategy, ready, key)],
      other);
  }

  lemma FinalistsStayInRegion(available: seq<Item>, strategy: Strategy, m: Memory, q: Query, now: Time)
    requires available != []
    ensures forall item :: item in Finalists(available, strategy, m, q, now) ==>
      item in InServedRegion(available, q, Latched(m, RotationKey(q)))
  {
    var regional := InServedRegion(available, q, Latched(m, RotationKey(q)));
    if strategy.EarliestExpiry? {
      assert forall item :: item in Fefo.Candidates(regional, q.publicModel, now) ==> item in regional;
    }
  }

  lemma ServedFromFinalists(available: seq<Item>, strategy: Strategy, m: Memory, q: Query, now: Time)
    requires available != []
    ensures Serve(available, strategy, m, q, now).0 in
            Finalists(available, strategy, EnsureKey(m, RotationKey(q)), q, now)
  {
  }

  /** A query that names no region leaves the latched region exactly when that region has no
      candidate left or fewer than half as many as the largest. */
  lemma LatchHolds(available: seq<Item>, strategy: Strategy, m: Memory, q: Query, now: Time, latched: string)
    requires available != [] && q.regionFilter == ""
    requires Latched(EnsureKey(m, RotationKey(q)), RotationKey(q)) == Some(latched)
    ensures Region(Serve(available, strategy, m, q, now).0) != latched <==>
      Latch.Size(available, Region, latched) == 0 || Latch.Stale(available, Region, latched)
  {
    Latch.ServedLeavesLatchOnlyWhenBehind(available, Region, latched);
    ServedFromFinalists(available, strategy, m, q, now);
    FinalistsStayInRegion(available, strategy, EnsureKey(m, RotationKey(q)), q, now);
    var g := Latch.Served(available, Region, Some(latched));
    assert forall item :: item in InServedRegion(available, q, Some(latched)) ==> Region(item) == g;
  }

  /** A route keeps its memory as long as it is known or there is room for a new one. */
  lemma KnownRoutesAreKept(m: Memory, key: string)
    ensures key in m.lastPicked || |m.lastPicked| < 4096 ==> EnsureKey(m, key) == m
    ensures !(key in m.lastPicked || |m.lastPicked| < 4096) ==> EnsureKey(m, key) == Memory(map[], map[], map[])
  {}

  lemma OneMoreRoute(m: map<string, string>, key: string, id: string)
    ensures |m[key := id]| == if key in m then |m| else |m| + 1
  {
    assert m[key := id].Keys == m.Keys + {key};
    assert |m.Keys + {key}| == if key in m then |m.Keys| else |m.Keys| + 1;
  }

  lemma ServingStaysBounded(available: seq<Item>, strategy: Strategy, m: Memory, q: Query, now: Time)
    requires available != [] && |m.lastPicked| <= 4096
    ensures |Serve(available, strategy, m, q, now).1.lastPicked| <= 4096
  {
    hide RotationKey, Finalists, ChosenIndex, CountersOf, Uniform;
    var key := RotationKey(q);
    OneMoreRoute(EnsureKey(m, key).lastPicked, key, Serve(available, strategy, m, q, now).0.id);
  }

  /** The route memory never outgrows its limit. */
  lemma MemoryStaysBounded(items: seq<Item>, strategy: Strategy, m: Memory, query: Query, now: Time)
    requires |m.lastPicked| <= 4096
    ensures |Pick(items, strategy, m, query, now).1.lastPicked| <= 4096
  {
    hide Available, PinOutcome, Soonest, Serve;
    var q := Stamped(query, strategy, now);
    var available := Available(items, q, now);
    if available != [] { ServingStaysBounded(available, strategy, m, q, now); }
  }

  lemma SameSuffix(a: string, b: string, tail: string)
    requires a + tail == b + tail
    ensures a == b
  {
    assert |a| == |b|;
    assert a == (a + tail)[..|a|] && b == (b + tail)[..|b|];
  }

  lemma SamePrefix(head: string, a: string, b: string)
    requires head + a == head + b
    ensures a == b
  {
    assert a == (head + a)[|head|..] && b == (head + b)[|head|..];
  }

  lemma SameKey(provider: string, provider': string, region: string, model: string, model': string)
    requires provider == provider' || model == model'
    ensures provider + "|" + region + "|" + model == provider' + "|" + region + "|" + model' <==>
      provider == provider' && model == model'
  {
    var middle := "|" + region + "|";
    assert provider + "|" + region + "|" + model == provider + (middle + model);
    assert provider' + "|" + region + "|" + model' == provider' + (middle + model');
    if provider + (middle + model) == provider' + (middle + model') {
      if provider == provider' {
        SamePrefix(provider, middle + model, middle + model');
        SamePrefix(middle, model, model');
      } else {
        SameSuffix(provider, provider', middle + model);
      }
    }
  }

  /** Queries of one provider filter and region share a route exactly when they ask for the same model, and
      queries of one model and region exactly when they name the same provider or none. */
  lemma RoutesAreByModelAndProvider(q: Query, q': Query)
    requires NormalizeRegion(q.regionFilter) == NormalizeRegion(q'.regionFilter)
    ensures ProviderKey(q) == ProviderKey(q') ==>
      (RotationKey(q) == RotationKey(q') <==> RouteModel(q.publicModel) == RouteModel(q'.publicModel))
    ensures RouteModel(q.publicModel) == RouteModel(q'.publicModel) ==>
      (RotationKey(q) == RotationKey(q') <==> ProviderKey(q) == ProviderKey(q'))
  {
    hide RouteModel, NormalizeRegion, ProviderKey;
    if ProviderKey(q) == ProviderKey(q') || RouteModel(q.publicModel) == RouteModel(q'.publicModel) {
      SameKey(ProviderKey(q), ProviderKey(q'), NormalizeRegion(q.regionFilter), RouteModel(q.publicModel),
              RouteModel(q'.publicModel));
    }
  }

  ghost predicate Balanced(m: Memory) {
    forall key :: key in m.weightCounter ==> SW.Total(m.weightCounter[key]) == 0
  }

  lemma RememberConservesCounters(finalists: seq<Item>, strategy: Strategy, m: Memory, key: string, picked: Item)
    requires finalists != [] && Balanced(m)
    ensures Balanced(Remember(finalists, strategy, m, key, picked))
  {
    SW.ChargeConservesTotal(CountersOf(m, key), Weigh(finalists));
  }

  lemma ServeConservesCounters(available: seq<Item>, strategy: Strategy, m: Memory, q: Query, now: Time)
    requires available != [] && Balanced(m)
    ensures Balanced(Serve(available, strategy, m, q, now).1)
  {
    var key := RotationKey(q);
    var ready := EnsureKey(m, key);
    assert Balanced(ready);
    var finalists := Finalists(available, strategy, ready, q, now);
    var picked := finalists[ChosenIndex(finalists, strategy, ready, key)];
    RememberConservesCounters(finalists, strategy, ready, key, picked);
    assert Serve(available, strategy, m, q, now).1 == Remember(finalists, strategy, ready, key, picked);
  }

  /** No counter weight is created or lost on any route, whatever the query. */
  lemma PickConservesCounters(items: seq<Item>, strategy: Strategy, m: Memory, query: Query, now: Time)
    requires Balanced(m)
    ensures Balanced(Pick(items, strategy, m, query, now).1)
  {
    var q := Stamped(query, strategy, now);
    var available := Available(items, q, now);
    if available != [] { ServeConservesCounters(available, strategy, m, q, now); }
  }
}
