/** When a request comes back to an account it has just failed on. A worker's refusal excludes the
    name the worker answered with; under fill-first this moves the request on exactly when that is
    the account's own. A pinned request's first attempt asks for the pinned account, so a worker that
    echoes what it is asked sends the request back to the same account. */
module Retries {
  import opened Strings
  import opened Items
  import opened Routing
  import Cooldown
  import Fairness
  import PoolModel
  import RequestSlots
  import RR = RoundRobin
  import opened RouteLoop

  /** The fill-first order: heavier accounts first, then by ID. */
  predicate Beats(x: Item, y: Item) {
    NormalizeWeight(x.weight) > NormalizeWeight(y.weight) ||
    (NormalizeWeight(x.weight) == NormalizeWeight(y.weight) && Less(x.id, y.id))
  }

  lemma BeatsIsStrictOrder(x: Item, y: Item, z: Item)
    ensures !(Beats(x, y) && Beats(y, x))
    ensures Beats(x, y) && Beats(y, z) ==> Beats(x, z)
    ensures x.id != y.id ==> Beats(x, y) || Beats(y, x)
  {
    LessIsStrictTotalOrder();
  }

  ghost predicate BeatsRest(items: seq<Item>, x: Item) {
    forall y :: y in items && y != x ==> Beats(x, y)
  }

  lemma {:induction false} FillFirstBeatsAll(items: seq<Item>, k: nat)
    requires 0 < k <= |items| && forall i, j :: 0 <= i < j < |items| ==> items[i].id != items[j].id
    ensures forall i :: 0 <= i < k && i != FillFirstIndex(items, k) ==> Beats(items[FillFirstIndex(items, k)], items[i])
  {
    if k > 1 {
      FillFirstBeatsAll(items, k - 1);
      var b := FillFirstIndex(items, k - 1);
      BeatsIsStrictOrder(items[b], items[k - 1], items[b]);
      forall i | 0 <= i < k - 1 {
        BeatsIsStrictOrder(items[k - 1], items[b], items[i]);
      }
    }
  }

  /** The available accounts of the region the route serves; all of them when the query names one. */
  function InPlay(items: seq<Item>, m: Memory, q: Query, now: Time): seq<Item> {
    var available := Available(items, q, now);
    if available == [] then [] else InServedRegion(available, q, Latched(EnsureKey(m, RotationKey(q)), RotationKey(q)))
  }

  lemma InPlayAreDistinct(items: seq<Item>, m: Memory, q: Query, now: Time)
    requires DistinctIds(items)
    ensures var r := InPlay(items, m, q, now); forall i, j :: 0 <= i < j < |r| ==> r[i].id != r[j].id
  {
    if Available(items, q, now) != [] {
      var r := InPlay(items, m, q, now);
      Fairness.FinalistsAreSorted(items, FillFirst, EnsureKey(m, RotationKey(q)), q, now);
      forall i, j | 0 <= i < j < |r| ensures r[i].id != r[j].id {
        assert Less(Ids(r)[i], Ids(r)[j]);
        LessIrreflexive(r[i].id);
      }
    }
  }

  /** Fill-first picks the account in play that beats all others. */
  lemma FillFirstServesTheBest(items: seq<Item>, m: Memory, q: Query, now: Time)
    requires DistinctIds(items) && PinOutcome(items, q, now).Unpinned? && Available(items, q, now) != []
    ensures var r := Pick(items, FillFirst, m, q, now).0;
      r.Some? && r.value in InPlay(items, m, q, now) && BeatsRest(InPlay(items, m, q, now), r.value)
  {
    var inPlay := InPlay(items, m, q, now);
    InPlayAreDistinct(items, m, q, now);
    FillFirstBeatsAll(inPlay, |inPlay|);
    assert Pick(items, FillFirst, m, q, now).0 == Some(inPlay[FillFirstIndex(inPlay, |inPlay|)]);
  }

  lemma {:induction false} EarliestIsEarly<T>(items: seq<T>, p: T -> bool, r: T -> Time, k: nat)
    requires k <= |items|
    ensures var e := EarliestOf(items, p, r, k); e.Some? ==>
      exists i :: 0 <= i < k && items[i] == e.value && p(items[i])
  {
    if k > 0 { EarliestIsEarly(items, p, r, k - 1); }
  }

  /** Dropping others leaves the earliest where it is. */
  lemma {:induction false} EarliestStays<T>(items: seq<T>, items': seq<T>, p: T -> bool, p': T -> bool, r: T -> Time,
                                            r': T -> Time, k: nat, x: T)
    requires k <= |items| == |items'| && EarliestOf(items, p, r, k) == Some(x) && p'(x)
    requires forall i :: 0 <= i < k ==> r(items[i]) == r'(items[i])
    requires forall i :: 0 <= i < k && p'(items'[i]) ==> items'[i] == items[i] && p(items[i])
    requires forall i :: 0 <= i < k && p'(items[i]) ==> items'[i] == items[i]
    ensures EarliestOf(items', p', r', k) == Some(x)
  {
    var before := EarliestOf(items, p, r, k - 1);
    EarliestIsEarly(items', p', r', k - 1);
    if before == Some(x) {
      EarliestStays(items, items', p, p', r, r', k - 1, x);
    }
  }

  /** The query of the next attempt: the preference is spent, the region is fixed to `home`, and one more
      name is excluded. */
  function NextQuery(q: Query, home: string, name: string): Query {
    q.(prefer := "", regionFilter := home, excluded := q.excluded + {name})
  }

  /** `home` is the region the query named, or one it is fixed to afterwards. */
  predicate Homes(q: Query, home: string) {
    home != "" && (q.regionFilter != "" ==> home == q.regionFilter)
  }

  /** An account the query could serve is in the region its pick fixes. */
  lemma PickFixesOwnRegion(x: Item, q: Query)
    requires ReadyAndScoped(x, q)
    ensures var home := PinRegion(q.regionFilter, x.region); Homes(q, home) && Region(x) == NormalizeRegion(home)
  {
    RegionIsIdempotent(x.region);
  }

  /** The same accounts in the same state, save possibly the one of that name. */
  ghost predicate SameButFor(items: seq<Item>, items': seq<Item>, name: string) {
    |items'| == |items| && forall i :: 0 <= i < |items| ==>
      items'[i].id == items[i].id && (items[i].id != name ==> items'[i] == items[i])
  }

  /** The next query drops the account of that name and those of other regions, and changes nothing for
      the rest. */
  lemma NextScope(item: Item, q: Query, home: string, name: string, now: Time)
    requires Homes(q, home)
    ensures var stays := item.id != name && Region(item) == NormalizeRegion(home);
      && (Usable(item, NextQuery(q, home, name), now) <==> Usable(item, q, now) && stays)
      && (CoolingHint(item, NextQuery(q, home, name), now) <==> CoolingHint(item, q, now) && stays)
    ensures ResumeAt(item, NextQuery(q, home, name)) == ResumeAt(item, q)
  {
  }

  lemma FewerAvailable(items: seq<Item>, items': seq<Item>, q: Query, home: string, now: Time, name: string, item: Item)
    requires SameButFor(items, items', name) && Homes(q, home)
    ensures item in Available(items', NextQuery(q, home, name), now) <==>
      item in Available(items, q, now) && item.id != name && Region(item) == NormalizeRegion(home)
  {
    NextScope(item, q, home, name, now);
    if item.id != name {
      if item in items {
        var i :| 0 <= i < |items| && items[i] == item;
        assert items'[i] == item;
      }
      if item in items' {
        var i :| 0 <= i < |items'| && items'[i] == item;
        assert items[i] == item;
      }
    }
  }

  /** Those of the served account's region are in play. */
  lemma SameRegionIsInPlay(items: seq<Item>, m: Memory, q: Query, now: Time, x: Item, y: Item)
    requires x in InPlay(items, m, q, now) && y in Available(items, q, now) && Region(x) == Region(y)
    ensures y in InPlay(items, m, q, now)
  {
    var available := Available(items, q, now);
    var i :| 0 <= i < |available| && available[i] == y;
  }

  lemma SameBest(a: seq<Item>, b: seq<Item>, x: Item, y: Item)
    requires BeatsRest(a, x) && BeatsRest(b, y) && x in b && y in a
    ensures x == y
  {
    BeatsIsStrictOrder(x, y, x);
  }

  lemma StaysInPlay(items: seq<Item>, items': seq<Item>, m': Memory, q: Query, home: string, now: Time, name: string,
                    x: Item)
    requires SameButFor(items, items', name) && Homes(q, home) && Region(x) == NormalizeRegion(home)
    requires x in Available(items, q, now) && x.id != name
    ensures x in InPlay(items', m', NextQuery(q, home, name), now)
  {
    FewerAvailable(items, items', q, home, now, name, x);
  }

  lemma WasInPlay(items: seq<Item>, items': seq<Item>, m: Memory, m': Memory, q: Query, home: string, now: Time,
                  name: string, x: Item, y: Item)
    requires SameButFor(items, items', name) && Homes(q, home) && Region(x) == NormalizeRegion(home)
    requires x in InPlay(items, m, q, now) && y in InPlay(items', m', NextQuery(q, home, name), now)
    ensures y in InPlay(items, m, q, now)
  {
    assert y in Available(items', NextQuery(q, home, name), now);
    FewerAvailable(items, items', q, home, now, name, y);
    SameRegionIsInPlay(items, m, q, now, x, y);
  }

  lemma SameDistinctIds(items: seq<Item>, items': seq<Item>, name: string)
    requires DistinctIds(items) && SameButFor(items, items', name)
    ensures DistinctIds(items')
  {
  }

  lemma BestStaysBest(items: seq<Item>, items': seq<Item>, m: Memory, m': Memory, q: Query, home: string, now: Time,
                      name: string, x: Item)
    requires DistinctIds(items) && PinOutcome(items, q, now).Unpinned? && Available(items, q, now) != []
    requires SameButFor(items, items', name) && Homes(q, home) && Region(x) == NormalizeRegion(home)
    requires Pick(items, FillFirst, m, q, now).0 == Some(x) && x.id != name
    ensures Pick(items', FillFirst, m', NextQuery(q, home, name), now).0 == Some(x)
  {
    var q' := NextQuery(q, home, name);
    FillFirstServesTheBest(items, m, q, now);
    StaysInPlay(items, items', m', q, home, now, name, x);
    SameDistinctIds(items, items', name);
    FillFirstServesTheBest(items', m', q', now);
    var y := Pick(items', FillFirst, m', q', now).0.value;
    WasInPlay(items, items', m, m', q, home, now, name, x, y);
    SameBest(InPlay(items, m, q, now), InPlay(items', m', q', now), x, y);
  }

  lemma NothingBecomesAvailable(items: seq<Item>, items': seq<Item>, q: Query, home: string, now: Time, name: string)
    requires SameButFor(items, items', name) && Homes(q, home) && Available(items, q, now) == []
    ensures Available(items', NextQuery(q, home, name), now) == []
  {
    var available := Available(items', NextQuery(q, home, name), now);
    if available != [] {
      FewerAvailable(items, items', q, home, now, name, available[0]);
    }
  }

  lemma HintStaysHint(items: seq<Item>, items': seq<Item>, q: Query, home: string, now: Time, name: string, x: Item)
    requires SameButFor(items, items', name) && Homes(q, home) && Region(x) == NormalizeRegion(home)
    requires Soonest(items, q, now) == Some(x) && x.id != name
    ensures Soonest(items', NextQuery(q, home, name), now) == Some(x)
  {
    var q' := NextQuery(q, home, name);
    var p, p', r, r' := CoolingFor(q, now), CoolingFor(q', now), ResumeFor(q), ResumeFor(q');
    forall item: Item
      ensures (p'(item) <==> p(item) && item.id != name && Region(item) == NormalizeRegion(home)) && r(item) == r'(item)
    {
      NextScope(item, q, home, name, now);
    }
    EarliestStays(items, items', p, p', r, r', |items|, x);
  }

  /** Under fill-first an account picked without a pin is picked again exactly when the name excluded in
      between is not its own, whatever became of the route's memory and of the account of that name. The
      second query names the region the first pick fixed. */
  lemma ComesBackExactlyUnderAnotherName(items: seq<Item>, items': seq<Item>, m: Memory, m': Memory, q: Query,
                                         now: Time, name: string)
    requires DistinctIds(items) && PinOutcome(items, q, now).Unpinned?
    requires SameButFor(items, items', name) && Pick(items, FillFirst, m, q, now).0.Some?
    ensures var x := Pick(items, FillFirst, m, q, now).0;
      var home := PinRegion(q.regionFilter, x.value.region);
      Pick(items', FillFirst, m', NextQuery(q, home, name), now).0 == x <==> x.value.id != name
  {
    var x := Pick(items, FillFirst, m, q, now).0.value;
    var home := PinRegion(q.regionFilter, x.region);
    PickIsScoped(items, FillFirst, m, q, now);
    PickFixesOwnRegion(x, q);
    if x.id == name {
      PickIsScoped(items', FillFirst, m', NextQuery(q, home, name), now);
    } else if Available(items, q, now) == [] {
      HintStaysHint(items, items', q, home, now, name, x);
      NothingBecomesAvailable(items, items', q, home, now, name);
    } else {
      BestStaysBest(items, items', m, m', q, home, now, name, x);
    }
  }

  // ---------------------------------------------------------------- rotation

  lemma AloneOrSucceeded(available: seq<Item>, x: Item)
    requires RR.Sorted(Ids(available)) && x in available
    ensures available[RR.SuccessorIndex(Ids(available), x.id)] == x <==> |available| == 1
  {
    var i :| 0 <= i < |available| && available[i] == x;
    RR.SuccessorOfMember(Ids(available), i);
    if |available| > 1 {
      var j := RR.SuccessorIndex(Ids(available), x.id);
      LessIrreflexive(x.id);
      assert Ids(available)[j] != x.id by { assert i != j; LessIsStrictTotalOrder(); }
    }
  }

  /** Under rotation, with the cursor of the next query's route on the account just served, that account
      is served again exactly when the name excluded is not its own and no other account is left. */
  lemma RotatesBackExactlyWhenAlone(items: seq<Item>, m: Memory, q: Query, now: Time, name: string, x: Item)
    requires DistinctIds(items) && x in items && Usable(x, q, now)
    requires var q' := NextQuery(q, PinRegion(q.regionFilter, x.region), name);
      var key := RotationKey(q');
      EnsureKey(m, key) == m && CursorOf(m, key) == x.id && Available(items, q', now) != []
    ensures var q' := NextQuery(q, PinRegion(q.regionFilter, x.region), name);
      Pick(items, RoundRobin, m, q', now).0 == Some(x) <==> x.id != name && |Available(items, q', now)| == 1
  {
    var home := PinRegion(q.regionFilter, x.region);
    var q' := NextQuery(q, home, name);
    var available := Available(items, q', now);
    PickFixesOwnRegion(x, q);
    NextScope(x, q, home, name, now);
    Fairness.FinalistsAreSorted(items, RoundRobin, m, q', now);
    assert Finalists(available, RoundRobin, m, q', now) == available;
    var picked := available[RR.SuccessorIndex(Ids(available), x.id)];
    assert Pick(items, RoundRobin, m, q', now).0 == Some(picked);
    if x in available { AloneOrSucceeded(available, x); }
  }

  // ---------------------------------------------------------------- pinned elsewhere

  /** A request pinned to one account, served by another under fill-first, whose worker refuses under
      the name it was asked for: the pinned account takes the blame and the exclusion, and the next
      attempt goes to the same account again. */
  lemma PinnedElsewhereIsTriedTwice(items: seq<Item>, items': seq<Item>, m: Memory, m': Memory, q: Query, now: Time,
                                    w: Worker)
    requires DistinctIds(items) && PinOutcome(items, q, now).Unpinned? && q.prefer != ""
    requires var x := Pick(items, FillFirst, m, q, now).0; x.Some? && x.value.id != q.prefer
    requires var x := Pick(items, FillFirst, m, q, now).0.value;
      w.Refused? && Echoes(HeaderAccount(q.prefer, x.id, 0), w)
    requires SameButFor(items, items', q.prefer)
    ensures var x := Pick(items, FillFirst, m, q, now).0;
      var home := PinRegion(q.regionFilter, x.value.region);
      && !Honest(x.value.id, w) && Renamed(x.value.id, w) == q.prefer
      && Pick(items', FillFirst, m', NextQuery(q, home, Renamed(x.value.id, w)), now).0 == x
  {
    var x := Pick(items, FillFirst, m, q, now).0.value;
    EchoIsHonestUnlessPinnedElsewhere(q.prefer, x.id, 0, w);
    ComesBackExactlyUnderAnotherName(items, items', m, m', q, now, q.prefer);
  }

  /** Under rotation it goes to the same account again exactly when no other is left. */
  lemma PinnedElsewhereUnderRotation(items: seq<Item>, m: Memory, q: Query, now: Time, w: Worker, x: Item)
    requires DistinctIds(items) && x in items && Usable(x, q, now) && q.prefer != "" && x.id != q.prefer
    requires w.Refused? && Echoes(HeaderAccount(q.prefer, x.id, 0), w)
    requires var q' := NextQuery(q, PinRegion(q.regionFilter, x.region), q.prefer);
      var key := RotationKey(q');
      EnsureKey(m, key) == m && CursorOf(m, key) == x.id && Available(items, q', now) != []
    ensures var q' := NextQuery(q, PinRegion(q.regionFilter, x.region), Renamed(x.id, w));
      !Honest(x.id, w) && (Pick(items, RoundRobin, m, q', now).0 == Some(x) <==> |Available(items, q', now)| == 1)
  {
    EchoIsHonestUnlessPinnedElsewhere(q.prefer, x.id, 0, w);
    RotatesBackExactlyWhenAlone(items, m, q, now, q.prefer, x);
  }

  lemma BlameTouchesOne(items: seq<Item>, id: string, f: Cooldown.Failure, now: Time, version: nat)
    ensures SameButFor(items, Blamed(items, id, f, now, version), id)
  {
    var i := PoolModel.IndexIn(items, id);
    if i < |items| { RequestSlots.ClassifiedKeepsSlots(items[i], f, now, version); }
  }

  /** An account of the global region with nothing but its slots. */
  function Plain(id: string, inFlight: nat, cap: int): Item {
    Item(id, "", "global", 50, None, inFlight, cap, None, None, [], [], map[], map[], [], false, 0, "", "", 0, map[],
         map[], map[], 0)
  }

  function PinnedQuery(prefer: string): Query {
    Query("", prefer, "", "global", (provider: string, region: string) => true, {}, (item: Item) => true, 0)
  }

  lemma PlainIsScoped(id: string, inFlight: nat, cap: int, prefer: string)
    ensures var item, q := Plain(id, inFlight, cap), PinnedQuery(prefer);
      && CouldServe(item, q.publicModel)
      && (Usable(item, q, 1) <==> !Saturated(item))
  {
    assert Trim("") == "" && RouteModel("") == "";
  }

  /** Such an input: account "a" is pinned and full, "b" is free and refuses as "a", which is blamed. */
  lemma FullPinSendsTheRequestBack(v: Verdict, m: Memory, m': Memory, version: nat)
    ensures var items, q, w := [Plain("a", 1, 1), Plain("b", 0, 1)], PinnedQuery("a"), Worker.Refused("a", v);
      && Pick(items, FillFirst, m, q, 1).0 == Some(Plain("b", 0, 1))
      && Echoes(HeaderAccount("a", "b", 0), w) && !Honest("b", w)
      && Pick(Blamed(items, "a", v.failure, 1, version), FillFirst, m', NextQuery(q, "global", Renamed("b", w)), 1).0 ==
         Some(Plain("b", 0, 1))
  {
    var a, b := Plain("a", 1, 1), Plain("b", 0, 1);
    var items, q := [a, b], PinnedQuery("a");
    PlainIsScoped("a", 1, 1, "a");
    PlainIsScoped("b", 0, 1, "a");
    assert items[0] == a && items[1] == b && Find(items, "a") == Some(a);
    assert PinOutcome(items, q, 1).Unpinned?;
    assert b in Available(items, q, 1);
    FillFirstServesTheBest(items, m, q, 1);
    BlameTouchesOne(items, "a", v.failure, 1, version);
    PinnedElsewhereIsTriedTwice(items, Blamed(items, "a", v.failure, 1, version), m, m', q, 1, Worker.Refused("a", v));
  }
}
