/** Earliest-expiry-first over whole calls: what `PickRoute` serves under it loses its credits no later than
    any other account it could have served instead. */
module Expiries {
  import opened Items
  import opened Routing
  import opened Fefo
  import Batches
  import Latch

  /** The billing day, in UTC+8, on which a dated package lapses. */
  function LapseDay(pkg: QuotaPackage): (day: int)
    requires pkg.endsAt > 0
  {
    (pkg.endsAt + 8 * 3600) / 86400
  }

  /** The packages are all of this account's balance: none is of another scope or unit, and there is no add-on
      or resource package beside them. */
  ghost predicate Tells(item: Item) {
    && item.quota.Some? && item.quota.value.packages != []
    && !item.quota.value.hasAddOn && !item.quota.value.hasResourcePackage
    && forall i :: 0 <= i < |item.quota.value.packages| ==>
         var pkg := item.quota.value.packages[i]; pkg.scope == "account-fefo" && pkg.unit in {"", "credits"}
  }

  /** There is something left in the package, and it has not lapsed by `now`. */
  ghost predicate Spendable(pkg: QuotaPackage, now: Time) {
    pkg.remain.Amount? && pkg.remain.value > 0.0 && (pkg.endsAt <= 0 || now < pkg.endsAt * 1_000_000_000)
  }

  /** All spendable packages lapse, the first of them on `day`. */
  ghost predicate FirstLapse(pkgs: seq<QuotaPackage>, now: Time, day: int) {
    && (forall i :: 0 <= i < |pkgs| && Spendable(pkgs[i], now) ==> pkgs[i].endsAt > 0 && day <= LapseDay(pkgs[i]))
    && exists i :: 0 <= i < |pkgs| && Spendable(pkgs[i], now) && pkgs[i].endsAt > 0 && LapseDay(pkgs[i]) == day
  }

  ghost predicate NothingLeft(pkgs: seq<QuotaPackage>, now: Time) {
    forall i :: 0 <= i < |pkgs| ==> !Spendable(pkgs[i], now)
  }

  lemma LiveIsSpendable(pkg: QuotaPackage, now: Time)
    ensures Live(pkg, now) <==> Spendable(pkg, now)
  {}

  lemma NothingLeftIsNoneLive(pkgs: seq<QuotaPackage>, now: Time)
    ensures NothingLeft(pkgs, now) <==> !SomeLive(pkgs, now)
  {
    forall i | 0 <= i < |pkgs| { LiveIsSpendable(pkgs[i], now); }
  }

  lemma FirstLapseIsNearest(pkgs: seq<QuotaPackage>, now: Time, day: int)
    ensures var e := NearestExpiry(pkgs, now);
      FirstLapse(pkgs, now, day) <==> SomeLive(pkgs, now) && !SomeLiveUndated(pkgs, now) && CreditDay(e) == day
  {
    forall i | 0 <= i < |pkgs| { LiveIsSpendable(pkgs[i], now); }
    hide Live, Spendable;
    var e := NearestExpiry(pkgs, now);
    if e != 0 {
      var i :| 0 <= i < |pkgs| && Live(pkgs[i], now) && Dated(pkgs[i]) && pkgs[i].endsAt == e;
      assert LapseDay(pkgs[i]) == CreditDay(e);
    }
  }

  lemma TrustedTells(item: Item)
    ensures Trusted(item) <==> Tells(item)
  {}

  /** The account serves the model from credits whose balance its packages tell, and loses the first of them on
      `day`. */
  ghost predicate LosesCreditsOn(item: Item, publicModel: string, now: Time, day: int) {
    && EffectiveCreditModel(item, publicModel) != "" && !ServesFree(item, EffectiveCreditModel(item, publicModel))
    && Tells(item) && FirstLapse(item.quota.value.packages, now, day)
  }

  /** The day an account is ranked by is that of its first package to lapse, and it has none exactly when its
      packages do not say. */
  lemma RankedByFirstLapse(item: Item, publicModel: string, now: Time, day: int)
    requires day >= 0
    ensures BillingDay(item, publicModel, now) == day <==> LosesCreditsOn(item, publicModel, now, day)
  {
    TrustedTells(item);
    if Trusted(item) { FirstLapseIsNearest(item.quota.value.packages, now, day); }
    hide Trusted, FirstLapse, SomeLive, SomeLiveUndated, EffectiveCreditModel, ServesFree;
  }

  /** The account has no credits left for the model, which is not free on it: its quota is reported exceeded,
      or, under earliest-expiry, its packages tell that nothing is spendable. */
  ghost predicate Spent(item: Item, strategy: Strategy, publicModel: string, now: Time) {
    var model := if strategy == EarliestExpiry then EffectiveCreditModel(item, publicModel) else publicModel;
    && !ServesFree(item, model)
    && ((item.quota.Some? && item.quota.value.exceeded) ||
        (strategy == EarliestExpiry && model != "" && Tells(item) &&
         NothingLeft(item.quota.value.packages, now)))
  }

  lemma SpentIsExceeded(item: Item, strategy: Strategy, query: Query, now: Time)
    requires now != 0 && query.fefoNow == 0
    ensures Spent(item, strategy, query.publicModel, now) <==> QuotaExceeded(item, Stamped(query, strategy, now))
  {
    TrustedTells(item);
    if Trusted(item) { NothingLeftIsNoneLive(item.quota.value.packages, now); }
    hide Trusted, Tells, NothingLeft, SomeLive, SomeLiveUndated, EffectiveCreditModel, ServesFree;
  }

  /** An account without credits is never handed out, as a pick, a preference or a retry hint, and whatever is
      handed out has some. */
  lemma SpentIsNeverServed(items: seq<Item>, strategy: Strategy, m: Memory, query: Query, now: Time)
    requires now != 0 && query.fefoNow == 0
    ensures var r := Pick(items, strategy, m, query, now).0;
      r.Some? ==> !Spent(r.value, strategy, query.publicModel, now)
  {
    PickIsExact(items, strategy, m, query, now);
    var r := Pick(items, strategy, m, query, now).0;
    if r.Some? { SpentIsExceeded(r.value, strategy, query, now); }
  }

  /** What the narrowing leaves in play is ranked no later than any other of its family. */
  lemma KeptAreEarliest(items: seq<Item>, publicModel: string, now: Time, x: Item, y: Item)
    requires x in Candidates(items, publicModel, now) && y in items && Family(y) == Family(x)
    requires BillingDay(y, publicModel, now) >= 0
    ensures 0 <= BillingDay(x, publicModel, now) <= BillingDay(y, publicModel, now)
  {
    assert Batches.Survives(items, Family, DayOf(publicModel, now), x);
    var i :| 0 <= i < |items| && items[i] == y;
  }

  /** Candidates of the region served stay in play. */
  lemma SameRegionStays(available: seq<Item>, q: Query, latched: Option<string>, x: Item, y: Item)
    requires available != [] && x in InServedRegion(available, q, latched) && y in available && Region(y) == Region(x)
    ensures y in InServedRegion(available, q, latched)
  {
    if q.regionFilter == "" {
      var g := Latch.Served(available, Region, latched);
      assert x in Latch.InGroup(available, Region, g) && Region(x) == g;
      var i :| 0 <= i < |available| && available[i] == y;
    }
  }

  lemma ServedIsEarliest(available: seq<Item>, m: Memory, q: Query, now: Time, y: Item)
    requires available != [] && y in available && BillingDay(y, q.publicModel, now) >= 0
    ensures var x := Serve(available, EarliestExpiry, m, q, now).0;
      Family(x) == Family(y) && Region(x) == Region(y) ==>
        0 <= BillingDay(x, q.publicModel, now) <= BillingDay(y, q.publicModel, now)
  {
    hide RotationKey, BillingDay, Family, Region;
    var ready := EnsureKey(m, RotationKey(q));
    var latched := Latched(ready, RotationKey(q));
    var x := Serve(available, EarliestExpiry, m, q, now).0;
    assert x in Finalists(available, EarliestExpiry, ready, q, now);
    assert x in Candidates(InServedRegion(available, q, latched), q.publicModel, now);
    if Family(x) == Family(y) && Region(x) == Region(y) {
      SameRegionStays(available, q, latched, x, y);
      KeptAreEarliest(InServedRegion(available, q, latched), q.publicModel, now, x, y);
    }
  }

  /** Under earliest-expiry an account served by scheduling, rather than as a preference, loses its credits no
      later than any other usable account of its provider and region whose packages say when it does. */
  lemma EarliestExpiryServesTheEarliest(items: seq<Item>, m: Memory, query: Query, now: Time, y: Item, day: int)
    requires y in items && Usable(y, Stamped(query, EarliestExpiry, now), now)
    requires PinOutcome(items, Stamped(query, EarliestExpiry, now), now).Unpinned?
    requires day >= 0 && LosesCreditsOn(y, query.publicModel, now, day)
    ensures var r := Pick(items, EarliestExpiry, m, query, now).0;
      && r.Some?
      && (Family(r.value) == Family(y) && Region(r.value) == Region(y) ==>
            exists first :: 0 <= first <= day && LosesCreditsOn(r.value, query.publicModel, now, first))
  {
    var q := Stamped(query, EarliestExpiry, now);
    var available := Available(items, q, now);
    assert y in available;
    var x := Serve(available, EarliestExpiry, m, q, now).0;
    RankedByFirstLapse(y, query.publicModel, now, day);
    ServedIsEarliest(available, m, q, now, y);
    if Family(x) == Family(y) && Region(x) == Region(y) {
      RankedByFirstLapse(x, query.publicModel, now, BillingDay(x, query.publicModel, now));
    }
  }
}
