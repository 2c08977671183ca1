/** Narrowing a list to each group's smallest day. Entries without a day (-1) are dropped from
    a group that has dated entries and kept in a group that has none. */
module Batches {

  /** The group's smallest day; -1 when none of its entries is dated. */
  function MinDay<T>(items: seq<T>, group: T -> string, day: T -> int, g: string): (d: int)
    ensures d >= -1
    ensures d == -1 <==> forall i :: 0 <= i < |items| && group(items[i]) == g ==> day(items[i]) < 0
    ensures d >= 0 ==> exists i :: (0 <= i < |items| && group(items[i]) == g && day(items[i]) == d)
    ensures forall i :: 0 <= i < |items| && group(items[i]) == g && day(items[i]) >= 0 ==> d <= day(items[i])
  {
    if items == [] then -1
    else
      var n := |items| - 1;
      var before := MinDay(items[..n], group, day, g);
      assert forall i :: 0 <= i < n ==> items[..n][i] == items[i];
      var last := day(items[n]);
      if group(items[n]) == g && last >= 0 && (before < 0 || last < before) then last else before
  }

  /** Survives the filter: on its group's minimum day, or in a group without any day. */
  predicate Survives<T>(items: seq<T>, group: T -> string, day: T -> int, item: T) {
    var d := MinDay(items, group, day, group(item));
    d < 0 || day(item) == d
  }

  /** Those of the first `k` entries that survive, in order. */
  function Kept<T>(items: seq<T>, group: T -> string, day: T -> int, k: nat): (r: seq<T>)
    requires k <= |items|
    ensures forall i :: 0 <= i < k && Survives(items, group, day, items[i]) ==> items[i] in r
    ensures forall item :: item in r ==> item in items && Survives(items, group, day, item)
  {
    if k == 0 then []
    else
      var before := Kept(items, group, day, k - 1);
      if Survives(items, group, day, items[k - 1]) then before + [items[k - 1]] else before
  }

  function Narrow<T>(items: seq<T>, group: T -> string, day: T -> int): seq<T> {
    Kept(items, group, day, |items|)
  }

  /** Every group with an entry keeps one; a group without days keeps everything; a dated
      group keeps exactly its entries on the minimum day. */
  lemma NarrowKeepsEveryGroup<T>(items: seq<T>, group: T -> string, day: T -> int, i: nat)
    requires i < |items|
    ensures var g := group(items[i]);
      var d := MinDay(items, group, day, g);
      var out := Narrow(items, group, day);
      && (exists item :: item in out && group(item) == g)
      && (d == -1 ==> forall item :: item in items && group(item) == g ==> item in out)
      && (d >= 0 ==> forall item :: item in items && group(item) == g ==> (item in out <==> day(item) == d))
  {
    var g := group(items[i]);
    var d := MinDay(items, group, day, g);
    if d == -1 {
      assert items[i] in Narrow(items, group, day);
    } else {
      var w :| 0 <= w < |items| && group(items[w]) == g && day(items[w]) == d;
      assert items[w] in Narrow(items, group, day);
    }
  }

  lemma {:induction false} KeptAll<T>(items: seq<T>, group: T -> string, day: T -> int, k: nat)
    requires k <= |items|
    requires forall i :: 0 <= i < |items| ==> Survives(items, group, day, items[i])
    ensures Kept(items, group, day, k) == items[..k]
  {
    if k > 0 {
      KeptAll(items, group, day, k - 1);
      assert items[..k] == items[..k - 1] + [items[k - 1]];
    }
  }

  lemma MinDayStep<T>(items: seq<T>, group: T -> string, day: T -> int, g: string, i: nat)
    requires i < |items|
    ensures var before := MinDay(items[..i], group, day, g);
      MinDay(items[..i + 1], group, day, g) ==
        if group(items[i]) == g && day(items[i]) >= 0 && (before < 0 || day(items[i]) < before)
        then day(items[i]) else before
  {
    assert items[..i + 1][..i] == items[..i];
  }

  /** The table has the group's minimum day, if there is one. */
  predicate DayKnown(minDay: map<string, int>, g: string, d: int) {
    if d >= 0 then g in minDay && minDay[g] == d else g !in minDay
  }

  lemma DayKnownStep<T>(items: seq<T>, group: T -> string, day: T -> int, g: string, i: nat, minDay: map<string, int>)
    requires i < |items| && DayKnown(minDay, g, MinDay(items[..i], group, day, g))
    ensures var item := items[i];
      var earlier := day(item) >= 0 && (group(item) !in minDay || day(item) < minDay[group(item)]);
      DayKnown(if earlier then minDay[group(item) := day(item)] else minDay, g, MinDay(items[..i + 1], group, day, g))
  {
    MinDayStep(items, group, day, g, i);
  }

  /** First pass: the known minimum day of every group that has one. */
  method MinDays<T>(items: seq<T>, group: T -> string, day: T -> int) returns (minDay: map<string, int>)
    ensures forall g :: DayKnown(minDay, g, MinDay(items, group, day, g))
  {
    minDay := map[];
    for i := 0 to |items|
      invariant forall g :: DayKnown(minDay, g, MinDay(items[..i], group, day, g))
    {
      var item := items[i];
      ghost var before, seen := minDay, items[..i + 1];
      if day(item) >= 0 && (group(item) !in minDay || day(item) < minDay[group(item)]) {
        minDay := minDay[group(item) := day(item)];
      }
      forall g ensures DayKnown(minDay, g, MinDay(seen, group, day, g)) {
        DayKnownStep(items, group, day, g, i, before);
      }
    }
    assert items[..|items|] == items;
  }

  /** Second pass: the entries on their group's minimum day, and those of groups without one. */
  method KeepEarliest<T>(items: seq<T>, group: T -> string, day: T -> int, minDay: map<string, int>)
    returns (out: seq<T>)
    requires forall g :: DayKnown(minDay, g, MinDay(items, group, day, g))
    ensures out == Narrow(items, group, day)
  {
    out := [];
    for i := 0 to |items|
      invariant out == Kept(items, group, day, i)
    {
      var item := items[i];
      assert DayKnown(minDay, group(item), MinDay(items, group, day, group(item)));
      if group(item) !in minDay {
        out := out + [item];
      } else if day(item) >= 0 && day(item) == minDay[group(item)] {
        out := out + [item];
      }
    }
  }

  /** The two passes with their shortcuts. The final empty-result fallback never runs. */
  method NarrowCandidates<T>(items: seq<T>, group: T -> string, day: T -> int) returns (out: seq<T>)
    ensures out == Narrow(items, group, day)
  {
    if |items| < 2 {
      KeptAll(items, group, day, |items|);
      return items;
    }
    var minDay := MinDays(items, group, day);
    if minDay == map[] {
      assert forall i :: 0 <= i < |items| ==>
        DayKnown(minDay, group(items[i]), MinDay(items, group, day, group(items[i])));
      KeptAll(items, group, day, |items|);
      return items;
    }
    out := KeepEarliest(items, group, day, minDay);
    NarrowKeepsEveryGroup(items, group, day, 0);
    if out == [] {
      assert false;
    }
  }

  /** `r` lists entries of the first `k` items in their original order. */
  ghost predicate InOrder<T>(r: seq<T>, items: seq<T>, k: nat, before: (T, T) -> bool)
    requires k <= |items|
  {
    && (forall i, j :: 0 <= i < j < |r| ==> before(r[i], r[j]))
    && (forall x :: x in r ==> x in items[..k])
  }

  /** Narrowing keeps any order the list is in. */
  lemma {:induction false} KeptIsOrdered<T>(items: seq<T>, group: T -> string, day: T -> int, k: nat,
                                            before: (T, T) -> bool)
    requires k <= |items|
    requires forall i, j :: 0 <= i < j < |items| ==> before(items[i], items[j])
    ensures InOrder(Kept(items, group, day, k), items, k, before)
  {
    if k > 0 {
      KeptIsOrdered(items, group, day, k - 1, before);
      var r := Kept(items, group, day, k - 1);
      forall x | x in r ensures x in items[..k] && before(x, items[k - 1]) {
        var n :| 0 <= n < k - 1 && items[n] == x;
      }
      assert items[k - 1] in items[..k];
      assert forall i :: 0 <= i < |r| ==> r[i] in r;
    }
  }
}

/** Earliest-expiry-first: the quota gate, and the filter that narrows candidates to each
    provider family's nearest billing day. */
module Fefo {
  import opened Items
  import opened Batches

  const BILLING_OFFSET: int := 8 * 60 * 60
  const DAY: int := 24 * 60 * 60
  const SCOPE: string := "account-fefo"

  datatype QuotaState = QuotaState(earliest: int, depleted: bool, tracked: bool)

  predicate Scoped(pkg: QuotaPackage) {
    pkg.scope == SCOPE && (pkg.unit == "" || pkg.unit == "credits")
  }

  /** The package set can prove something about this account's balance. */
  predicate Trusted(item: Item) {
    && item.quota.Some? && item.quota.value.packages != []
    && !item.quota.value.hasAddOn && !item.quota.value.hasResourcePackage
    && forall i :: 0 <= i < |item.quota.value.packages| ==> Scoped(item.quota.value.packages[i])
  }

  /** Spendable and not yet expired; no expiry at all counts as not expired. */
  predicate Live(pkg: QuotaPackage, now: Time) {
    pkg.remain.Amount? && pkg.remain.value > 0.0 && !(0 < pkg.endsAt <= Unix(now))
  }

  predicate Dated(pkg: QuotaPackage) {
    pkg.endsAt > 0
  }

  predicate SomeLive(pkgs: seq<QuotaPackage>, now: Time) {
    exists i :: 0 <= i < |pkgs| && Live(pkgs[i], now)
  }

  predicate SomeLiveUndated(pkgs: seq<QuotaPackage>, now: Time) {
    exists i :: 0 <= i < |pkgs| && Live(pkgs[i], now) && !Dated(pkgs[i])
  }

  /** Smallest expiry among live dated packages; zero when there is none. */
  function NearestExpiry(pkgs: seq<QuotaPackage>, now: Time): (e: int)
    ensures e == 0 <==> forall i :: 0 <= i < |pkgs| ==> !(Live(pkgs[i], now) && Dated(pkgs[i]))
    ensures e != 0 ==> exists i :: 0 <= i < |pkgs| && Live(pkgs[i], now) && Dated(pkgs[i]) && pkgs[i].endsAt == e
    ensures forall i :: 0 <= i < |pkgs| && Live(pkgs[i], now) && Dated(pkgs[i]) ==> 0 < e <= pkgs[i].endsAt
  {
    if pkgs == [] then 0
    else
      var n := |pkgs| - 1;
      var before := NearestExpiry(pkgs[..n], now);
      assert forall i :: 0 <= i < n ==> pkgs[..n][i] == pkgs[i];
      if Live(pkgs[n], now) && Dated(pkgs[n]) && (before == 0 || pkgs[n].endsAt < before)
      then pkgs[n].endsAt else before
  }

  lemma ScanStep(pkgs: seq<QuotaPackage>, i: nat, now: Time)
    requires i < |pkgs|
    ensures SomeLive(pkgs[..i + 1], now) == (SomeLive(pkgs[..i], now) || Live(pkgs[i], now))
    ensures SomeLiveUndated(pkgs[..i + 1], now) ==
      (SomeLiveUndated(pkgs[..i], now) || (Live(pkgs[i], now) && !Dated(pkgs[i])))
    ensures var before := NearestExpiry(pkgs[..i], now);
      NearestExpiry(pkgs[..i + 1], now) ==
        if Live(pkgs[i], now) && Dated(pkgs[i]) && (before == 0 || pkgs[i].endsAt < before)
        then pkgs[i].endsAt else before
  {
    var longer := pkgs[..i + 1];
    assert longer[..i] == pkgs[..i] && longer[i] == pkgs[i];
    assert forall j :: 0 <= j < i ==> longer[j] == pkgs[..i][j];
  }

  /** What the packages say, without looking at them one by one. */
  function StateOf(item: Item, now: Time): QuotaState {
    if !Trusted(item) then QuotaState(0, false, false)
    else
      var pkgs := item.quota.value.packages;
      if !SomeLive(pkgs, now) then QuotaState(0, true, true)
      else if SomeLiveUndated(pkgs, now) then QuotaState(0, false, true)
      else QuotaState(NearestExpiry(pkgs, now), false, true)
  }

  /** The package scan, with its early exit on the first untrusted package. */
  method ScanPackages(item: Item, now: Time) returns (state: QuotaState)
    ensures state == StateOf(item, now)
  {
    if item.quota.None? || item.quota.value.packages == [] ||
       item.quota.value.hasAddOn || item.quota.value.hasResourcePackage {
      return QuotaState(0, false, false);
    }
    var pkgs := item.quota.value.packages;
    var earliest, unknownDate, live := 0, false, false;
    for i := 0 to |pkgs|
      invariant forall j :: 0 <= j < i ==> Scoped(pkgs[j])
      invariant live == SomeLive(pkgs[..i], now)
      invariant unknownDate == SomeLiveUndated(pkgs[..i], now)
      invariant earliest == NearestExpiry(pkgs[..i], now)
    {
      var pkg := pkgs[i];
      if !Scoped(pkg) {
        return QuotaState(0, false, false);
      }
      ScanStep(pkgs, i, now);
      if Live(pkg, now) {
        live := true;
        if !Dated(pkg) {
          unknownDate := true;
        } else if earliest == 0 || pkg.endsAt < earliest {
          earliest := pkg.endsAt;
        }
      }
    }
    assert pkgs[..|pkgs|] == pkgs;
    if !live {
      state := QuotaState(0, true, true);
    } else if unknownDate {
      state := QuotaState(0, false, true);
    } else {
      state := QuotaState(earliest, false, true);
    }
  }

  /** Expiry and depletion for one model; a free or unnamed model never spends credits. */
  function Expiry(item: Item, publicModel: string, now: Time): (int, bool) {
    var model := EffectiveCreditModel(item, publicModel);
    var state := StateOf(item, now);
    if model == "" || ServesFree(item, model) || !state.tracked then (0, false)
    else (state.earliest, state.depleted)
  }

  predicate QuotaExceeded(item: Item, q: Query) {
    var model := if q.fefoNow != 0 then EffectiveCreditModel(item, q.publicModel) else q.publicModel;
    !ServesFree(item, model) &&
    ((item.quota.Some? && item.quota.value.exceeded) ||
     (q.fefoNow != 0 && Expiry(item, q.publicModel, q.fefoNow).1))
  }

  // ---------------------------------------------------------------- the filter

  function CreditDay(expiry: int): (day: int)
    requires expiry > 0
    ensures day >= 0 && day * DAY <= expiry + BILLING_OFFSET < (day + 1) * DAY
  {
    (expiry + BILLING_OFFSET) / DAY
  }

  /** Billing day of the account's nearest live trusted package; -1 when it has none. */
  function BillingDay(item: Item, publicModel: string, now: Time): int {
    var expiry := Expiry(item, publicModel, now).0;
    if expiry <= 0 then -1 else CreditDay(expiry)
  }

  function DayOf(publicModel: string, now: Time): Item -> int {
    (item: Item) => BillingDay(item, publicModel, now)
  }

  function Candidates(items: seq<Item>, publicModel: string, now: Time): seq<Item> {
    Narrow(items, Family, DayOf(publicModel, now))
  }
}
