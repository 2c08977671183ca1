/** A request pinned to the `global` region shares its route with unpinned ones, and can move the region
    they are served in although that region has not fallen behind. */
module GlobalPins {
  import opened Items
  import opened Routing
  import opened Fairness
  import Latch
  import opened Strings

  /** An account of a region that serves anything. */
  function Located(id: string, region: string): Item {
    Item(id, "", region, 50, None, 0, 0, None, None, [], [], map[], map[], [], false, 0, "", "", 0, map[], map[],
      map[], 0)
  }

  function AnyModel(region: string): Query {
    Query("", "", "", region, (provider: string, r: string) => true, {}, (item: Item) => true, 0)
  }

  /** Two accounts in one region, one in the global region. */
  function Three(): seq<Item> {
    [Located("a", "cn"), Located("b", "cn"), Located("c", "global")]
  }

  lemma RegionNames()
    ensures NormalizeRegion("cn") == "cn" && NormalizeRegion("global") == "global" && RouteModel("") == ""
  {
    assert Trim("cn") == "cn" && ToLower("cn") == "cn";
    assert Trim("global") == "global" && ToLower("global") == "global";
    assert Trim("") == "";
  }

  lemma LocatedIsUsable(id: string, region: string, q: Query)
    requires q == AnyModel(q.regionFilter)
    ensures Usable(Located(id, region), q, 1) <==>
      (q.regionFilter != "" ==> NormalizeRegion(region) == NormalizeRegion(q.regionFilter))
  {
    RegionNames();
  }

  lemma OneMoreUsable(items: seq<Item>, item: Item, all: seq<Item>, q: Query, now: Time)
    requires Usable(item, q, now) && UsableItems(items, q, now) == items && all == items + [item]
    ensures UsableItems(all, q, now) == all
  {
    assert all[..|items|] == items;
  }

  lemma SortedAlready(a: Item, b: Item, c: Item)
    requires Less(a.id, b.id) && Less(b.id, c.id)
    ensures SortById([a, b, c]) == [a, b, c]
  {
    LessIsStrictTotalOrder();
    assert [a, b, c][..2] == [a, b] && [a, b][..1] == [a] && [a][..0] == [];
    assert SortById([a]) == [a];
    assert [a][1..] == [] && Insert(b, []) == [b];
    assert SortById([a, b]) == [a] + [b];
    assert [a, b][1..] == [b] && [b][1..] == [] && Insert(c, [b]) == [b] + Insert(c, []);
  }

  lemma ThreeAreAvailable()
    ensures Available(Three(), AnyModel(""), 1) == Three()
  {
    var a, b, c, q := Located("a", "cn"), Located("b", "cn"), Located("c", "global"), AnyModel("");
    assert UsableItems([a, b, c], q, 1) == [a, b, c] by {
      LocatedIsUsable("a", "cn", q);
      OneMoreUsable([], a, [a], q, 1);
      LocatedIsUsable("b", "cn", q);
      OneMoreUsable([a], b, [a, b], q, 1);
      LocatedIsUsable("c", "global", q);
      OneMoreUsable([a, b], c, [a, b, c], q, 1);
    }
    SortedAlready(a, b, c);
  }

  lemma GroupSizes<T>(a: T, b: T, c: T, group: T -> string)
    requires group(a) == group(b) != group(c)
    ensures Latch.Size([a, b, c], group, group(a)) == 2 && Latch.Size([a, b, c], group, group(c)) == 1
  {
    OneMoreInGroup([], a, group, group(a));
    OneMoreInGroup([a], b, group, group(a));
    OneMoreInGroup([a, b], c, group, group(a));
    OneMoreInGroup([], a, group, group(c));
    OneMoreInGroup([a], b, group, group(c));
    OneMoreInGroup([a, b], c, group, group(c));
    assert [] + [a] == [a] && [a] + [b] == [a, b] && [a, b] + [c] == [a, b, c];
  }

  lemma OneMoreInGroup<T>(items: seq<T>, item: T, group: T -> string, g: string)
    ensures Latch.Size(items + [item], group, g) == Latch.Size(items, group, g) + if group(item) == g then 1 else 0
  {
    assert (items + [item])[..|items|] == items;
  }

  lemma LargestOfThree<T>(a: T, b: T, c: T, group: T -> string)
    requires group(a) == group(b) != group(c)
    ensures Latch.Largest([a, b, c], group) == group(a)
    ensures !Latch.Stale([a, b, c], group, group(a)) && !Latch.Stale([a, b, c], group, group(c))
  {
    GroupSizes(a, b, c, group);
    var i :| 0 <= i < 3 && group([a, b, c][i]) == Latch.Largest([a, b, c], group);
    assert [a, b, c][0] == a && [a, b, c][2] == c;
  }

  /** What an unpinned call on the three accounts serves and remembers. */
  lemma UnpinnedCall(m: Memory)
    requires var key := RotationKey(AnyModel("")); EnsureKey(m, key) == m
    ensures var key := RotationKey(AnyModel(""));
      var (picked, m') := Pick(Three(), RoundRobin, m, AnyModel(""), 1);
      && picked.Some? && EnsureKey(m', key) == m' && Latched(m', key) == Some(Region(picked.value))
      && Region(picked.value) == Latch.Served(Three(), Region, Latched(m, key))
  {
    ThreeAreAvailable();
    var items, q := Three(), AnyModel("");
    ServeTouchesOneRoute(items, RoundRobin, m, q, 1, "");
    ServedFromFinalists(items, RoundRobin, m, q, 1);
  }

  /** A call pinned to the global region serves it, on the unpinned calls' route. */
  lemma PinnedCall(m: Memory)
    requires var key := RotationKey(AnyModel("")); EnsureKey(m, key) == m
    ensures var key := RotationKey(AnyModel(""));
      var (picked, m') := Pick(Three(), RoundRobin, m, AnyModel("global"), 1);
      && picked.Some? && Region(picked.value) == "global"
      && EnsureKey(m', key) == m' && Latched(m', key) == Some("global")
  {
    var items, q := Three(), AnyModel("global");
    RegionNames();
    OnlyGlobalPinsShareTheRoute(AnyModel(""), "global");
    LocatedIsUsable("c", "global", q);
    assert items[2] in Available(items, q, 1);
    var available := Available(items, q, 1);
    ServeTouchesOneRoute(available, RoundRobin, m, q, 1, "");
    var picked := Serve(available, RoundRobin, m, q, 1).0;
    assert picked in available;
  }

  lemma NobodyElsewhere<T>(a: T, b: T, c: T, group: T -> string, g: string)
    ensures g !in {group(a), group(b), group(c)} ==> Latch.Size([a, b, c], group, g) == 0
  {
    OneMoreInGroup([], a, group, g);
    OneMoreInGroup([a], b, group, g);
    OneMoreInGroup([a, b], c, group, g);
    assert [] + [a] == [a] && [a] + [b] == [a, b] && [a, b] + [c] == [a, b, c];
  }

  /** Where a route of the three accounts is served: where it was if it was in the global region, and
      otherwise in the larger one. */
  lemma ServedRegion(latched: Option<string>)
    ensures Latch.Served(Three(), Region, latched) == if latched == Some("global") then "global" else "cn"
    ensures !Latch.Stale(Three(), Region, "cn")
  {
    var a, b, c := Located("a", "cn"), Located("b", "cn"), Located("c", "global");
    RegionNames();
    LargestOfThree(a, b, c, Region);
    GroupSizes(a, b, c, Region);
    if latched.Some? { NobodyElsewhere(a, b, c, Region, latched.value); }
  }

  /** The three calls: an unpinned one is served in the larger region, a pinned one in the global region,
      and the next unpinned one stays there, although the larger region has not fallen behind and would
      have been served without the pin. */
  lemma GlobalPinMovesTheRegion(start: Memory, m1: Memory, m2: Memory)
    requires start == Memory(map[], map[], map[])
    requires m1 == Pick(Three(), RoundRobin, start, AnyModel(""), 1).1
    requires m2 == Pick(Three(), RoundRobin, m1, AnyModel("global"), 1).1
    ensures ServedIn(start, "", "cn") && ServedIn(m1, "global", "global")
    ensures ServedIn(m2, "", "global") && ServedIn(m1, "", "cn")
    ensures !Latch.Stale(Available(Three(), AnyModel(""), 1), Region, "cn")
  {
    var key := RotationKey(AnyModel(""));
    ThreeAreAvailable();
    ServedRegion(Latched(start, key));
    UnpinnedCall(start);
    PinnedCall(m1);
    ServedRegion(Latched(m1, key));
    UnpinnedCall(m1);
    ServedRegion(Latched(m2, key));
    UnpinnedCall(m2);
  }

  /** A call on the three accounts, pinned to `pin` unless that is empty, is served in `region`. */
  predicate ServedIn(m: Memory, pin: string, region: string) {
    var picked := Pick(Three(), RoundRobin, m, AnyModel(pin), 1).0;
    picked.Some? && Region(picked.value) == region
  }
}
