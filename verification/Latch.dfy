/** The region a route keeps serving: grouping candidates, the largest group, and the
    half-of-the-largest rule that lets a route leave the group it served last. */
module Latch {
  import opened Strings
  import opened Items

  function InGroup<T>(items: seq<T>, group: T -> string, g: string): (r: seq<T>)
    ensures forall x :: x in r ==> x in items && group(x) == g
    ensures forall i :: 0 <= i < |items| && group(items[i]) == g ==> items[i] in r
  {
    if items == [] then []
    else
      var n := |items| - 1;
      var before := InGroup(items[..n], group, g);
      assert forall i :: 0 <= i < n ==> items[..n][i] == items[i];
      if group(items[n]) == g then before + [items[n]] else before
  }

  function Size<T>(items: seq<T>, group: T -> string, g: string): nat {
    |InGroup(items, group, g)|
  }

  /** `g` outranks `h`: more candidates, or as many and a smaller name. */
  predicate Outranks<T>(items: seq<T>, group: T -> string, g: string, h: string) {
    Size(items, group, g) > Size(items, group, h) ||
    (Size(items, group, g) == Size(items, group, h) && AtMost(g, h))
  }

  /** The best group among those of the first `k` candidates. */
  function LargestOf<T>(items: seq<T>, group: T -> string, k: nat): (g: string)
    requires 0 < k <= |items|
    ensures exists i :: 0 <= i < k && group(items[i]) == g
    ensures forall i :: 0 <= i < k ==> Outranks(items, group, g, group(items[i]))
  {
    LessIsStrictTotalOrder();
    var last := group(items[k - 1]);
    if k == 1 then last
    else
      var g := LargestOf(items, group, k - 1);
      if Outranks(items, group, g, last) then g else last
  }

  function Largest<T>(items: seq<T>, group: T -> string): string
    requires items != []
  {
    LargestOf(items, group, |items|)
  }

  /** A remembered group that has fallen below half of the largest one. */
  predicate Stale<T>(items: seq<T>, group: T -> string, g: string)
    requires items != []
  {
    2 * Size(items, group, g) < Size(items, group, Largest(items, group))
  }

  /** The group a route serves next, given the one it remembers. */
  function Served<T>(items: seq<T>, group: T -> string, latched: Option<string>): string
    requires items != []
  {
    if latched.Some? && Size(items, group, latched.value) > 0 && !Stale(items, group, latched.value)
    then latched.value
    else Largest(items, group)
  }

  lemma SizePositive<T>(items: seq<T>, group: T -> string, i: nat)
    requires i < |items|
    ensures Size(items, group, group(items[i])) > 0
  {
    assert items[i] in InGroup(items, group, group(items[i]));
  }

  /** The served group always has a candidate, and differs from the remembered one exactly
      when that one is empty or has fallen below half of the largest. */
  lemma ServedLeavesLatchOnlyWhenBehind<T>(items: seq<T>, group: T -> string, latched: string)
    requires items != []
    ensures Size(items, group, Served(items, group, Some(latched))) > 0
    ensures Served(items, group, Some(latched)) != latched <==>
      Size(items, group, latched) == 0 || Stale(items, group, latched)
  {
    var g := Largest(items, group);
    var i :| 0 <= i < |items| && group(items[i]) == g;
    SizePositive(items, group, i);
  }

  lemma LargestIsUnique<T>(items: seq<T>, group: T -> string, g: string)
    requires items != [] && exists i :: 0 <= i < |items| && group(items[i]) == g
    requires forall i :: 0 <= i < |items| ==> Outranks(items, group, g, group(items[i]))
    ensures g == Largest(items, group)
  {
    LessIsStrictTotalOrder();
  }

  /** Candidate counts per group. */
  method CountGroups<T>(items: seq<T>, group: T -> string) returns (counts: map<string, nat>)
    ensures forall g :: g in counts <==> Size(items, group, g) > 0
    ensures forall g :: g in counts ==> counts[g] == Size(items, group, g)
  {
    counts := map[];
    for i := 0 to |items|
      invariant forall g :: g in counts <==> Size(items[..i], group, g) > 0
      invariant forall g :: g in counts ==> counts[g] == Size(items[..i], group, g)
    {
      var g := group(items[i]);
      assert items[..i + 1][..i] == items[..i];
      counts := counts[g := (if g in counts then counts[g] else 0) + 1];
    }
    assert items[..|items|] == items;
  }

  lemma NothingWithoutName<T>(items: seq<T>, group: T -> string)
    requires forall i :: 0 <= i < |items| ==> group(items[i]) != ""
    ensures Size(items, group, "") == 0
  {
    if items != [] { NothingWithoutName(items[..|items| - 1], group); }
  }

  /** The scan over the count table, in whatever order the table is visited. */
  method LargestGroup<T>(items: seq<T>, group: T -> string) returns (best: string)
    requires items != [] && forall i :: 0 <= i < |items| ==> group(items[i]) != ""
    ensures best == Largest(items, group)
  {
    var counts := CountGroups(items, group);
    NothingWithoutName(items, group);
    var bestCount: nat;
    best, bestCount := "", 0;
    var left := counts.Keys;
    while left != {}
      invariant left <= counts.Keys
      invariant best == "" ==> bestCount == 0 && left == counts.Keys
      invariant best != "" ==> best in counts && bestCount == counts[best]
      invariant forall g :: g in counts && g !in left ==> Outranks(items, group, best, g)
      decreases left
    {
      var g :| g in left;
      LessIsStrictTotalOrder();
      if counts[g] > bestCount || (counts[g] == bestCount && (best == "" || Less(g, best))) {
        best, bestCount := g, counts[g];
      }
      left := left - {g};
    }
    forall i | 0 <= i < |items| ensures Outranks(items, group, best, group(items[i])) {
      SizePositive(items, group, i);
    }
    SizePositive(items, group, 0);
    assert InGroup(items, group, best)[0] in items;
    LargestIsUnique(items, group, best);
  }

  /** The largest count alone, as the staleness test reads it. */
  method LargestCount<T>(items: seq<T>, group: T -> string) returns (best: nat)
    requires items != []
    ensures best == Size(items, group, Largest(items, group))
  {
    var counts := CountGroups(items, group);
    best := 0;
    var left := counts.Keys;
    while left != {}
      invariant left <= counts.Keys
      invariant best == 0 || exists g :: g in counts && counts[g] == best
      invariant forall g :: g in counts && g !in left ==> counts[g] <= best
      decreases left
    {
      var g :| g in left;
      if counts[g] > best {
        best := counts[g];
      }
      left := left - {g};
    }
    var top := Largest(items, group);
    var i :| 0 <= i < |items| && group(items[i]) == top;
    SizePositive(items, group, i);
    assert counts[top] <= best;
    var g :| g in counts && counts[g] == best;
    assert InGroup(items, group, g)[0] in items;
  }
}
