/** Ascending lists of distinct integers, as the relays build them from their tables. */
module Sorting {

  ghost predicate Ascending(s: seq<int>) {
    forall i, j :: 0 <= i < j < |s| ==> s[i] < s[j]
  }

  function InsertSorted(s: seq<int>, b: int): (r: seq<int>)
    requires Ascending(s) && b !in s
    ensures Ascending(r)
    ensures forall x :: x in r <==> x == b || x in s
    ensures b >= 0 && (forall k :: 0 <= k < |s| ==> s[k] >= 0) ==> forall k :: 0 <= k < |r| ==> r[k] >= 0
  {
    if s == [] || b < s[0] then [b] + s
    else
      var rest := InsertSorted(s[1..], b);
      assert s == [s[0]] + s[1..];
      assert forall k :: 0 <= k < |rest| ==> rest[k] in rest;
      [s[0]] + rest
  }

  method PickOne(left: set<int>) returns (i: int)
    requires left != {}
    ensures i in left
  {
    assert (forall k: int :: k !in left) ==> left == {};
    i :| i in left;
  }

  /** `sort.Ints` over a table's keys, whatever order the table is visited in. */
  method SortedKeys(keys: set<int>) returns (sorted: seq<int>)
    ensures Ascending(sorted) && |sorted| == |keys|
    ensures forall i :: i in sorted <==> i in keys
  {
    sorted := [];
    var left := keys;
    while left != {}
      invariant left <= keys && Ascending(sorted)
      invariant forall i :: i in sorted <==> i in keys && i !in left
      decreases left
    {
      var i := PickOne(left);
      sorted := InsertSorted(sorted, i);
      left := left - {i};
    }
    CountsKeys(sorted, keys);
  }

  lemma {:induction false} CountsKeys(sorted: seq<int>, keys: set<int>)
    requires Ascending(sorted) && forall i :: i in sorted <==> i in keys
    ensures |sorted| == |keys|
  {
    if sorted == [] {
      assert forall k: int :: k !in keys;
    } else {
      var n := |sorted| - 1;
      assert sorted == sorted[..n] + [sorted[n]];
      CountsKeys(sorted[..n], keys - {sorted[n]});
    }
  }

  /** The keys are exactly 0, 1, ..., |keys| - 1. */
  ghost predicate Contiguous(keys: set<int>) {
    forall i :: i in keys ==> 0 <= i < |keys|
  }

  /** A contiguous list holds each number at its own position. */
  lemma ContiguousIsIdentity(sorted: seq<int>, keys: set<int>, k: nat)
    requires Ascending(sorted) && |sorted| == |keys| && k < |sorted| && Contiguous(keys)
    requires forall i :: i in sorted <==> i in keys
    ensures sorted[k] == k
  {
    forall j | 0 <= j < |sorted| ensures 0 <= sorted[j] < |sorted| { assert sorted[j] in sorted; }
    AtLeastPosition(sorted, k);
    AtMostPosition(sorted, k);
  }

  lemma {:induction false} AtLeastPosition(sorted: seq<int>, k: nat)
    requires Ascending(sorted) && k < |sorted| && sorted[0] >= 0
    ensures sorted[k] >= k
  {
    if k > 0 { AtLeastPosition(sorted, k - 1); }
  }

  lemma {:induction false} AtMostPosition(sorted: seq<int>, k: nat)
    requires Ascending(sorted) && k < |sorted| && sorted[|sorted| - 1] < |sorted|
    ensures sorted[k] <= k
    decreases |sorted| - k
  {
    if k < |sorted| - 1 { AtMostPosition(sorted, k + 1); }
  }
}
