/** Round-robin whose cursor is the ID of the previous pick, over a candidate list that
    may change between picks. */
module RoundRobin {
  import opened Strings

  /** Strictly increasing, non-empty IDs, as the pool hands them over. */
  ghost predicate Sorted(ids: seq<string>) {
    (forall i, j :: 0 <= i < j < |ids| ==> Less(ids[i], ids[j])) && "" !in ids
  }

  /** First position holding an ID after `last`; the length when there is none. */
  function Search(ids: seq<string>, last: string): (r: nat)
    ensures r <= |ids|
    ensures forall j :: 0 <= j < r ==> !Less(last, ids[j])
    ensures r < |ids| ==> Less(last, ids[r])
  {
    if ids == [] || Less(last, ids[0]) then 0 else 1 + Search(ids[1..], last)
  }

  function SuccessorIndex(ids: seq<string>, last: string): (r: nat)
    requires ids != []
    ensures r < |ids|
  {
    if last == "" || Search(ids, last) == |ids| then 0 else Search(ids, last)
  }

  /** The ID chosen by pick `k` (from zero) when the candidates of pick `j` are `rounds[j]`. */
  function PickAt(rounds: seq<seq<string>>, cursor: string, k: nat): (id: string)
    requires k < |rounds| && forall j :: 0 <= j <= k ==> rounds[j] != []
    ensures id in rounds[k]
  {
    var last := if k == 0 then cursor else PickAt(rounds, cursor, k - 1);
    rounds[k][SuccessorIndex(rounds[k], last)]
  }

  // ---------------------------------------------------------------- changing candidates

  /** The IDs of `universe` the rotation passes on its way from `cursor` to `x`, `x` included. */
  ghost function Ahead(universe: set<string>, cursor: string, x: string): set<string> {
    set u | u in universe &&
            if Less(cursor, x) then Less(cursor, u) && AtMost(u, x) else Less(cursor, u) || AtMost(u, x)
  }

  /** A pick that is not `x` moves strictly closer to `x`. */
  lemma PickMovesCloser(ids: seq<string>, universe: set<string>, cursor: string, x: string)
    requires Sorted(ids) && x in ids && forall id :: id in ids ==> id in universe
    requires ids[SuccessorIndex(ids, cursor)] != x
    ensures Ahead(universe, ids[SuccessorIndex(ids, cursor)], x) < Ahead(universe, cursor, x)
  {
    LessIsStrictTotalOrder();
    var s := SuccessorIndex(ids, cursor);
    var y := ids[s];
    var at :| 0 <= at < |ids| && ids[at] == x;
    if Less(cursor, x) {
      assert cursor == "" || s == Search(ids, cursor);
      assert s < at;
      assert Less(y, x) && Less(cursor, y);
    } else {
      assert cursor != "";
      if Search(ids, cursor) == |ids| {
        assert s == 0 && Less(y, x);
      }
    }
    assert y in Ahead(universe, cursor, x) && y !in Ahead(universe, y, x);
  }

  lemma SubsetIsSmaller<T>(a: set<T>, b: set<T>)
    requires a <= b
    ensures |a| <= |b|
    ensures a < b ==> |a| < |b|
  {
    assert b == a + (b - a);
  }

  lemma {:induction false} ReachedWithin(rounds: seq<seq<string>>, universe: set<string>, cursor: string, x: string)
    requires |Ahead(universe, cursor, x)| <= |rounds|
    requires forall k :: 0 <= k < |rounds| ==>
      Sorted(rounds[k]) && x in rounds[k] && forall id :: id in rounds[k] ==> id in universe
    requires x in universe
    ensures exists k :: 0 <= k < |Ahead(universe, cursor, x)| && k < |rounds| && PickAt(rounds, cursor, k) == x
    decreases |rounds|
  {
    assert x in Ahead(universe, cursor, x) by { LessIsStrictTotalOrder(); }
    SubsetIsSmaller({x}, Ahead(universe, cursor, x));
    var y := PickAt(rounds, cursor, 0);
    if y != x {
      PickMovesCloser(rounds[0], universe, cursor, x);
      SubsetIsSmaller(Ahead(universe, y, x), Ahead(universe, cursor, x));
      ReachedWithin(rounds[1..], universe, y, x);
      var k :| 0 <= k < |Ahead(universe, y, x)| && k < |rounds[1..]| && PickAt(rounds[1..], y, k) == x;
      PickShift(rounds, cursor, k);
      assert PickAt(rounds, cursor, k + 1) == x;
    }
  }

  lemma {:induction false} PickShift(rounds: seq<seq<string>>, cursor: string, k: nat)
    requires k + 1 < |rounds| && forall j :: 0 <= j <= k + 1 ==> rounds[j] != []
    ensures PickAt(rounds[1..], PickAt(rounds, cursor, 0), k) == PickAt(rounds, cursor, k + 1)
  {
    if k > 0 { PickShift(rounds, cursor, k - 1); }
  }

  /** An account that stays a candidate is picked within N picks, N being the number of
      distinct IDs ever seen, whatever the other candidates do in the meantime. */
  lemma NeverStarves(rounds: seq<seq<string>>, universe: set<string>, cursor: string, x: string)
    requires |rounds| == |universe| && x in universe
    requires forall k :: 0 <= k < |rounds| ==>
      Sorted(rounds[k]) && x in rounds[k] && forall id :: id in rounds[k] ==> id in universe
    ensures exists k :: 0 <= k < |universe| && PickAt(rounds, cursor, k) == x
  {
    SubsetIsSmaller(Ahead(universe, cursor, x), universe);
    ReachedWithin(rounds, universe, cursor, x);
  }

  // ---------------------------------------------------------------- fixed candidates

  lemma SuccessorOfMember(ids: seq<string>, i: nat)
    requires Sorted(ids) && i < |ids|
    ensures SuccessorIndex(ids, ids[i]) == if i + 1 == |ids| then 0 else i + 1
  {
    LessIsStrictTotalOrder();
    assert ids[i] in ids;
    var s := Search(ids, ids[i]);
    assert i + 1 < |ids| ==> Less(ids[i], ids[i + 1]);
    assert forall j :: 0 <= j < i ==> Less(ids[j], ids[i]);
  }

  function Wrap(at: nat, n: nat): (r: nat)
    requires at < 2 * n
    ensures r < n
  {
    if at < n then at else at - n
  }

  /** Position of pick `k` when every pick sees the same list. */
  function Rotation(ids: seq<string>, cursor: string, k: nat): (i: nat)
    requires ids != []
    ensures i < |ids|
  {
    SuccessorIndex(ids, if k == 0 then cursor else ids[Rotation(ids, cursor, k - 1)])
  }

  lemma {:induction false} FixedPicks(ids: seq<string>, rounds: seq<seq<string>>, cursor: string, k: nat)
    requires ids != [] && k < |rounds| && forall j :: 0 <= j <= k ==> rounds[j] == ids
    ensures PickAt(rounds, cursor, k) == ids[Rotation(ids, cursor, k)]
  {
    if k > 0 { FixedPicks(ids, rounds, cursor, k - 1); }
  }

  /** Over a fixed set the picks walk the sorted list cyclically from wherever they start. */
  lemma {:induction false} WalksCyclically(ids: seq<string>, cursor: string, k: nat)
    requires Sorted(ids) && k < |ids|
    ensures Rotation(ids, cursor, k) == Wrap(SuccessorIndex(ids, cursor) + k, |ids|)
  {
    if k > 0 {
      WalksCyclically(ids, cursor, k - 1);
      SuccessorOfMember(ids, Rotation(ids, cursor, k - 1));
    }
  }

  lemma SortedIsInjective(ids: seq<string>, i: nat, j: nat)
    requires Sorted(ids) && i < |ids| && j < |ids| && i != j
    ensures ids[i] != ids[j]
  {
    LessIrreflexive(ids[i]);
    assert Less(ids[i], ids[j]) || Less(ids[j], ids[i]);
  }

  /** Some pick among the first n goes to `id`. */
  ghost predicate Visits(ids: seq<string>, cursor: string, id: string)
    requires ids != []
  {
    exists k :: 0 <= k < |ids| && ids[Rotation(ids, cursor, k)] == id
  }

  lemma EachIsVisited(ids: seq<string>, cursor: string, i: nat)
    requires Sorted(ids) && i < |ids|
    ensures Visits(ids, cursor, ids[i])
  {
    var s := SuccessorIndex(ids, cursor);
    var k := if s <= i then i - s else i - s + |ids|;
    WalksCyclically(ids, cursor, k);
    assert Rotation(ids, cursor, k) == i;
  }

  /** With a fixed set of n accounts any n consecutive picks visit each exactly once, from any
      cursor, whether or not the cursor's account is still in the set. */
  lemma VisitsEachOnce(ids: seq<string>, cursor: string)
    requires Sorted(ids) && ids != []
    ensures forall id :: id in ids ==> Visits(ids, cursor, id)
    ensures forall j, k :: 0 <= j < k < |ids| ==>
      ids[Rotation(ids, cursor, j)] != ids[Rotation(ids, cursor, k)]
  {
    forall id | id in ids ensures Visits(ids, cursor, id) {
      var i :| 0 <= i < |ids| && ids[i] == id;
      EachIsVisited(ids, cursor, i);
    }
    forall j, k | 0 <= j < k < |ids|
      ensures ids[Rotation(ids, cursor, j)] != ids[Rotation(ids, cursor, k)]
    {
      WalksCyclically(ids, cursor, j);
      WalksCyclically(ids, cursor, k);
      SortedIsInjective(ids, Rotation(ids, cursor, j), Rotation(ids, cursor, k));
    }
  }
}
