/** Weighted scheduling over whole runs of `PickRoute`: as long as a route's finalists stay the same,
    every window of W consecutive calls serves each account exactly as often as its weight. */
module WeightedRuns {
  import opened Items
  import opened Routing
  import opened Fairness
  import SW = SmoothWeighted
  import opened Strings

  ghost function FinalistsOf(c: Call): (r: seq<Item>)
    requires Available(c.items, c.query, c.now) != []
    ensures r != []
  {
    Finalists(Available(c.items, c.query, c.now), Weighted, c.memory, c.query, c.now)
  }

  /** The candidates are the items, each at its own weight. */
  ghost predicate HaveWeights(items: seq<Item>, cands: seq<SW.Candidate>) {
    && |cands| == |items|
    && forall i :: 0 <= i < |items| ==>
         cands[i].id == items[i].id &&
         cands[i].weight == if 1 <= items[i].weight <= 100 then items[i].weight else 50
  }

  /** The call weighs the candidates `cands` on route `key`. */
  ghost predicate Weighs(c: Call, key: string, cands: seq<SW.Candidate>) {
    && DistinctIds(c.items) && Schedules(c, Weighted, key)
    && !Uniform(FinalistsOf(c)) && HaveWeights(FinalistsOf(c), cands)
  }

  /** Consecutive calls on one route over the same candidates; in between nothing touches the route's
      counters. */
  ghost predicate WeightedRun(calls: seq<Call>, key: string, cands: seq<SW.Candidate>) {
    && (forall k :: 0 <= k < |calls| ==> Weighs(calls[k], key, cands))
    && (forall k :: 0 <= k < |calls| - 1 ==>
          CountersOf(calls[k + 1].memory, key) == CountersOf(Outcome(calls[k], Weighted).1, key))
  }

  lemma WeighedAreDistinct(c: Call, key: string, cands: seq<SW.Candidate>)
    requires Weighs(c, key, cands)
    ensures cands != [] && SW.DistinctIds(cands) && |FinalistsOf(c)| == |cands|
    ensures forall i :: 0 <= i < |cands| ==> cands[i].id == FinalistsOf(c)[i].id && cands[i].weight >= 1
  {
    var finalists := FinalistsOf(c);
    FinalistsAreSorted(c.items, Weighted, c.memory, c.query, c.now);
    forall i, j | 0 <= i < j < |cands| ensures cands[i].id != cands[j].id {
      assert Less(Ids(finalists)[i], Ids(finalists)[j]);
      LessIrreflexive(cands[i].id);
    }
  }

  /** One call serves the winner and charges the route's counters. */
  lemma CallFollowsWeights(c: Call, key: string, cands: seq<SW.Candidate>)
    requires Weighs(c, key, cands) && cands != []
    ensures Serves(c, Weighted, cands[SW.Winner(CountersOf(c.memory, key), cands)].id)
    ensures CountersOf(Outcome(c, Weighted).1, key) == SW.Charge(CountersOf(c.memory, key), cands)
  {
    WeighedAreDistinct(c, key, cands);
    var finalists := FinalistsOf(c);
    assert Weigh(finalists) == cands;
    var picked := finalists[ChosenIndex(finalists, Weighted, c.memory, key)];
    assert Outcome(c, Weighted) == (Some(picked), Remember(finalists, Weighted, c.memory, key, picked));
  }

  ghost predicate NoDebt(m: SW.Counters, cands: seq<SW.Candidate>) {
    forall i :: 0 <= i < |cands| ==> SW.Count(m, cands[i].id) == 0
  }

  ghost function Starts(calls: seq<Call>, key: string): (r: seq<SW.Counters>)
    ensures |r| == |calls| && forall k :: 0 <= k < |calls| ==> r[k] == CountersOf(calls[k].memory, key)
  {
    seq(|calls|, k requires 0 <= k < |calls| => CountersOf(calls[k].memory, key))
  }

  lemma {:induction false} LinkedCharges(starts: seq<SW.Counters>, cands: seq<SW.Candidate>, t: nat)
    requires t < |starts| && cands != []
    requires forall k :: 0 < k < |starts| ==> starts[k] == SW.Charge(starts[k - 1], cands)
    ensures starts[t] == SW.ChargeTimes(starts[0], cands, t)
  {
    if t > 0 { LinkedCharges(starts, cands, t - 1); }
  }

  lemma RunIsLinked(calls: seq<Call>, key: string, cands: seq<SW.Candidate>, k: nat)
    requires WeightedRun(calls, key, cands) && 0 < k < |calls| && cands != []
    ensures CountersOf(calls[k].memory, key) == SW.Charge(CountersOf(calls[k - 1].memory, key), cands)
  {
    CallFollowsWeights(calls[k - 1], key, cands);
    assert calls[k - 1 + 1] == calls[k];
  }

  /** Call `t` of a run starts from the counters of `t` charges. */
  lemma RunCharges(calls: seq<Call>, key: string, cands: seq<SW.Candidate>, t: nat)
    requires WeightedRun(calls, key, cands) && t < |calls| && cands != []
    ensures CountersOf(calls[t].memory, key) == SW.ChargeTimes(CountersOf(calls[0].memory, key), cands, t)
  {
    var starts := Starts(calls, key);
    forall k | 0 < k < |starts| ensures starts[k] == SW.Charge(starts[k - 1], cands) {
      RunIsLinked(calls, key, cands, k);
    }
    LinkedCharges(starts, cands, t);
  }

  /** Call `t` of a run that starts without debt serves what the abstract recurrence picks. */
  lemma RunFollowsWeights(calls: seq<Call>, key: string, cands: seq<SW.Candidate>, t: nat)
    requires WeightedRun(calls, key, cands) && t < |calls| && cands != [] &&
      NoDebt(CountersOf(calls[0].memory, key), cands)
    ensures Serves(calls[t], Weighted, cands[SW.Pick(SW.Weights(cands), SW.Sum(SW.Weights(cands)), t)].id)
  {
    WeighedAreDistinct(calls[0], key, cands);
    RunCharges(calls, key, cands, t);
    SW.FixedSetFollowsWeights(CountersOf(calls[0].memory, key), cands, t);
    CallFollowsWeights(calls[t], key, cands);
  }

  /** Which of the calls serve account `id`, and how many from `lo` up to `hi` do. */
  ghost function Hits(calls: seq<Call>, id: string): (r: seq<bool>)
    ensures |r| == |calls| && forall k :: 0 <= k < |calls| ==> r[k] == Serves(calls[k], Weighted, id)
  {
    seq(|calls|, k requires 0 <= k < |calls| => Serves(calls[k], Weighted, id))
  }

  function Trues(hits: seq<bool>, lo: nat, hi: nat): nat
    requires lo <= hi <= |hits|
  {
    if lo == hi then 0 else Trues(hits, lo, hi - 1) + if hits[hi - 1] then 1 else 0
  }

  ghost function ServedTimes(calls: seq<Call>, id: string, lo: nat, hi: nat): nat
    requires lo <= hi <= |calls|
  {
    Trues(Hits(calls, id), lo, hi)
  }

  lemma ServesExactly(calls: seq<Call>, key: string, cands: seq<SW.Candidate>, i: nat, t: nat)
    requires WeightedRun(calls, key, cands) && t < |calls| && i < |cands|
    requires NoDebt(CountersOf(calls[0].memory, key), cands)
    ensures Serves(calls[t], Weighted, cands[i].id) <==> SW.Pick(SW.Weights(cands), SW.Sum(SW.Weights(cands)), t) == i
  {
    RunFollowsWeights(calls, key, cands, t);
    WeighedAreDistinct(calls[0], key, cands);
  }

  lemma {:induction false} HitsAsPicked(hits: seq<bool>, w: seq<int>, total: int, i: nat, lo: nat, hi: nat)
    requires lo <= hi <= |hits| && w != []
    requires forall k :: 0 <= k < |hits| ==> (hits[k] <==> SW.Pick(w, total, k) == i)
    ensures Trues(hits, lo, hi) == SW.Times(w, total, i, lo, hi)
  {
    if lo < hi { HitsAsPicked(hits, w, total, i, lo, hi - 1); }
  }

  lemma WeightsAreFixed(cands: seq<SW.Candidate>)
    requires cands != [] && forall i :: 0 <= i < |cands| ==> cands[i].weight >= 1
    ensures SW.Fixed(SW.Weights(cands), SW.Sum(SW.Weights(cands)))
  {
    PositiveSum(SW.Weights(cands));
  }

  lemma {:induction false} PositiveSum(w: seq<int>)
    requires forall i :: 0 <= i < |w| ==> w[i] >= 1
    ensures SW.Sum(w) >= |w|
  {
    if w != [] {
      var n := |w| - 1;
      PositiveSum(w[..n]);
      assert w == w[..n] + [w[n]];
    }
  }

  lemma ShareOfWindow(cands: seq<SW.Candidate>, i: nat, t: nat, total: nat)
    requires i < |cands| && total == SW.Sum(SW.Weights(cands)) && forall j :: 0 <= j < |cands| ==> cands[j].weight >= 1
    ensures SW.Times(SW.Weights(cands), total, i, t, t + total) == cands[i].weight
  {
    WeightsAreFixed(cands);
    SW.EveryWindowIsProportional(SW.Weights(cands), total, t, i);
  }

  lemma RunHasWeights(calls: seq<Call>, key: string, cands: seq<SW.Candidate>)
    requires WeightedRun(calls, key, cands) && calls != []
    ensures forall j :: 0 <= j < |cands| ==> cands[j].weight >= 1
  {
    WeighedAreDistinct(calls[0], key, cands);
  }

  lemma HitsByWeight(hits: seq<bool>, cands: seq<SW.Candidate>, i: nat, t: nat, total: nat)
    requires i < |cands| && total == SW.Sum(SW.Weights(cands)) && t + total <= |hits|
    requires forall j :: 0 <= j < |cands| ==> cands[j].weight >= 1
    requires forall k :: 0 <= k < |hits| ==> (hits[k] <==> SW.Pick(SW.Weights(cands), total, k) == i)
    ensures Trues(hits, t, t + total) == cands[i].weight
  {
    HitsAsPicked(hits, SW.Weights(cands), total, i, t, t + total);
    ShareOfWindow(cands, i, t, total);
  }

  /** Every window of W consecutive calls serves account `i` exactly w_i times, W being the total weight
      of the finalists. */
  lemma EveryWindowServesByWeight(calls: seq<Call>, key: string, cands: seq<SW.Candidate>, i: nat, t: nat, total: nat)
    requires WeightedRun(calls, key, cands) && i < |cands| && total == SW.Sum(SW.Weights(cands)) && t + total <= |calls|
    requires calls != [] && NoDebt(CountersOf(calls[0].memory, key), cands)
    ensures ServedTimes(calls, cands[i].id, t, t + total) == cands[i].weight
  {
    var hits := Hits(calls, cands[i].id);
    forall k | 0 <= k < |hits| ensures hits[k] <==> SW.Pick(SW.Weights(cands), total, k) == i {
      ServesExactly(calls, key, cands, i, k);
    }
    RunHasWeights(calls, key, cands);
    HitsByWeight(hits, cands, i, t, total);
  }
}
