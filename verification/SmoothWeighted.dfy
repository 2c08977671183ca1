/** Smooth weighted round-robin: the running counters of one route, what one pick
    does to them, and what any number of picks over a fixed candidate set adds up to. */
module SmoothWeighted {

  datatype Candidate = Candidate(id: string, weight: nat)

  type Counters = map<string, int>

  function Count(m: Counters, id: string): int {
    if id in m then m[id] else 0
  }

  function Sum(s: seq<int>): int {
    if s == [] then 0 else Sum(s[..|s| - 1]) + s[|s| - 1]
  }

  function Weights(cands: seq<Candidate>): seq<int> {
    seq(|cands|, i requires 0 <= i < |cands| => cands[i].weight)
  }

  ghost predicate DistinctIds(cands: seq<Candidate>) {
    forall i, j :: 0 <= i < j < |cands| ==> cands[i].id != cands[j].id
  }

  /** The counters after the first `k` candidates were credited with their weight. */
  function Credit(m: Counters, cands: seq<Candidate>, k: nat): Counters
    requires k <= |cands|
  {
    if k == 0 then m
    else
      var before := Credit(m, cands, k - 1);
      before[cands[k - 1].id := Count(before, cands[k - 1].id) + cands[k - 1].weight]
  }

  /** Position of the first largest value. */
  function FirstMax(s: seq<int>): (b: nat)
    requires s != []
    ensures b < |s|
    ensures forall j :: 0 <= j < |s| ==> s[j] <= s[b]
    ensures forall j :: 0 <= j < b ==> s[j] < s[b]
  {
    if |s| == 1 then 0
    else
      var b := FirstMax(s[..|s| - 1]);
      if s[|s| - 1] > s[b] then |s| - 1 else b
  }

  /** The candidates' counters, in candidate order. */
  function View(m: Counters, cands: seq<Candidate>): seq<int> {
    seq(|cands|, i requires 0 <= i < |cands| => Count(m, cands[i].id))
  }

  function Winner(m: Counters, cands: seq<Candidate>): (b: nat)
    requires cands != []
    ensures b < |cands|
  {
    FirstMax(View(Credit(m, cands, |cands|), cands))
  }

  /** One pick: credit every candidate, then charge the winner the whole total. */
  function Charge(m: Counters, cands: seq<Candidate>): Counters
    requires cands != []
  {
    var credited := Credit(m, cands, |cands|);
    var id := cands[Winner(m, cands)].id;
    credited[id := Count(credited, id) - Sum(Weights(cands))]
  }

  // ---------------------------------------------------------------- conservation

  /** Sum of every counter the route has ever held, candidates or not. */
  ghost function Total(m: Counters): int {
    if m == map[] then 0 else
      var k :| k in m;
      m[k] + Total(m - {k})
  }

  lemma {:induction false} TotalRemove(m: Counters, k: string)
    requires k in m
    ensures Total(m) == m[k] + Total(m - {k})
    decreases |m|
  {
    var j :| j in m && Total(m) == m[j] + Total(m - {j});
    if j != k {
      TotalRemove(m - {j}, k);
      TotalRemove(m - {k}, j);
      assert m - {j} - {k} == m - {k} - {j};
    }
  }

  lemma TotalUpdate(m: Counters, k: string, v: int)
    ensures Total(m[k := v]) == Total(m) - Count(m, k) + v
  {
    TotalRemove(m[k := v], k);
    if k in m {
      TotalRemove(m, k);
      assert m[k := v] - {k} == m - {k};
    } else {
      assert m[k := v] - {k} == m;
    }
  }

  lemma {:induction false} CreditTotal(m: Counters, cands: seq<Candidate>, k: nat)
    requires k <= |cands|
    ensures Total(Credit(m, cands, k)) == Total(m) + Sum(Weights(cands)[..k])
  {
    if k > 0 {
      CreditTotal(m, cands, k - 1);
      var before := Credit(m, cands, k - 1);
      TotalUpdate(before, cands[k - 1].id, Count(before, cands[k - 1].id) + cands[k - 1].weight);
      assert Weights(cands)[..k][..k - 1] == Weights(cands)[..k - 1];
    }
  }

  /** A pick moves weight between counters and never creates any, whichever candidates
      happen to be in the set this time: a route whose counters sum to zero keeps doing so. */
  lemma ChargeConservesTotal(m: Counters, cands: seq<Candidate>)
    requires cands != []
    ensures Total(Charge(m, cands)) == Total(m)
  {
    CreditTotal(m, cands, |cands|);
    assert Weights(cands)[..|cands|] == Weights(cands);
    var credited := Credit(m, cands, |cands|);
    var id := cands[Winner(m, cands)].id;
    TotalUpdate(credited, id, Count(credited, id) - Sum(Weights(cands)));
  }

  // ---------------------------------------------------------------- fixed candidates

  function Add(a: seq<int>, b: seq<int>): seq<int>
    requires |a| == |b|
  {
    seq(|a|, i requires 0 <= i < |a| => a[i] + b[i])
  }

  /** `total` is the candidates' total weight. */
  function Next(c: seq<int>, w: seq<int>, total: int): (c': seq<int>)
    requires |c| == |w| > 0
    ensures |c'| == |w|
  {
    var a := Add(c, w);
    a[FirstMax(a) := a[FirstMax(a)] - total]
  }

  /** Counters after `t` picks from zero. */
  function After(w: seq<int>, total: int, t: nat): (c: seq<int>)
    requires w != []
    ensures |c| == |w|
  {
    if t == 0 then seq(|w|, i => 0) else Next(After(w, total, t - 1), w, total)
  }

  /** The candidate chosen by pick number `t` (from zero). */
  function Pick(w: seq<int>, total: int, t: nat): (b: nat)
    requires w != []
    ensures b < |w|
  {
    FirstMax(Add(After(w, total, t), w))
  }

  /** How often candidate `i` was chosen by picks `lo` up to `hi`, exclusive. */
  function Times(w: seq<int>, total: int, i: nat, lo: nat, hi: nat): nat
    requires w != [] && lo <= hi
  {
    if lo == hi then 0
    else Times(w, total, i, lo, hi - 1) + if Pick(w, total, hi - 1) == i then 1 else 0
  }

  /** Every weight is at least one, as `NormalizeWeight` guarantees, and `total` is their sum. */
  ghost predicate Fixed(w: seq<int>, total: int) {
    w != [] && (forall i :: 0 <= i < |w| ==> w[i] >= 1) && total == Sum(w) && total > 0
  }

  lemma {:induction false} SumUpdate(s: seq<int>, i: nat, v: int)
    requires i < |s|
    ensures Sum(s[i := v]) == Sum(s) - s[i] + v
  {
    var n := |s| - 1;
    if i < n {
      SumUpdate(s[..n], i, v);
      assert s[i := v][..n] == s[..n][i := v];
    } else {
      assert s[i := v][..n] == s[..n];
    }
  }

  lemma {:induction false} SumAdd(a: seq<int>, b: seq<int>)
    requires |a| == |b|
    ensures Sum(Add(a, b)) == Sum(a) + Sum(b)
  {
    if a != [] {
      var n := |a| - 1;
      SumAdd(a[..n], b[..n]);
      assert Add(a, b)[..n] == Add(a[..n], b[..n]);
    }
  }

  lemma {:induction false} SumZeros(n: nat)
    ensures Sum(seq(n, i => 0)) == 0
  {
    if n > 0 {
      SumZeros(n - 1);
      assert seq(n, i => 0)[..n - 1] == seq(n - 1, i => 0);
    }
  }

  lemma {:induction false} SumNotPositive(s: seq<int>)
    requires forall i :: 0 <= i < |s| ==> s[i] <= 0
    ensures Sum(s) <= 0
  {
    if s != [] { SumNotPositive(s[..|s| - 1]); }
  }

  /** The counters sum to zero after every pick. */
  lemma {:induction false} CountersSumToZero(w: seq<int>, total: int, t: nat)
    requires w != [] && total == Sum(w)
    ensures Sum(After(w, total, t)) == 0
  {
    if t == 0 {
      SumZeros(|w|);
    } else {
      CountersSumToZero(w, total, t - 1);
      NextConservesSum(After(w, total, t - 1), w, total);
    }
  }

  lemma Pay(a: seq<int>, b: nat, total: int)
    requires b < |a|
    ensures Sum(a[b := a[b] - total]) == Sum(a) - total
  {
    SumUpdate(a, b, a[b] - total);
  }

  lemma NextConservesSum(c: seq<int>, w: seq<int>, total: int)
    requires |c| == |w| > 0 && total == Sum(w)
    ensures Sum(Next(c, w, total)) == Sum(c)
  {
    var a := Add(c, w);
    SumAdd(c, w);
    Pay(a, FirstMax(a), total);
  }

  lemma WinnerIsPositive(c: seq<int>, w: seq<int>)
    requires |c| == |w| > 0 && Sum(c) == 0 && Sum(w) > 0
    ensures var a := Add(c, w); a[FirstMax(a)] > 0
  {
    var a := Add(c, w);
    SumAdd(c, w);
    if a[FirstMax(a)] <= 0 { SumNotPositive(a); }
  }

  lemma NextStaysAbove(c: seq<int>, w: seq<int>, total: int, i: nat)
    requires |c| == |w| > 0 && Sum(c) == 0 && total == Sum(w) > 0 && i < |w| && c[i] > -total && w[i] >= 1
    ensures Next(c, w, total)[i] > -total
  {
    WinnerIsPositive(c, w);
  }

  /** No counter ever falls to minus the total weight. */
  lemma {:induction false} CountersStayAboveMinusTotal(w: seq<int>, total: int, t: nat, i: nat)
    requires Fixed(w, total) && i < |w|
    ensures After(w, total, t)[i] > -total
  {
    if t > 0 {
      CountersStayAboveMinusTotal(w, total, t - 1, i);
      CountersSumToZero(w, total, t - 1);
      NextStaysAbove(After(w, total, t - 1), w, total, i);
    }
  }

  lemma Distribute(a: int, b: int, c: int)
    ensures a * (b + c) == a * b + a * c
    ensures (b + c) * a == b * a + c * a
  {}

  lemma DebtStep(before: int, weight: int, total: int, t: nat, n: nat, won: nat)
    requires t > 0 && won <= 1 && before == (t - 1) * weight - total * n
    ensures before + weight - (if won == 1 then total else 0) == t * weight - total * (n + won)
  {
    Distribute(weight, t - 1, 1);
    Distribute(total, n, won);
  }

  /** A counter records exactly how far a candidate is from its proportional share. */
  lemma {:induction false} CounterIsDebt(w: seq<int>, total: int, t: nat, i: nat)
    requires w != [] && i < |w|
    ensures After(w, total, t)[i] == t * w[i] - total * Times(w, total, i, 0, t)
  {
    if t > 0 {
      CounterIsDebt(w, total, t - 1, i);
      var before, n := After(w, total, t - 1)[i], Times(w, total, i, 0, t - 1);
      var won: nat := if Pick(w, total, t - 1) == i then 1 else 0;
      assert After(w, total, t)[i] == before + w[i] - if won == 1 then total else 0;
      assert Times(w, total, i, 0, t) == n + won;
      DebtStep(before, w[i], total, t, n, won);
    }
  }

  /** In `t` picks candidate `i` is chosen fewer than t*w_i/W + 1 times. */
  lemma UpperQuota(w: seq<int>, total: int, t: nat, i: nat)
    requires Fixed(w, total) && i < |w|
    ensures total * Times(w, total, i, 0, t) < t * w[i] + total
  {
    CountersStayAboveMinusTotal(w, total, t, i);
    CounterIsDebt(w, total, t, i);
  }

  lemma {:induction false} SumDominates(a: seq<int>, b: seq<int>)
    requires |a| == |b|
    requires forall j :: 0 <= j < |a| ==> a[j] >= b[j]
    ensures Sum(a) >= Sum(b)
  {
    if a != [] { SumDominates(a[..|a| - 1], b[..|b| - 1]); }
  }

  /** Termwise at least, with the same sum, means termwise equal. */
  lemma {:induction false} EqualWhenSumsAgree(a: seq<int>, b: seq<int>, i: nat)
    requires |a| == |b| && i < |a|
    requires forall j :: 0 <= j < |a| ==> a[j] >= b[j]
    requires Sum(a) == Sum(b)
    ensures a[i] == b[i]
  {
    var n := |a| - 1;
    SumDominates(a[..n], b[..n]);
    if i < n { EqualWhenSumsAgree(a[..n], b[..n], i); }
  }

  /** A difference of multiples of `total` above minus `total` is not negative. */
  lemma MultipleNotNegative(total: int, x: int, y: int)
    requires total > 0 && total * x - total * y > -total
    ensures x >= y
  {
    if x < y { MulAtMost(total, x + 1, y); }
  }

  lemma MulAtMost(total: int, x: int, y: int)
    requires total > 0 && x <= y
    ensures total * x <= total * y
    ensures total * (x - 1) == total * x - total
  {}

  lemma MulMonotone(total: int, x: int, y: int)
    requires total > 0 && x >= y
    ensures total * x >= total * y
  {}

  lemma BlockLeavesNoDebt(w: seq<int>, total: nat, i: nat)
    requires Fixed(w, total) && i < |w|
    ensures After(w, total, total)[i] >= 0
  {
    CountersStayAboveMinusTotal(w, total, total, i);
    CounterIsDebt(w, total, total, i);
    var n := Times(w, total, i, 0, total);
    MultipleNotNegative(total, w[i], n);
    MulMonotone(total, w[i], n);
  }

  /** After W picks every counter is back at zero. */
  lemma BlockReturnsToZero(w: seq<int>, total: nat)
    requires Fixed(w, total)
    ensures After(w, total, total) == After(w, total, 0)
  {
    var c := After(w, total, total);
    var zero := After(w, total, 0);
    CountersSumToZero(w, total, total);
    SumZeros(|w|);
    forall i | 0 <= i < |w| ensures c[i] >= zero[i] {
      BlockLeavesNoDebt(w, total, i);
    }
    forall i | 0 <= i < |w| ensures c[i] == zero[i] {
      EqualWhenSumsAgree(c, zero, i);
    }
  }

  /** Equal states have equal futures. */
  lemma {:induction false} SameFuture(state: nat -> seq<int>, step: seq<int> -> seq<int>, a: nat, b: nat, n: nat)
    requires state(a) == state(b) && forall k: nat :: k > 0 ==> state(k) == step(state(k - 1))
    ensures state(a + n) == state(b + n)
  {
    if n > 0 { SameFuture(state, step, a, b, n - 1); }
  }

  /** From any point on, the counters repeat every W picks. */
  lemma CountersArePeriodic(w: seq<int>, total: nat, t: nat, later: nat)
    requires Fixed(w, total) && later == t + total
    ensures After(w, total, later) == After(w, total, t)
  {
    BlockReturnsToZero(w, total);
    var step := (c: seq<int>) => if |c| == |w| then Next(c, w, total) else c;
    SameFuture((k: nat) => After(w, total, k), step, total, 0, t);
  }

  lemma {:induction false} TimesSplit(w: seq<int>, total: int, i: nat, lo: nat, mid: nat, hi: nat)
    requires w != [] && lo <= mid <= hi
    ensures Times(w, total, i, lo, hi) == Times(w, total, i, lo, mid) + Times(w, total, i, mid, hi)
  {
    if mid < hi { TimesSplit(w, total, i, lo, mid, hi - 1); }
  }

  /** Equal debts before and after `total` picks mean `n` of them went to weight `x`. */
  lemma EqualDebts(total: int, t: int, x: int, n0: int, n: int, n1: int, debt: int)
    requires total > 0 && n1 == n0 + n
    requires debt == t * x - total * n0
    requires debt == (t + total) * x - total * n1
    ensures n == x
  {
    Distribute(x, t, total);
    Distribute(total, n0, n);
    MultipleNotNegative(total, n, x);
    MultipleNotNegative(total, x, n);
  }

  /** Every window of W consecutive picks, wherever it starts, chooses candidate `i`
      exactly w_i times: load is proportional and no candidate waits W picks. */
  lemma EveryWindowIsProportional(w: seq<int>, total: nat, t: nat, i: nat)
    requires Fixed(w, total) && i < |w|
    ensures Times(w, total, i, t, t + total) == w[i]
  {
    var end := t + total;
    var n0, n, n1 := Times(w, total, i, 0, t), Times(w, total, i, t, end), Times(w, total, i, 0, end);
    var debt := After(w, total, t)[i];
    assert n1 == n0 + n by { TimesSplit(w, total, i, 0, t, end); }
    assert debt == t * w[i] - total * n0 by { CounterIsDebt(w, total, t, i); }
    assert debt == end * w[i] - total * n1 by {
      CounterIsDebt(w, total, end, i);
      CountersArePeriodic(w, total, t, end);
    }
    EqualDebts(total, t, w[i], n0, n, n1, debt);
  }

  // ---------------------------------------------------------------- counters in the map

  lemma {:induction false} CreditAt(m: Counters, cands: seq<Candidate>, k: nat, id: string)
    requires k <= |cands| && DistinctIds(cands)
    ensures forall j :: 0 <= j < |cands| && cands[j].id == id ==>
      Count(Credit(m, cands, k), id) == Count(m, id) + if j < k then cands[j].weight else 0
    ensures (forall j :: 0 <= j < k ==> cands[j].id != id) ==> Count(Credit(m, cands, k), id) == Count(m, id)
  {
    if k > 0 {
      CreditAt(m, cands, k - 1, id);
    }
  }

  lemma CreditedView(m: Counters, cands: seq<Candidate>)
    requires DistinctIds(cands)
    ensures View(Credit(m, cands, |cands|), cands) == Add(View(m, cands), Weights(cands))
  {
    var credited := Credit(m, cands, |cands|);
    forall j | 0 <= j < |cands|
      ensures Count(credited, cands[j].id) == Count(m, cands[j].id) + cands[j].weight
    {
      CreditAt(m, cands, |cands|, cands[j].id);
    }
  }

  /** The counter of candidate `i` after crediting, when every earlier one has been credited. */
  lemma CreditedOne(m: Counters, cands: seq<Candidate>, i: nat)
    requires DistinctIds(cands) && i < |cands|
    ensures Count(Credit(m, cands, i), cands[i].id) + cands[i].weight == Add(View(m, cands), Weights(cands))[i]
  {
    CreditAt(m, cands, i, cands[i].id);
  }

  lemma FirstMaxIsUnique(s: seq<int>, b: nat)
    requires b < |s|
    requires forall j :: 0 <= j < |s| ==> s[j] <= s[b]
    requires forall j :: 0 <= j < b ==> s[j] < s[b]
    ensures b == FirstMax(s)
  {}

  /** Crediting everybody and debiting the winner is a charge. */
  lemma ChargeIsDebit(m: Counters, cands: seq<Candidate>, credited: Counters, b: nat)
    requires cands != [] && credited == Credit(m, cands, |cands|) && b == Winner(m, cands)
    ensures credited[cands[b].id := Count(credited, cands[b].id) - Sum(Weights(cands))] == Charge(m, cands)
  {}

  /** The crediting loop: every counter grows by its weight while the largest is tracked. */
  method CreditAll(cands: seq<Candidate>, start: Counters) returns (counters: Counters, b: nat)
    requires cands != [] && DistinctIds(cands)
    ensures counters == Credit(start, cands, |cands|)
    ensures b == Winner(start, cands)
  {
    ghost var currents := Add(View(start, cands), Weights(cands));
    counters, b := start, 0;
    var bestCurrent := 0;
    for i := 0 to |cands|
      invariant counters == Credit(start, cands, i)
      invariant i > 0 ==> b < i && bestCurrent == currents[b]
      invariant forall j :: 0 <= j < i ==> currents[j] <= bestCurrent
      invariant i > 0 ==> forall j :: 0 <= j < b ==> currents[j] < bestCurrent
    {
      var current := Count(counters, cands[i].id) + cands[i].weight;
      CreditedOne(start, cands, i);
      counters := counters[cands[i].id := current];
      if i == 0 || current > bestCurrent {
        b, bestCurrent := i, current;
      }
    }
    FirstMaxIsUnique(currents, b);
    CreditedView(start, cands);
  }

  lemma ViewUpdate(m: Counters, cands: seq<Candidate>, i: nat, v: int)
    requires DistinctIds(cands) && i < |cands|
    ensures View(m[cands[i].id := v], cands) == View(m, cands)[i := v]
  {}

  /** On the map kept by the pool, a pick is a `Next` step of the candidates' own counters. */
  lemma ChargeIsNext(m: Counters, cands: seq<Candidate>)
    requires cands != [] && DistinctIds(cands)
    ensures View(Charge(m, cands), cands) == Next(View(m, cands), Weights(cands), Sum(Weights(cands)))
    ensures Winner(m, cands) == FirstMax(Add(View(m, cands), Weights(cands)))
  {
    CreditedView(m, cands);
    var credited := Credit(m, cands, |cands|);
    var b := Winner(m, cands);
    ViewUpdate(credited, cands, b, Count(credited, cands[b].id) - Sum(Weights(cands)));
    assert View(credited, cands)[b] == Count(credited, cands[b].id);
  }

  /** The counter of an account outside the candidate set is left alone. */
  lemma ChargeLeavesOthersAlone(m: Counters, cands: seq<Candidate>, id: string)
    requires cands != [] && DistinctIds(cands)
    requires forall j :: 0 <= j < |cands| ==> cands[j].id != id
    ensures Count(Charge(m, cands), id) == Count(m, id)
  {
    CreditAt(m, cands, |cands|, id);
  }

  /** The route's counters after `t` picks over the same candidates. */
  function ChargeTimes(m: Counters, cands: seq<Candidate>, t: nat): Counters
    requires cands != []
  {
    if t == 0 then m else Charge(ChargeTimes(m, cands, t - 1), cands)
  }

  /** Starting with no debt, repeated picks over a fixed candidate set follow `Pick`, so all
      the bounds above are bounds on what the pool serves. */
  lemma {:induction false} FixedSetFollowsWeights(m: Counters, cands: seq<Candidate>, t: nat)
    requires cands != [] && DistinctIds(cands)
    requires forall j :: 0 <= j < |cands| ==> Count(m, cands[j].id) == 0
    ensures View(ChargeTimes(m, cands, t), cands) == After(Weights(cands), Sum(Weights(cands)), t)
    ensures Winner(ChargeTimes(m, cands, t), cands) == Pick(Weights(cands), Sum(Weights(cands)), t)
  {
    if t == 0 {
      assert View(m, cands) == After(Weights(cands), Sum(Weights(cands)), 0);
    } else {
      FixedSetFollowsWeights(m, cands, t - 1);
      ChargeIsNext(ChargeTimes(m, cands, t - 1), cands);
    }
    ChargeIsNext(ChargeTimes(m, cands, t), cands);
  }
}
