/** What the session cache answers, in terms of the whole history of operations rather than of the
    list it keeps. */
module AffinityHistory {
  import opened Items
  import opened AffinityList

  // ---------------------------------------------------------------- reading the history

  datatype Bound = Bound(account: string, at: Time)

  /** The latest `Bind` of a key, unless a `Forget` came after it. */
  function LastBind(h: History, key: string): Option<Bound> {
    match h
    case Nothing => None
    case Then(earlier, op) =>
      if op.Bind? && op.key == key then Some(Bound(op.account, op.now))
      else if op.Forget? && op.key == key then None
      else LastBind(earlier, key)
  }

  /** The key an operation touches: a binding made, or a lookup that hit. */
  function Touched(s: seq<Binding>, op: Op): Option<string> {
    match op
    case Get(key, now) => if Hits(s, key, now) then Some(key) else None
    case Bind(key, _, _) => Some(key)
    case Forget(_) => None
  }

  /** The other keys touched since `key` was last touched. */
  function TouchedSince(h: History, c: Config, key: string): set<string> {
    match h
    case Nothing => {}
    case Then(earlier, op) =>
      var before := TouchedSince(earlier, c, key);
      match Touched(Run(earlier, c), op)
      case None => before
      case Some(k) => if k == key then {} else before + {k}
  }

  function Clock(op: Op, earlier: Time): Time {
    if op.Forget? then earlier else op.now
  }

  function Latest(h: History): Time {
    match h
    case Nothing => 0
    case Then(earlier, op) => Clock(op, Latest(earlier))
  }

  /** The clock never runs backwards. */
  ghost predicate Timely(h: History) {
    match h
    case Nothing => true
    case Then(earlier, op) => Timely(earlier) && Latest(earlier) <= Clock(op, Latest(earlier))
  }

  // ---------------------------------------------------------------- invariant

  /** The list together with what the history says about every key. */
  datatype View = View(
    s: seq<Binding>,
    last: string -> Option<Bound>,
    since: string -> set<string>,
    latest: Time)

  function ViewOf(h: History, c: Config): View {
    View(Run(h, c), key => LastBind(h, key), key => TouchedSince(h, c, key), Latest(h))
  }

  /** `v'` is `v` after `op`. */
  ghost predicate Follows(v: View, op: Op, v': View, c: Config) {
    && v'.s == Apply(v.s, op, c)
    && v'.latest == Clock(op, v.latest) && v.latest <= v'.latest
    && (forall key :: v'.last(key) ==
          if op.Bind? && op.key == key then Some(Bound(op.account, op.now))
          else if op.Forget? && op.key == key then None else v.last(key))
    && (forall key :: v'.since(key) ==
          match Touched(v.s, op)
          case None => v.since(key)
          case Some(k) => if k == key then {} else v.since(key) + {k})
  }

  function Keys(s: seq<Binding>): (k: set<string>)
    ensures forall key :: key in k <==> exists i :: 0 <= i < |s| && s[i].key == key
  {
    set i | 0 <= i < |s| :: s[i].key
  }

  lemma {:induction false} KeysAreCounted(s: seq<Binding>)
    requires DistinctKeys(s)
    ensures |Keys(s)| == |s|
  {
    if s != [] {
      var n := |s| - 1;
      KeysAreCounted(s[..n]);
      assert Keys(s) == Keys(s[..n]) + {s[n].key};
      assert s[n].key !in Keys(s[..n]);
    }
  }

  /** A kept binding is the latest one of its key. */
  ghost predicate Current(b: Binding, v: View, c: Config) {
    v.last(b.key).Some? && b == Binding(b.key, v.last(b.key).value.account, v.last(b.key).value.at + c.ttl)
  }

  /** Whatever is ahead of a binding was touched after it. */
  ghost predicate InTouchOrder(v: View) {
    forall i, j :: 0 <= i < j < |v.s| ==> v.s[i].key in v.since(v.s[j].key)
  }

  /** A bound key is kept, expired, or pushed out by `capacity` other touched keys. */
  ghost predicate Accounted(v: View, c: Config, key: string) {
    v.last(key).Some? ==>
      IndexOf(v.s, key) < |v.s| || v.last(key).value.at + c.ttl <= v.latest || |v.since(key)| >= c.capacity
  }

  ghost predicate Inv(v: View, c: Config) {
    && 0 < c.capacity && |v.s| <= c.capacity && DistinctKeys(v.s)
    && (forall i :: 0 <= i < |v.s| ==> Current(v.s[i], v, c))
    && InTouchOrder(v)
    && (forall key :: Accounted(v, c, key))
  }

  lemma WithoutKeeps(s: seq<Binding>, i: nat, key: string)
    requires DistinctKeys(s) && i < |s|
    ensures DistinctKeys(Without(s, i))
    ensures IndexOf(Without(s, i), key) < |Without(s, i)| <==> IndexOf(s, key) < |s| && key != s[i].key
  {
    var rest, j := Without(s, i), IndexOf(s, key);
    if j < |s| && j != i {
      assert if j < i then rest[j] == s[j] else rest[j - 1] == s[j];
    }
    var k := IndexOf(rest, key);
    if k < |rest| {
      assert rest[k] == if k < i then s[k] else s[k + 1];
    }
  }

  lemma FrontKeeps(b: Binding, s: seq<Binding>, key: string)
    requires DistinctKeys(s) && IndexOf(s, b.key) == |s|
    ensures DistinctKeys([b] + s)
    ensures IndexOf([b] + s, key) < |s| + 1 <==> key == b.key || IndexOf(s, key) < |s|
  {
    var all, i := [b] + s, IndexOf(s, key);
    assert all[1..] == s;
  }

  lemma GrowingUnion(a: set<string>, k: string)
    ensures |a + {k}| >= |a|
  {
    if k in a { assert a + {k} == a; }
  }

  /** A key that was kept, expired or pushed out stays so unless it leaves the list. */
  lemma StaysAccounted(v: View, op: Op, v': View, c: Config, key: string)
    requires Accounted(v, c, key) && Follows(v, op, v', c)
    requires IndexOf(v.s, key) < |v.s| ==> IndexOf(v'.s, key) < |v'.s|
    requires Touched(v.s, op) == Some(key) || (op.Bind? && op.key == key) ==> IndexOf(v'.s, key) < |v'.s|
    ensures Accounted(v', c, key)
  {
    match Touched(v.s, op)
    case None =>
    case Some(k) => GrowingUnion(v.since(key), k);
  }

  // Nothing changes: a miss, or forgetting an unknown key.

  lemma IdleKeepsInv(v: View, op: Op, v': View, c: Config)
    requires Inv(v, c) && Follows(v, op, v', c) && !op.Bind? && IndexOf(v.s, op.key) == |v.s|
    ensures Inv(v', c)
  {
    forall key ensures Accounted(v', c, key) {
      assert Accounted(v, c, key);
      StaysAccounted(v, op, v', c, key);
    }
    forall i | 0 <= i < |v.s| ensures Current(v.s[i], v', c) { assert Current(v.s[i], v, c); }
  }

  // One binding is dropped: it expired, or it is forgotten.

  ghost predicate Drops(v: View, op: Op, i: nat) {
    i < |v.s| && i == IndexOf(v.s, op.key) && (op.Forget? || (op.Get? && v.s[i].expiresAt <= op.now))
  }

  lemma DropAccountsFor(v: View, op: Op, v': View, c: Config, i: nat, key: string)
    requires Inv(v, c) && Follows(v, op, v', c) && Drops(v, op, i)
    ensures Accounted(v', c, key)
  {
    WithoutKeeps(v.s, i, key);
    assert Accounted(v, c, key);
    if key == op.key {
      assert Current(v.s[i], v, c);
    } else {
      StaysAccounted(v, op, v', c, key);
    }
  }

  /** Position in the old list of entry `j` of the list without `i`. */
  function Before(j: nat, i: nat): nat {
    if j < i then j else j + 1
  }

  lemma DropKeepsPair(v: View, op: Op, v': View, c: Config, i: nat, x: nat, y: nat)
    requires Inv(v, c) && Follows(v, op, v', c) && Drops(v, op, i) && x < y < |v'.s|
    ensures v'.s[x].key in v'.since(v'.s[y].key)
  {
    var p, q := Before(x, i), Before(y, i);
    assert v'.s[x] == v.s[p] && v'.s[y] == v.s[q];
    assert v.s[p].key in v.since(v.s[q].key);
    assert Touched(v.s, op) == None;
  }

  lemma DropKeepsInv(v: View, op: Op, v': View, c: Config, i: nat)
    requires Inv(v, c) && Follows(v, op, v', c) && Drops(v, op, i)
    ensures Inv(v', c)
  {
    WithoutKeeps(v.s, i, "");
    forall key ensures Accounted(v', c, key) { DropAccountsFor(v, op, v', c, i, key); }
    forall j | 0 <= j < |v'.s| ensures Current(v'.s[j], v', c) {
      assert v'.s[j] == v.s[Before(j, i)] && Current(v.s[Before(j, i)], v, c);
    }
    forall x, y | 0 <= x < y < |v'.s| ensures v'.s[x].key in v'.since(v'.s[y].key) {
      DropKeepsPair(v, op, v', c, i, x, y);
    }
  }

  // A kept binding moves to the front: a hit, or a renewed binding.

  ghost predicate Moves(v: View, op: Op, c: Config, i: nat, b: Binding) {
    && i < |v.s| && i == IndexOf(v.s, op.key) && b.key == op.key
    && Touched(v.s, op) == Some(op.key)
    && (op.Get? ==> b == v.s[i]) && (op.Bind? ==> b == Binding(op.key, op.account, op.now + c.ttl))
  }

  lemma MoveAccountsFor(v: View, op: Op, v': View, c: Config, i: nat, b: Binding, key: string)
    requires Inv(v, c) && Follows(v, op, v', c) && Moves(v, op, c, i, b)
    ensures DistinctKeys(v'.s) && Accounted(v', c, key)
  {
    WithoutKeeps(v.s, i, b.key);
    WithoutKeeps(v.s, i, key);
    FrontKeeps(b, Without(v.s, i), key);
    assert Accounted(v, c, key);
    StaysAccounted(v, op, v', c, key);
  }

  lemma MovedList(v: View, op: Op, v': View, c: Config, i: nat, b: Binding)
    requires Follows(v, op, v', c) && Moves(v, op, c, i, b)
    ensures v'.s == [b] + Without(v.s, i)
  {
  }

  lemma MovedAt(s: seq<Binding>, i: nat, b: Binding, j: nat)
    requires i < |s| && 0 < j < |s|
    ensures ([b] + Without(s, i))[j] == s[Before(j - 1, i)]
  {
  }

  lemma TouchedLater(v: View, op: Op, v': View, c: Config, key: string)
    requires Follows(v, op, v', c) && Touched(v.s, op) == Some(op.key) && key != op.key
    ensures v'.since(key) == v.since(key) + {op.key}
  {
  }

  lemma MoveKeepsOrder(v: View, op: Op, v': View, c: Config, i: nat, b: Binding, x: nat, y: nat)
    requires Inv(v, c) && Follows(v, op, v', c) && Moves(v, op, c, i, b) && x < y < |v'.s|
    ensures v'.s[x].key in v'.since(v'.s[y].key)
  {
    var u := Before(y - 1, i);
    MovedList(v, op, v', c, i, b);
    MovedAt(v.s, i, b, y);
    assert v.s[u].key != v.s[i].key;
    TouchedLater(v, op, v', c, v.s[u].key);
    if x > 0 {
      MovedAt(v.s, i, b, x);
      assert v.s[Before(x - 1, i)].key in v.since(v.s[u].key);
    }
  }

  lemma MoveKeepsInv(v: View, op: Op, v': View, c: Config, i: nat, b: Binding)
    requires Inv(v, c) && Follows(v, op, v', c) && Moves(v, op, c, i, b)
    ensures Inv(v', c)
  {
    forall key ensures DistinctKeys(v'.s) && Accounted(v', c, key) { MoveAccountsFor(v, op, v', c, i, b, key); }
    MoveAccountsFor(v, op, v', c, i, b, "");
    assert v'.s == [b] + Without(v.s, i) && Current(v.s[i], v, c);
    forall j | 0 <= j < |v'.s| ensures Current(v'.s[j], v', c) {
      if j > 0 {
        var k := Before(j - 1, i);
        assert v'.s[j] == v.s[k] && Current(v.s[k], v, c) && v.s[k].key != v.s[i].key;
      }
    }
    forall x, y | 0 <= x < y < |v'.s| ensures v'.s[x].key in v'.since(v'.s[y].key) {
      MoveKeepsOrder(v, op, v', c, i, b, x, y);
    }
  }

  // A new binding is pushed in front and the last one may fall off.

  ghost predicate Pushes(v: View, op: Op) {
    op.Bind? && IndexOf(v.s, op.key) == |v.s|
  }

  /** The binding that falls off had every other kept key, and the new one, touched after it. */
  lemma EvictedIsPushedOut(v: View, op: Op, v': View, c: Config)
    requires Inv(v, c) && Follows(v, op, v', c) && Pushes(v, op) && |v.s| == c.capacity
    ensures |v'.since(v.s[|v.s| - 1].key)| >= c.capacity
  {
    var n := |v.s| - 1;
    var evicted := v.s[n].key;
    var front := v.s[..n];
    KeysAreCounted(front);
    assert forall i :: 0 <= i < n ==> front[i] == v.s[i];
    forall k | k in Keys(front) ensures k in v.since(evicted) {
      var i :| 0 <= i < n && front[i].key == k;
      assert v.s[i].key in v.since(evicted);
    }
    var others := Keys(front) + {op.key};
    assert |others| == n + 1;
    assert others <= v'.since(evicted);
    assert v'.since(evicted) == others + (v'.since(evicted) - others);
  }

  lemma PrefixKeeps(s: seq<Binding>, n: nat, key: string)
    requires n <= |s| && IndexOf(s, key) < n
    ensures IndexOf(s[..n], key) < n
  {
    assert s[..n][IndexOf(s, key)].key == key;
  }

  lemma PushKeepsKey(s: seq<Binding>, b: Binding, capacity: nat, key: string)
    requires DistinctKeys(s) && |s| <= capacity && capacity > 0 && IndexOf(s, b.key) == |s|
    requires !(|s| == capacity && IndexOf(s, key) == |s| - 1)
    ensures var s' := AfterBind(s, b, capacity); key == b.key || IndexOf(s, key) < |s| ==> IndexOf(s', key) < |s'|
  {
    var all, s' := [b] + s, AfterBind(s, b, capacity);
    assert all[1..] == s;
    FrontKeeps(b, s, key);
    if IndexOf(all, key) < |s'| { PrefixKeeps(all, |s'|, key); }
  }

  lemma PushAccountsFor(v: View, op: Op, v': View, c: Config, key: string)
    requires Inv(v, c) && Follows(v, op, v', c) && Pushes(v, op)
    ensures Accounted(v', c, key)
  {
    if |v.s| == c.capacity && IndexOf(v.s, key) == |v.s| - 1 {
      EvictedIsPushedOut(v, op, v', c);
    } else {
      var b := Binding(op.key, op.account, op.now + c.ttl);
      assert Accounted(v, c, key) && v'.s == AfterBind(v.s, b, c.capacity);
      assert key == op.key || IndexOf(v.s, key) < |v.s| ==> IndexOf(v'.s, key) < |v'.s| by {
        PushKeepsKey(v.s, b, c.capacity, key);
      }
      StaysAccounted(v, op, v', c, key);
    }
  }

  /** The list after a push: the new binding, then the old ones in order. */
  lemma PushedAt(v: View, op: Op, v': View, c: Config)
    requires DistinctKeys(v.s) && Follows(v, op, v', c) && Pushes(v, op) && 0 < c.capacity && |v.s| <= c.capacity
    ensures |v'.s| <= c.capacity && DistinctKeys(v'.s) && v'.s != []
    ensures v'.s[0] == Binding(op.key, op.account, op.now + c.ttl)
    ensures forall j :: 0 < j < |v'.s| ==> v'.s[j] == v.s[j - 1] && v.s[j - 1].key != op.key
  {
    FrontKeeps(Binding(op.key, op.account, op.now + c.ttl), v.s, "");
  }

  lemma PushKeepsCurrent(v: View, op: Op, v': View, c: Config, j: nat)
    requires Inv(v, c) && Follows(v, op, v', c) && Pushes(v, op) && j < |v'.s|
    ensures Current(v'.s[j], v', c)
  {
    PushedAt(v, op, v', c);
    if j > 0 { assert Current(v.s[j - 1], v, c); }
  }

  lemma PushKeepsPair(v: View, op: Op, v': View, c: Config, x: nat, y: nat)
    requires Inv(v, c) && Follows(v, op, v', c) && Pushes(v, op) && x < y < |v'.s|
    ensures v'.s[x].key in v'.since(v'.s[y].key)
  {
    PushedAt(v, op, v', c);
    if x > 0 { assert v.s[x - 1].key in v.since(v.s[y - 1].key); }
  }

  lemma PushKeepsInv(v: View, op: Op, v': View, c: Config)
    requires Inv(v, c) && Follows(v, op, v', c) && Pushes(v, op)
    ensures Inv(v', c)
  {
    PushedAt(v, op, v', c);
    forall key ensures Accounted(v', c, key) { PushAccountsFor(v, op, v', c, key); }
    forall j | 0 <= j < |v'.s| ensures Current(v'.s[j], v', c) { PushKeepsCurrent(v, op, v', c, j); }
    forall x, y | 0 <= x < y < |v'.s| ensures v'.s[x].key in v'.since(v'.s[y].key) {
      PushKeepsPair(v, op, v', c, x, y);
    }
  }

  lemma StepKeepsInv(v: View, op: Op, v': View, c: Config)
    requires Inv(v, c) && Follows(v, op, v', c)
    ensures Inv(v', c)
  {
    var i := IndexOf(v.s, op.key);
    match op
    case Get(key, now) =>
      if i == |v.s| { IdleKeepsInv(v, op, v', c); }
      else if v.s[i].expiresAt > now { MoveKeepsInv(v, op, v', c, i, v.s[i]); }
      else { DropKeepsInv(v, op, v', c, i); }
    case Bind(key, account, now) =>
      if i == |v.s| { PushKeepsInv(v, op, v', c); }
      else { MoveKeepsInv(v, op, v', c, i, Binding(key, account, now + c.ttl)); }
    case Forget(key) =>
      if i == |v.s| { IdleKeepsInv(v, op, v', c); } else { DropKeepsInv(v, op, v', c, i); }
  }

  lemma {:induction false} RunsKeepInv(h: History, c: Config)
    requires Timely(h) && c.capacity > 0
    ensures Inv(ViewOf(h, c), c)
  {
    match h
    case Nothing =>
    case Then(earlier, op) =>
      RunsKeepInv(earlier, c);
      StepKeepsInv(ViewOf(earlier, c), op, ViewOf(h, c), c);
  }

  // ---------------------------------------------------------------- what a lookup means

  /** The answer is the account of the key's latest binding, unforgotten and unexpired; and such a binding
      is missed only when `capacity` other keys were touched since the key was. */
  ghost predicate AnswersFor(found: Option<string>, h: History, c: Config, key: string, now: Time) {
    var bound := LastBind(h, key);
    && (found.Some? ==> bound.Some? && found.value == bound.value.account && now < bound.value.at + c.ttl)
    && (bound.Some? && now < bound.value.at + c.ttl && |TouchedSince(h, c, key)| < c.capacity ==>
          found == Some(bound.value.account))
  }

  /** So after any run with a clock that never runs backwards. */
  lemma LookupIsLatestLiveBinding(h: History, c: Config, key: string, now: Time)
    requires Timely(h) && c.capacity > 0 && Latest(h) <= now
    ensures AnswersFor(Found(Run(h, c), key, now), h, c, key, now)
  {
    RunsKeepInv(h, c);
    var v := ViewOf(h, c);
    assert Accounted(v, c, key);
    if IndexOf(v.s, key) < |v.s| { assert Current(v.s[IndexOf(v.s, key)], v, c); }
  }

  /** The list never outgrows its capacity, holds a key once, and is in order of last touch. */
  lemma ListIsBoundedAndOrdered(h: History, c: Config)
    requires Timely(h) && c.capacity > 0
    ensures var s := Run(h, c);
      && |s| <= c.capacity && DistinctKeys(s)
      && forall i, j :: 0 <= i < j < |s| ==> s[i].key in TouchedSince(h, c, s[j].key)
  {
    RunsKeepInv(h, c);
    var v := ViewOf(h, c);
    assert InTouchOrder(v);
    forall i, j | 0 <= i < j < |v.s| ensures v.s[i].key in TouchedSince(h, c, v.s[j].key) {
      assert v.s[i].key in v.since(v.s[j].key);
    }
  }
}
