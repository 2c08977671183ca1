/** What each operation of the session-affinity cache does to the list of its bindings, most recently
    touched first. */
module AffinityList {
  import opened Items

  datatype Binding = Binding(key: string, account: string, expiresAt: Time)

  // ---------------------------------------------------------------- the list

  function IndexOf(s: seq<Binding>, key: string): (i: nat)
    ensures i <= |s|
    ensures i < |s| ==> s[i].key == key
    ensures forall j :: 0 <= j < i ==> s[j].key != key
  {
    if s == [] || s[0].key == key then 0 else 1 + IndexOf(s[1..], key)
  }

  function Without(s: seq<Binding>, i: nat): seq<Binding>
    requires i < |s|
  {
    s[..i] + s[i + 1..]
  }

  predicate Hits(s: seq<Binding>, key: string, now: Time) {
    var i := IndexOf(s, key);
    i < |s| && s[i].expiresAt > now
  }

  /** A hit moves to the front and keeps its lifetime; an expired binding is dropped. */
  function AfterGet(s: seq<Binding>, key: string, now: Time): seq<Binding> {
    var i := IndexOf(s, key);
    if i == |s| then s
    else if s[i].expiresAt > now then [s[i]] + Without(s, i)
    else Without(s, i)
  }

  function Found(s: seq<Binding>, key: string, now: Time): Option<string> {
    if Hits(s, key, now) then Some(s[IndexOf(s, key)].account) else None
  }

  /** A new or renewed binding goes to the front; the last one falls off when there are too many. */
  function AfterBind(s: seq<Binding>, b: Binding, capacity: nat): seq<Binding> {
    var i := IndexOf(s, b.key);
    if i < |s| then [b] + Without(s, i)
    else if |s| + 1 > capacity then ([b] + s)[..capacity]
    else [b] + s
  }

  function AfterForget(s: seq<Binding>, key: string): seq<Binding> {
    var i := IndexOf(s, key);
    if i < |s| then Without(s, i) else s
  }

  ghost predicate DistinctKeys(s: seq<Binding>) {
    forall i, j :: 0 <= i < j < |s| ==> s[i].key != s[j].key
  }

  // ---------------------------------------------------------------- runs

  datatype Op =
    | Get(key: string, now: Time)
    | Bind(key: string, account: string, now: Time)
    | Forget(key: string)

  datatype Config = Config(ttl: int, capacity: nat)

  function Apply(s: seq<Binding>, op: Op, c: Config): seq<Binding> {
    match op
    case Get(key, now) => AfterGet(s, key, now)
    case Bind(key, account, now) => AfterBind(s, Binding(key, account, now + c.ttl), c.capacity)
    case Forget(key) => AfterForget(s, key)
  }

  /** The calls so far, latest first. */
  datatype History = Nothing | Then(earlier: History, op: Op)

  function Run(h: History, c: Config): seq<Binding> {
    match h
    case Nothing => []
    case Then(earlier, op) => Apply(Run(earlier, c), op, c)
  }
}
