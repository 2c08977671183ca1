/** The session-affinity cache: a bounded LRU with a lifetime per binding, kept as a map and a linked
    list. It answers as the list of `AffinityList` does after the same calls. */
module SessionAffinity {
  import opened Strings
  import opened Items
  import opened AffinityList
  import AffinityHistory

  // ---------------------------------------------------------------- map and linked list

  /** A list element's identity, as the map points at it. */
  type Element = nat

  function Position(lru: seq<Element>, e: Element): (i: nat)
    ensures i <= |lru|
    ensures i < |lru| ==> lru[i] == e
    ensures forall j :: 0 <= j < i ==> lru[j] != e
  {
    if lru == [] || lru[0] == e then 0 else 1 + Position(lru[1..], e)
  }

  lemma PositionIsUnique(lru: seq<Element>, e: Element, i: nat)
    requires i < |lru| && lru[i] == e && forall j :: 0 <= j < i ==> lru[j] != e
    ensures i == Position(lru, e)
  {}

  function Cut<T>(s: seq<T>, i: nat): seq<T>
    requires i < |s|
  {
    s[..i] + s[i + 1..]
  }

  ghost predicate Distinct(lru: seq<Element>) {
    forall i, j :: 0 <= i < j < |lru| ==> lru[i] != lru[j]
  }

  function ReadOut(values: map<Element, Binding>, lru: seq<Element>): (s: seq<Binding>)
    requires forall i :: 0 <= i < |lru| ==> lru[i] in values
    ensures |s| == |lru| && forall i :: 0 <= i < |lru| ==> s[i] == values[lru[i]]
  {
    seq(|lru|, i requires 0 <= i < |lru| => values[lru[i]])
  }

  predicate Mapped(entries: map<string, Element>, key: string, e: Element) {
    key in entries && entries[key] == e
  }

  /** Each key maps to the one list element that holds it, and every element is mapped. */
  ghost predicate LinkedIn(entries: map<string, Element>, lru: seq<Element>, values: map<Element, Binding>,
                           next: Element) {
    && Distinct(lru)
    && (forall e :: e in lru ==> e in values && e < next && Mapped(entries, values[e].key, e))
    && (forall k :: k in entries ==> entries[k] in lru && values[entries[k]].key == k)
  }

  lemma PositionOfMember(lru: seq<Element>, e: Element)
    ensures e in lru <==> Position(lru, e) < |lru|
  {}

  lemma CutMembers(lru: seq<Element>, at: nat)
    requires Distinct(lru) && at < |lru|
    ensures Distinct(Cut(lru, at))
    ensures forall e :: e in Cut(lru, at) <==> e in lru && e != lru[at]
  {
    var rest := Cut(lru, at);
    forall e | e in lru && e != lru[at] ensures e in rest {
      var i :| 0 <= i < |lru| && lru[i] == e;
      assert if i < at then rest[i] == e else rest[i - 1] == e;
    }
  }

  lemma CutStaysLinked(entries: map<string, Element>, lru: seq<Element>, values: map<Element, Binding>, next: Element,
                       at: nat)
    requires LinkedIn(entries, lru, values, next) && at < |lru|
    ensures LinkedIn(entries - {values[lru[at]].key}, Cut(lru, at), values, next)
  {
    CutMembers(lru, at);
    var key := values[lru[at]].key;
    forall e | e in Cut(lru, at) ensures Mapped(entries - {key}, values[e].key, e) {
      assert Mapped(entries, values[e].key, e) && Mapped(entries, key, lru[at]);
    }
  }

  lemma MoveStaysLinked(entries: map<string, Element>, lru: seq<Element>, values: map<Element, Binding>,
                        next: Element, at: nat)
    requires LinkedIn(entries, lru, values, next) && at < |lru|
    ensures LinkedIn(entries, [lru[at]] + Cut(lru, at), values, next)
  {
    CutMembers(lru, at);
    var moved := [lru[at]] + Cut(lru, at);
    assert moved[1..] == Cut(lru, at);
    forall e ensures e in moved <==> e in lru {}
    FrontIsDistinct(lru[at], Cut(lru, at));
  }

  lemma CutReadsOut(lru: seq<Element>, values: map<Element, Binding>, at: nat)
    requires at < |lru| && forall e :: e in lru ==> e in values
    ensures forall e :: e in Cut(lru, at) ==> e in values
    ensures ReadOut(values, Cut(lru, at)) == Without(ReadOut(values, lru), at)
  {
    forall i | 0 <= i < |Cut(lru, at)| ensures Cut(lru, at)[i] in values {
      assert Cut(lru, at)[i] == lru[if i < at then i else i + 1];
    }
  }

  lemma MoveReadsOut(lru: seq<Element>, values: map<Element, Binding>, at: nat)
    requires at < |lru| && forall i :: 0 <= i < |lru| ==> lru[i] in values
    ensures ReadOut(values, [lru[at]] + Cut(lru, at)) == [values[lru[at]]] + Without(ReadOut(values, lru), at)
  {}

  lemma FrontIsDistinct(e: Element, rest: seq<Element>)
    requires Distinct(rest) && e !in rest
    ensures Distinct([e] + rest)
  {}

  lemma PushStaysLinked(entries: map<string, Element>, lru: seq<Element>, values: map<Element, Binding>,
                        next: Element, b: Binding)
    requires LinkedIn(entries, lru, values, next) && b.key !in entries
    ensures LinkedIn(entries[b.key := next], [next] + lru, values[next := b], next + 1)
  {
    FrontIsDistinct(next, lru);
    forall e | e in lru ensures Mapped(entries[b.key := next], values[e].key, e) {
      assert Mapped(entries, values[e].key, e);
    }
  }

  lemma PushReadsOut(lru: seq<Element>, values: map<Element, Binding>, e: Element, b: Binding)
    requires e !in lru && forall i :: 0 <= i < |lru| ==> lru[i] in values
    ensures forall i :: 0 <= i < |[e] + lru| ==> ([e] + lru)[i] in values[e := b]
    ensures ReadOut(values[e := b], [e] + lru) == [b] + ReadOut(values, lru)
  {}

  class Cache {
    const ttl: int
    const capacity: nat
    var entries: map<string, Element>
    var lru: seq<Element>
    var values: map<Element, Binding>
    var nextElement: Element
    var hits: nat
    var misses: nat
    var rebindings: nat
    ghost var history: History

    /** Map and list hold the same distinct keys, at most `capacity` of them; and the list is what the
        calls so far made of an empty one. */
    ghost predicate Valid()
      reads this
    {
      Listed() && Bindings() == Run(history, Settings())
    }

    ghost predicate Listed()
      reads this`entries, this`lru, this`values, this`nextElement
    {
      capacity > 0 && |lru| <= capacity && Linked()
    }

    ghost function Settings(): Config {
      Config(ttl, capacity)
    }

    ghost predicate Linked()
      reads this`entries, this`lru, this`values, this`nextElement
    {
      LinkedIn(entries, lru, values, nextElement)
    }

    ghost function Bindings(): seq<Binding>
      requires Linked()
      reads this`entries, this`lru, this`values, this`nextElement
    {
      ReadOut(values, lru)
    }

    lemma KeyPresent(key: string)
      requires Linked() && key in entries
      ensures Position(lru, entries[key]) == IndexOf(Bindings(), key) < |lru|
    {
      PositionOfMember(lru, entries[key]);
      var i, j := Position(lru, entries[key]), IndexOf(Bindings(), key);
      assert Bindings()[i].key == key;
      assert j <= i && Bindings()[j].key == key;
      assert lru[j] in lru && Mapped(entries, values[lru[j]].key, lru[j]);
    }

    lemma KeyAbsent(key: string)
      requires Linked() && key !in entries
      ensures IndexOf(Bindings(), key) == |Bindings()|
    {
      assert forall j :: 0 <= j < |lru| ==> lru[j] in lru && Mapped(entries, Bindings()[j].key, lru[j]);
    }

    constructor (ttl: int, capacity: int)
      ensures Valid() && history == Nothing
      ensures this.ttl == (if ttl <= 0 then HOUR else ttl)
      ensures this.capacity == (if capacity <= 0 then 10_000 else capacity)
    {
      this.ttl := if ttl <= 0 then HOUR else ttl;
      this.capacity := if capacity <= 0 then 10_000 else capacity;
      entries, lru, values, nextElement := map[], [], map[], 0;
      hits, misses, rebindings, history := 0, 0, 0, Nothing;
    }

    /** Unlinks an element from the list. */
    method Unlink(e: Element)
      requires Position(lru, e) < |lru|
      modifies this`lru
      ensures lru == Cut(old(lru), Position(old(lru), e))
    {
      var i := 0;
      while lru[i] != e
        invariant 0 <= i <= Position(lru, e)
        decreases |lru| - i
      {
        i := i + 1;
      }
      PositionIsUnique(lru, e, i);
      lru := lru[..i] + lru[i + 1..];
    }

    /** Unlinks an element and deletes its key. */
    method Detach(e: Element)
      requires Position(lru, e) < |lru| && e in values
      modifies this`lru, this`entries
      ensures lru == Cut(old(lru), Position(old(lru), e)) && entries == old(entries) - {values[e].key}
    {
      entries := entries - {values[e].key};
      Unlink(e);
    }

    /** `remove`: drops an element from both structures. */
    method RemoveElement(e: Element)
      requires Linked() && Position(lru, e) < |lru|
      modifies this`lru, this`entries
      ensures Linked() && |lru| == |old(lru)| - 1
      ensures Bindings() == Without(old(Bindings()), Position(old(lru), e))
    {
      CutStaysLinked(entries, lru, values, nextElement, Position(lru, e));
      CutReadsOut(lru, values, Position(lru, e));
      Detach(e);
    }

    /** Unlinks an element and links it again at the front. */
    method Relink(e: Element)
      requires Position(lru, e) < |lru|
      modifies this`lru
      ensures lru == [old(lru)[Position(old(lru), e)]] + Cut(old(lru), Position(old(lru), e))
    {
      Unlink(e);
      lru := [e] + lru;
    }

    method MoveToFront(e: Element)
      requires Linked() && Position(lru, e) < |lru|
      modifies this`lru
      ensures Linked() && |lru| == |old(lru)|
      ensures Bindings() == [values[e]] + Without(old(Bindings()), Position(old(lru), e))
    {
      ghost var at := Position(lru, e);
      MoveStaysLinked(entries, lru, values, nextElement, at);
      MoveReadsOut(lru, values, at);
      Relink(e);
    }

    method PushFront(b: Binding)
      requires Linked() && b.key !in entries
      modifies this`nextElement, this`values, this`lru, this`entries
      ensures Linked() && Bindings() == [b] + old(Bindings())
    {
      PushStaysLinked(entries, lru, values, nextElement, b);
      PushReadsOut(lru, values, nextElement, b);
      var e := nextElement;
      nextElement := nextElement + 1;
      values := values[e := b];
      lru := [e] + lru;
      entries := entries[b.key := e];
    }

    method Get(rawKey: string, now: Time) returns (account: Option<string>)
      requires Valid()
      modifies this
      ensures Valid()
      ensures var key := Trim(rawKey);
        if key == "" then account.None? && history == old(history)
        else account == Found(old(Bindings()), key, now) && history == Then(old(history), Op.Get(key, now))
      ensures Bindings() == if Trim(rawKey) == "" then old(Bindings()) else AfterGet(old(Bindings()), Trim(rawKey), now)
      ensures
        Trim(rawKey) != "" && AffinityHistory.Timely(old(history)) && AffinityHistory.Latest(old(history)) <= now ==>
          AffinityHistory.AnswersFor(account, old(history), Settings(), Trim(rawKey), now)
    {
      var key := Trim(rawKey);
      if key == "" {
        return None;
      }
      AnswerIsMeant(key, now);
      account := Look(key, now);
      Note(Op.Get(key, now));
    }

    lemma AnswerIsMeant(key: string, now: Time)
      requires Valid()
      ensures AffinityHistory.Timely(history) && AffinityHistory.Latest(history) <= now ==>
        AffinityHistory.AnswersFor(Found(Bindings(), key, now), history, Settings(), key, now)
    {
      if AffinityHistory.Timely(history) && AffinityHistory.Latest(history) <= now {
        AffinityHistory.LookupIsLatestLiveBinding(history, Settings(), key, now);
      }
    }

    /** Records a call whose effect on the list has been made. */
    ghost method Note(op: Op)
      requires Listed() && Bindings() == Apply(Run(history, Settings()), op, Settings())
      modifies this`history
      ensures Valid() && history == Then(old(history), op)
    {
      history := Then(history, op);
    }

    method Look(key: string, now: Time) returns (account: Option<string>)
      requires Listed()
      modifies this`hits, this`misses, this`lru, this`entries
      ensures Listed()
      ensures account == Found(old(Bindings()), key, now) && Bindings() == AfterGet(old(Bindings()), key, now)
    {
      if key !in entries {
        misses := misses + 1;
        KeyAbsent(key);
        return None;
      }
      var e := entries[key];
      KeyPresent(key);
      var b := values[e];
      if b.expiresAt <= now {
        RemoveElement(e);
        misses := misses + 1;
        return None;
      }
      hits := hits + 1;
      MoveToFront(e);
      account := Some(b.account);
    }

    method Bind(rawKey: string, rawAccount: string, now: Time)
      requires Valid()
      modifies this
      ensures Valid()
      ensures history == if Trim(rawKey) == "" || Trim(rawAccount) == "" then old(history)
                         else Then(old(history), Op.Bind(Trim(rawKey), Trim(rawAccount), now))
      ensures var (key, account) := (Trim(rawKey), Trim(rawAccount));
        Bindings() == if key == "" || account == "" then old(Bindings())
                      else AfterBind(old(Bindings()), Binding(key, account, now + ttl), capacity)
    {
      var key, account := Trim(rawKey), Trim(rawAccount);
      if key == "" || account == "" {
        return;
      }
      Store(Binding(key, account, now + ttl));
      Note(Op.Bind(key, account, now));
    }

    method Store(b: Binding)
      requires Listed()
      modifies this`rebindings, this`nextElement, this`values, this`lru, this`entries
      ensures Listed() && Bindings() == AfterBind(old(Bindings()), b, capacity)
    {
      if b.key in entries {
        Renew(b.key, b);
      } else {
        Insert(b.key, b);
      }
    }

    method Renew(key: string, b: Binding)
      requires Listed() && key in entries && b.key == key
      modifies this`rebindings, this`values, this`lru
      ensures Listed() && Bindings() == AfterBind(old(Bindings()), b, capacity)
    {
      var e := entries[key];
      KeyPresent(key);
      ghost var i, before := Position(lru, e), Bindings();
      if values[e].account != b.account {
        rebindings := rebindings + 1;
      }
      values := values[e := b];
      assert Bindings() == before[i := b];
      MoveToFront(e);
      assert Without(before[i := b], i) == Without(before, i);
    }

    method Insert(key: string, b: Binding)
      requires Listed() && key !in entries && b.key == key
      modifies this`nextElement, this`values, this`lru, this`entries
      ensures Listed() && Bindings() == AfterBind(old(Bindings()), b, capacity)
    {
      KeyAbsent(key);
      PushFront(b);
      Evict();
    }

    /** Drops bindings from the back down to the capacity. */
    method Evict()
      requires Linked() && capacity > 0 && |lru| <= capacity + 1
      modifies this`lru, this`entries
      ensures Listed()
      ensures Bindings() == if |old(lru)| > capacity then old(Bindings())[..capacity] else old(Bindings())
    {
      ghost var all := Bindings();
      while |lru| > capacity
        invariant Linked() && |lru| <= |all| <= capacity + 1
        invariant |lru| >= capacity || |lru| == |all|
        invariant Bindings() == all[..|lru|]
        decreases |lru|
      {
        var last := lru[|lru| - 1];
        PositionIsUnique(lru, last, |lru| - 1);
        RemoveElement(last);
      }
    }

    method Forget(rawKey: string)
      requires Valid()
      modifies this
      ensures Valid()
      ensures history == if Trim(rawKey) == "" then old(history) else Then(old(history), Op.Forget(Trim(rawKey)))
      ensures Bindings() == if Trim(rawKey) == "" then old(Bindings()) else AfterForget(old(Bindings()), Trim(rawKey))
    {
      var key := Trim(rawKey);
      if key == "" {
        return;
      }
      Drop(key);
      Note(Op.Forget(key));
    }

    method Drop(key: string)
      requires Listed()
      modifies this`lru, this`entries
      ensures Listed() && Bindings() == AfterForget(old(Bindings()), key)
    {
      if key in entries {
        KeyPresent(key);
        RemoveElement(entries[key]);
      } else {
        KeyAbsent(key);
      }
    }
  }
}
