/** The slots a request takes and gives back, as sections of the pool's slot counting: the loops of
    `ChatLoops` only ever free a slot they hold, so what is proved there of every legal run holds of
    runs made of such requests. */
module RequestSlots {
  import opened Items
  import opened PoolModel
  import opened RouteLoop
  import opened InFlight
  import Cooldown

  /** What one request holds after the slots it took and gave back. */
  function Own(slots: Slots): multiset<string> {
    match slots
    case Nothing => multiset{}
    case Took(id, earlier) => Own(earlier) + multiset{id}
    case Gave(id, earlier) => Own(earlier) - multiset{id}
  }

  /** A request that gave everything back holds nothing, and one that holds a slot holds only that. */
  lemma {:induction false} OwnIsWhatIsHeld(slots: Slots)
    ensures AllGiven(slots) ==> Own(slots) == multiset{}
    ensures forall id :: Holding(slots, id) ==> Own(slots) == multiset{id}
  {
    match slots
    case Nothing =>
    case Took(id, earlier) => OwnIsWhatIsHeld(earlier);
    case Gave(id, earlier) =>
      OwnIsWhatIsHeld(earlier);
      if earlier.Took? { OwnIsWhatIsHeld(earlier.earlier); }
  }

  /** Reserving a slot is a `Take` section: the holders grow exactly by what the request now holds. */
  lemma AcquireIsTake(s: Sys, others: multiset<string>, slots: Slots, id: string)
    requires s.holders == others + Own(slots)
    ensures var slots' := if HasRoom(s.items, id) then Took(id, slots) else slots;
      Enabled(s, Take(id)) && Next(s, Take(id)) == Sys(Taken(s.items, id), others + Own(slots'))
  {
  }

  /** Freeing it, from the loop or from the body that took it over, is a `Drop` section the request is
      entitled to, after which it holds nothing. */
  lemma ReleaseIsDrop(s: Sys, others: multiset<string>, slots: Slots, id: string)
    requires Holding(slots, id) && s.holders == others + Own(slots)
    ensures Enabled(s, Drop(id)) && Next(s, Drop(id)) == Sys(Given(s.items, id), others + Own(Gave(id, slots)))
    ensures AllGiven(Gave(id, slots)) && Own(Gave(id, slots)) == multiset{}
  {
    OwnIsWhatIsHeld(slots);
    OwnIsWhatIsHeld(Gave(id, slots));
    assert others + multiset{id} - multiset{id} == others;
  }

  /** Two states of an account with the same slots. */
  predicate SameSlots(a: Item, b: Item) {
    a.id == b.id && a.inFlight == b.inFlight && a.maxInFlight == b.maxInFlight
  }

  lemma MarkedModelKeepsSlots(item: Item, f: Cooldown.Failure, model: string, level: nat, until: Time)
    requires model != ""
    ensures SameSlots(Cooldown.Marked(item, f, model, level, until), item)
  {
  }

  lemma MarkedAccountKeepsSlots(item: Item, f: Cooldown.Failure, level: nat, until: Time)
    ensures SameSlots(Cooldown.Marked(item, f, "", level, until), item)
  {
  }

  lemma ClassifiedKeepsSlots(item: Item, f: Cooldown.Failure, now: Time, version: nat)
    ensures SameSlots(Cooldown.Classified(item, f, now).(stateVersion := version), item)
  {
    var model := Cooldown.ScopeModel(f);
    var level := Cooldown.LevelFor(item, f, model);
    var until := now + Cooldown.CooldownAt(f.cooldown, level);
    if model == "" {
      MarkedAccountKeepsSlots(item, f, level, until);
    } else {
      MarkedModelKeepsSlots(item, f, model, level, until);
    }
  }

  /** Reporting a failure touches no slot: it is a `Rewrite` section. */
  lemma BlameIsRewrite(s: Sys, id: string, f: Cooldown.Failure, now: Time, version: nat)
    ensures var items := Blamed(s.items, id, f, now, version);
      Enabled(s, Rewrite(items)) && Next(s, Rewrite(items)) == Sys(items, s.holders)
  {
    var i := IndexIn(s.items, id);
    if i < |s.items| { ClassifiedKeepsSlots(s.items[i], f, now, version); }
  }

  lemma RecoveredKeepsSlots(item: Item, model: string)
    ensures SameSlots(Cooldown.Recovered(item, model), item)
  {
  }

  lemma SucceededKeepsSlots(item: Item, model: string, version: nat)
    ensures SameSlots(Cooldown.Succeeded(item, model).(stateVersion := version), item)
  {
    RecoveredKeepsSlots(item, RouteModel(model));
    Cooldown.ProvenLeavesCooldowns(Cooldown.Recovered(item, RouteModel(model)), model);
  }

  /** Nor does reporting a success. */
  lemma PraiseIsRewrite(s: Sys, id: string, model: string, version: nat)
    ensures var items := Praised(s.items, id, model, version);
      Enabled(s, Rewrite(items)) && Next(s, Rewrite(items)) == Sys(items, s.holders)
  {
    var i := IndexIn(s.items, id);
    if i < |s.items| { SucceededKeepsSlots(s.items[i], model, version); }
  }
}
