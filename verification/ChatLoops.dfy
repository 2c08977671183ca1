/** The two chat loops: a buffered answer, and a stream whose body keeps its slot until closed. */
module ChatLoops {
  import opened Items
  import opened PoolModel
  import opened RouteLoop
  import opened Walks
  import Cooldown

  // ---------------------------------------------------------------- one attempt

  /** Gives the slot back, after whatever others did meanwhile. */
  method GiveBack(loop: Loop, pool: Pool, id: string, o: Outcome)
    requires Holding(loop.slots, id)
    modifies loop`slots, pool
    ensures pool.Valid() && loop.slots == Gave(id, old(loop.slots))
  {
    Others(pool, o.pools(Freeing));
    loop.ReleaseInFlight(pool, id);
  }

  /** Reports a failure under the model it belongs to. */
  method ReportFailure(loop: Loop, pool: Pool, id: string, failure: Cooldown.Failure, o: Outcome)
    modifies loop`marks, pool
    ensures pool.Valid() && loop.marks == old(loop.marks) + [BlameFor(id, o, failure, loop.publicModel)]
  {
    Others(pool, o.pools(Naming));
    var named := loop.NameFailure(pool, id, failure);
    Others(pool, o.pools(Reporting));
    loop.MarkFailed(pool, id, named, o.later);
  }

  method ReportSuccess(loop: Loop, pool: Pool, id: string, o: Outcome)
    modifies loop`marks, pool
    ensures pool.Valid() && loop.marks == old(loop.marks) + [PraiseFor(id, o, loop.publicModel)]
  {
    Others(pool, o.pools(Naming));
    var model := loop.RecordedModel(pool, id);
    Others(pool, o.pools(Reporting));
    loop.MarkServed(pool, id, model);
  }

  /** A failed in-process attempt, with the slot still held. */
  method LocalFailure(loop: Loop, pool: Pool, item: Item, o: Outcome) returns (step: Step)
    requires Holding(loop.slots, item.id) && !o.local.Served?
    modifies loop`slots, loop`excluded, loop`failed, loop`marks, pool
    ensures pool.Valid() && loop.failed
    ensures loop.slots == Gave(item.id, old(loop.slots))
    ensures loop.excluded == if step.Again? then old(loop.excluded) + {item.id} else old(loop.excluded)
    ensures loop.marks == old(loop.marks) + LocalReports(item.id, o, loop.publicModel)
    ensures LocalSettled(step, item.id, o, loop.index, loop.attempts)
  {
    loop.failed := true;
    var failover := false;
    if o.local.Failed? && !o.canceled {
      ReportFailure(loop, pool, item.id, o.local.verdict.failure, o);
      failover := loop.CanFailover(o.local.verdict.failover);
    }
    GiveBack(loop, pool, item.id, o);
    if failover {
      loop.Exclude(item.id);
      return Again;
    }
    return Stop(false, loop.index, item.id);
  }

  /** A worker attempt that brought no answer, or a refusal, with the slot still held. A worker out of reach
      is left behind without asking whether attempts are left. */
  method WorkerFailure(loop: Loop, pool: Pool, item: Item, o: Outcome, w: Worker) returns (step: Step)
    requires Holding(loop.slots, item.id) && !w.Answered?
    modifies loop`slots, loop`excluded, loop`failed, loop`marks, pool
    ensures pool.Valid()
    ensures loop.slots == Gave(item.id, old(loop.slots))
    ensures loop.excluded ==
      if step.Again? then old(loop.excluded) + {Renamed(item.id, w)} else old(loop.excluded)
    ensures loop.marks == old(loop.marks) + WorkerReports(item.id, o, w, false, loop.publicModel)
    ensures WorkerSettled(step, item.id, o, w, true, loop.index, loop.attempts)
    ensures step.Again? ==> loop.failed
  {
    match w {
      case NotSent =>
        GiveBack(loop, pool, item.id, o);
        return Stop(false, 0, "");
      case Unreachable(failure) =>
        if o.canceled {
          GiveBack(loop, pool, item.id, o);
          return Stop(false, loop.index, item.id);
        }
        loop.failed := true;
        ReportFailure(loop, pool, item.id, failure, o);
        GiveBack(loop, pool, item.id, o);
        loop.Exclude(item.id);
        return Again;
      case Refused(_, v) =>
        var account := Renamed(item.id, w);
        loop.failed := true;
        ReportFailure(loop, pool, account, v.failure, o);
        if loop.CanFailover(v.failover) {
          loop.Exclude(account);
          GiveBack(loop, pool, item.id, o);
          return Again;
        }
        GiveBack(loop, pool, item.id, o);
        return Stop(false, loop.index, account);
    }
  }

  /** A buffered answer, readable or not, gives the slot back. */
  method Deliver(loop: Loop, pool: Pool, id: string, account: string, readable: bool, o: Outcome) returns (step: Step)
    requires Holding(loop.slots, id)
    modifies loop`slots, loop`marks, pool
    ensures pool.Valid() && loop.slots == Gave(id, old(loop.slots))
    ensures loop.marks == old(loop.marks) + if readable then [PraiseFor(account, o, loop.publicModel)] else []
    ensures step == Stop(readable, loop.index, account)
  {
    if readable {
      ReportSuccess(loop, pool, account, o);
    }
    GiveBack(loop, pool, id, o);
    step := Stop(readable, loop.index, account);
  }

  /** A buffered turn of an account served in process, with the slot held. */
  method LocalTurn(loop: Loop, pool: Pool, item: Item, o: Outcome) returns (step: Step)
    requires Holding(loop.slots, item.id)
    modifies loop`slots, loop`excluded, loop`failed, loop`marks, pool
    ensures pool.Valid() && loop.slots == Gave(item.id, old(loop.slots))
    ensures loop.excluded == if step.Again? then old(loop.excluded) + {item.id} else old(loop.excluded)
    ensures loop.marks == old(loop.marks) + LocalReports(item.id, o, loop.publicModel)
    ensures LocalSettled(step, item.id, o, loop.index, loop.attempts)
    ensures step.Again? ==> loop.failed
  {
    if o.local.Served? {
      step := Deliver(loop, pool, item.id, item.id, true, o);
    } else {
      step := LocalFailure(loop, pool, item, o);
    }
  }

  /** A buffered turn of an account with a worker, with the slot held. */
  method WorkerTurn(loop: Loop, pool: Pool, item: Item, o: Outcome, w: Worker) returns (step: Step)
    requires Holding(loop.slots, item.id)
    modifies loop`slots, loop`excluded, loop`failed, loop`marks, pool
    ensures pool.Valid() && loop.slots == Gave(item.id, old(loop.slots))
    ensures loop.excluded ==
      if step.Again? then old(loop.excluded) + {Renamed(item.id, w)} else old(loop.excluded)
    ensures loop.marks == old(loop.marks) + WorkerReports(item.id, o, w, w.Answered? && w.decodes, loop.publicModel)
    ensures WorkerSettled(step, item.id, o, w, false, loop.index, loop.attempts)
    ensures step.Again? ==> loop.failed
  {
    if !w.Answered? {
      step := WorkerFailure(loop, pool, item, o, w);
    } else {
      step := Deliver(loop, pool, item.id, Renamed(item.id, w), w.decodes, o);
    }
  }

  /** Reserves the account's slot, after whatever others did since it was drawn. */
  method Reserve(loop: Loop, pool: Pool, item: Item, o: Outcome) returns (acquired: bool)
    requires AllGiven(loop.slots)
    modifies loop`slots, pool
    ensures pool.Valid() && acquired == Reserved(item, o)
    ensures loop.slots == if acquired then Took(item.id, old(loop.slots)) else old(loop.slots)
  {
    Others(pool, o.pools(Reserving));
    acquired := loop.AcquireInFlight(pool, item.id);
  }

  /** One turn of the buffered loop, from the slot to the verdict; `w` is what the worker does, if the
      account has one. */
  method Attempt(loop: Loop, pool: Pool, direct: Item -> bool, item: Item, o: Outcome, w: Worker) returns (step: Step)
    requires AllGiven(loop.slots)
    modifies loop`slots, loop`excluded, loop`failed, loop`marks, pool
    ensures pool.Valid()
    ensures Settled(step, item, direct, o, w, false, loop.index, loop.attempts)
    ensures loop.slots == if Reserved(item, o) then Gave(item.id, Took(item.id, old(loop.slots))) else old(loop.slots)
    ensures loop.excluded ==
      if step.Again? then old(loop.excluded) + {SkippedAs(item, direct, o, w)} else old(loop.excluded)
    ensures loop.marks == old(loop.marks) + Reports(item, direct, o, w, false, loop.publicModel)
    ensures step.Again? ==> loop.failed == (old(loop.failed) || Reserved(item, o))
  {
    var acquired := Reserve(loop, pool, item, o);
    if !acquired {
      loop.Exclude(item.id);
      step := Again;
    } else if direct(item) {
      step := LocalTurn(loop, pool, item, o);
      LocalSettles(step, item, direct, o, w, false, loop.index, loop.attempts);
    } else {
      step := WorkerTurn(loop, pool, item, o, w);
      WorkerSettles(step, item, direct, o, w, false, loop.index, loop.attempts);
    }
  }

  /** Hands the slot to the response body; without a body the slot is given back at once. */
  method AttachRelease(loop: Loop, pool: Pool, id: string, hasBody: bool, o: Outcome) returns (body: ReleaseCloser?)
    requires pool.Valid() && Holding(loop.slots, id)
    modifies loop`slots, pool
    ensures pool.Valid()
    ensures (body != null) == hasBody
    ensures body == null ==> loop.slots == Gave(id, old(loop.slots))
    ensures body != null ==> fresh(body) && !body.done && body.id == id && loop.slots == old(loop.slots)
  {
    body := null;
    if hasBody {
      body := new ReleaseCloser(id);
    } else {
      GiveBack(loop, pool, id, o);
    }
  }

  /** An open stream: a success, whose body takes over the slot. */
  method HandOn(loop: Loop, pool: Pool, id: string, account: string, hasBody: bool, o: Outcome)
      returns (step: Step, body: ReleaseCloser?)
    requires Holding(loop.slots, id)
    modifies loop`slots, loop`marks, pool
    ensures pool.Valid()
    ensures loop.marks == old(loop.marks) + [PraiseFor(account, o, loop.publicModel)]
    ensures step == Stop(true, loop.index, account) && (body != null) == hasBody
    ensures body == null ==> loop.slots == Gave(id, old(loop.slots))
    ensures body != null ==> fresh(body) && !body.done && body.id == id && loop.slots == old(loop.slots)
  {
    ReportSuccess(loop, pool, account, o);
    step := Stop(true, loop.index, account);
    body := AttachRelease(loop, pool, id, hasBody, o);
  }

  /** A streaming turn of an account served in process, with the slot held. */
  method LocalStream(loop: Loop, pool: Pool, item: Item, o: Outcome) returns (step: Step, body: ReleaseCloser?)
    requires Holding(loop.slots, item.id)
    modifies loop`slots, loop`excluded, loop`failed, loop`marks, pool
    ensures pool.Valid()
    ensures loop.excluded == if step.Again? then old(loop.excluded) + {item.id} else old(loop.excluded)
    ensures loop.marks == old(loop.marks) + LocalReports(item.id, o, loop.publicModel)
    ensures LocalSettled(step, item.id, o, loop.index, loop.attempts)
    ensures step.Again? ==> loop.failed
    ensures body != null <==> o.local.Served? && o.local.hasBody
    ensures body == null ==> loop.slots == Gave(item.id, old(loop.slots))
    ensures body != null ==> fresh(body) && !body.done && body.id == item.id && loop.slots == old(loop.slots)
  {
    body := null;
    if o.local.Served? {
      step, body := HandOn(loop, pool, item.id, item.id, o.local.hasBody, o);
    } else {
      step := LocalFailure(loop, pool, item, o);
    }
  }

  /** A streaming turn of an account with a worker, with the slot held. */
  method WorkerStream(loop: Loop, pool: Pool, item: Item, o: Outcome, w: Worker)
      returns (step: Step, body: ReleaseCloser?)
    requires Holding(loop.slots, item.id)
    modifies loop`slots, loop`excluded, loop`failed, loop`marks, pool
    ensures pool.Valid()
    ensures loop.excluded ==
      if step.Again? then old(loop.excluded) + {Renamed(item.id, w)} else old(loop.excluded)
    ensures loop.marks == old(loop.marks) + WorkerReports(item.id, o, w, true, loop.publicModel)
    ensures WorkerSettled(step, item.id, o, w, true, loop.index, loop.attempts)
    ensures step.Again? ==> loop.failed
    ensures body != null <==> w.Answered? && w.hasBody
    ensures body == null ==> loop.slots == Gave(item.id, old(loop.slots))
    ensures body != null ==> fresh(body) && !body.done && body.id == item.id && loop.slots == old(loop.slots)
  {
    body := null;
    if !w.Answered? {
      step := WorkerFailure(loop, pool, item, o, w);
    } else {
      step, body := HandOn(loop, pool, item.id, Renamed(item.id, w), w.hasBody, o);
    }
  }

  /** One turn of the streaming loop. A body that is handed on owns the slot. */
  method StreamAttempt(loop: Loop, pool: Pool, direct: Item -> bool, item: Item, o: Outcome, w: Worker)
      returns (step: Step, body: ReleaseCloser?)
    requires AllGiven(loop.slots)
    modifies loop`slots, loop`excluded, loop`failed, loop`marks, pool
    ensures pool.Valid()
    ensures Settled(step, item, direct, o, w, true, loop.index, loop.attempts)
    ensures loop.excluded ==
      if step.Again? then old(loop.excluded) + {SkippedAs(item, direct, o, w)} else old(loop.excluded)
    ensures loop.marks == old(loop.marks) + Reports(item, direct, o, w, true, loop.publicModel)
    ensures step.Again? ==> loop.failed == (old(loop.failed) || Reserved(item, o))
    ensures body != null <==> BringsBody(item, direct, o, w)
    ensures body == null ==>
      loop.slots == if Reserved(item, o) then Gave(item.id, Took(item.id, old(loop.slots))) else old(loop.slots)
    ensures body != null ==> step.Stop? && step.ok && fresh(body) && !body.done && body.id == item.id
    ensures body != null ==> loop.slots == Took(item.id, old(loop.slots))
  {
    body := null;
    var acquired := Reserve(loop, pool, item, o);
    if !acquired {
      loop.Exclude(item.id);
      step := Again;
    } else if direct(item) {
      step, body := LocalStream(loop, pool, item, o);
      LocalSettles(step, item, direct, o, w, true, loop.index, loop.attempts);
    } else {
      step, body := WorkerStream(loop, pool, item, o, w);
      WorkerSettles(step, item, direct, o, w, true, loop.index, loop.attempts);
    }
  }

  // ---------------------------------------------------------------- the loops

  /** The account blamed when the walk ends without one: any account that was excluded. */
  method LastAccount(excluded: set<string>) returns (id: string)
    ensures id in excluded || (excluded == {} && id == "")
  {
    if excluded == {} {
      return "";
    }
    id :| id in excluded;
  }

  /** The loop stands where the walk so far leaves it. */
  ghost predicate Follows(loop: Loop, sc: Scene)
    reads loop`prefer, loop`regionFilter, loop`eligible, loop`attempts, loop`tried
  {
    loop.Asked() == AskedAfter(sc, loop.tried)
  }

  /** Everything the loop has recorded when all accounts tried are behind it. */
  ghost predicate AllBehind(loop: Loop, sc: Scene)
    reads loop`tried, loop`excluded, loop`slots, loop`marks, loop`failed
  {
    && Walked(sc, loop.tried) && AllMovedOn(sc, loop.tried)
    && loop.excluded == Skipped(sc, loop.tried) && loop.slots == AllSlots(sc, loop.tried)
    && loop.marks == AllReports(sc, loop.tried) && loop.failed == SomeReserved(sc, loop.tried)
  }

  /** Draws the next account and counts it. */
  method DrawNext(loop: Loop, pool: Pool, sc: Scene) returns (picked: Option<Item>)
    requires loop.Valid() && loop.index < loop.attempts && Follows(loop, sc) && Genuine(sc)
    requires loop.excluded == Skipped(sc, loop.tried)
    modifies loop`prefer, loop`regionFilter, loop`attempts, loop`index, loop`tried, pool
    ensures pool.Valid()
    ensures loop.Valid() && Follows(loop, sc) && loop.index <= loop.attempts
    ensures picked == NextDrawn(sc, old(loop.tried)) && loop.index == old(loop.index) + if picked.Some? then 1 else 0
    ensures loop.tried == if picked.Some? then Tried(old(loop.tried), picked.value) else old(loop.tried)
  {
    ghost var tried := loop.tried;
    var o := sc.world(loop.index);
    picked := loop.PickNext(pool, o);
    assert picked == Drawn(QueryFor(sc.req, tried, Skipped(sc, tried)), o);
    if picked.Some? { AskedGoesOn(sc, tried, picked.value); }
  }

  /** The end of a walk that the pool hands out no account for. */
  method NothingDrawn(loop: Loop, ghost sc: Scene) returns (step: Step)
    requires loop.Valid() && Follows(loop, sc) && AllBehind(loop, sc) && loop.index < loop.attempts
    requires NextDrawn(sc, loop.tried).None?
    ensures step.Stop? && !step.ok && Ended(sc, loop.tried, false, step.count, step.account)
  {
    var account := "";
    if loop.failed {
      SkippedWhenReserved(sc, loop.tried);
      account := LastAccount(loop.excluded);
    }
    step := Stop(false, if loop.failed then loop.index else 0, account);
    NoneDrawnEnds(sc, loop.tried, step.count, step.account);
  }

  /** The loop has drawn `item` after `tried`, and not yet tried it. */
  ghost predicate HasDrawn(loop: Loop, sc: Scene, tried: Trail, item: Item)
    reads loop`tried, loop`excluded, loop`slots, loop`marks, loop`failed
  {
    && loop.tried == Tried(tried, item) && NextDrawn(sc, tried) == Some(item)
    && Walked(sc, tried) && AllMovedOn(sc, tried)
    && loop.excluded == Skipped(sc, tried) && loop.slots == AllSlots(sc, tried)
    && loop.marks == AllReports(sc, tried) && loop.failed == SomeReserved(sc, tried)
  }

  /** The account drawn is tried, and left behind or the last. */
  method TryDrawn(loop: Loop, pool: Pool, sc: Scene, item: Item, ghost tried: Trail) returns (step: Step)
    requires loop.Valid() && Follows(loop, sc) && loop.index <= loop.attempts && HasDrawn(loop, sc, tried, item)
    requires !sc.streaming
    modifies loop`slots, loop`excluded, loop`failed, loop`marks, pool
    ensures pool.Valid()
    ensures step.Again? ==> AllBehind(loop, sc) && (loop.index == loop.attempts ==> NoLastWord(sc, loop.tried))
    ensures step.Stop? ==> Ended(sc, loop.tried, step.ok, step.count, step.account)
    ensures loop.slots == AllSlots(sc, loop.tried) && loop.marks == AllReports(sc, loop.tried)
  {
    hide Drawn, Recounted, Reserved, Succeeds, Retryable, MovesOn, Reports, SkippedAs, NextDrawn, Walked, AllMovedOn,
      Ended, NoLastWord;
    SlotsAreGiven(sc, tried);
    assert loop.index == Length(tried) + 1 && loop.attempts == AttemptsOf(sc, Tried(tried, item));
    assert loop.pinned == sc.req.pinned && loop.publicModel == sc.req.publicModel;
    var attempt := loop.index - 1;
    var o, w := sc.world(attempt), WorkerIn(sc, item, attempt);
    step := Attempt(loop, pool, sc.direct, item, o, w);
    TurnGoesOnOrEnds(sc, tried, item, step);
  }

  /** One turn of the buffered loop. */
  method Turn(loop: Loop, pool: Pool, sc: Scene) returns (step: Step)
    requires loop.Valid() && Follows(loop, sc) && AllBehind(loop, sc) && loop.index < loop.attempts
    requires Genuine(sc) && !sc.streaming
    modifies loop, pool
    ensures loop.Valid() && pool.Valid() && Follows(loop, sc) && loop.index <= loop.attempts
    ensures step.Again? ==> AllBehind(loop, sc) && loop.index == old(loop.index) + 1
    ensures step.Again? && loop.index == loop.attempts ==> NoLastWord(sc, loop.tried)
    ensures step.Stop? ==> Ended(sc, loop.tried, step.ok, step.count, step.account)
    ensures loop.slots == AllSlots(sc, loop.tried)
    ensures loop.marks == AllReports(sc, loop.tried)
  {
    hide Walked, AllMovedOn, Skipped, AllSlots, AllReports, SomeReserved, NextDrawn, Ended, NoLastWord,
      AllAdmitted, Length;
    ghost var tried := loop.tried;
    var picked := DrawNext(loop, pool, sc);
    if picked.None? {
      step := NothingDrawn(loop, sc);
    } else {
      step := TryDrawn(loop, pool, sc, picked.value, tried);
    }
  }

  /** A buffered request, for any behaviour of the upstreams, of the other requests and of the clock
      (`world`). It tries the accounts the pool hands out one after the other, and goes on after exactly
      the failures that allow it: it succeeds when the last account does, and fails with attempts left only
      when that account's failure is final or the pool hands out none. It tries at most the clamped number
      of accounts, all admitted and of one region; every slot it took is given back; and with workers that
      name no other account, it tries no account twice. */
  method ChatNonStream(loop: Loop, pool: Pool, direct: Item -> bool, world: nat -> Outcome)
      returns (ok: bool, count: nat, account: string)
    requires loop.Valid() && pool.Valid() && loop.tried.Untried? && loop.slots.Nothing? && loop.marks == []
    requires loop.excluded == {} && !loop.failed
    modifies loop, pool
    ensures loop.Valid() && pool.Valid() && Length(loop.tried) <= Clamp(loop.maxAttempts)
    ensures AllAdmitted(loop.tried, loop.providerFilter, loop.allowed, loop.regionFilter)
    ensures AllGiven(loop.slots)
    ensures var sc := Scene(old(loop.Asked()), direct, world, false, FromPool());
      && Ended(sc, loop.tried, ok, count, account)
      && loop.slots == AllSlots(sc, loop.tried) && loop.marks == AllReports(sc, loop.tried)
    ensures AllHonest(loop.tried, direct, loop.pinned, world) ==>
      NoRepeat(loop.tried) && MarksFollow(loop.marks, loop.tried)
  {
    var sc := Scene(loop.Asked(), direct, world, false, FromPool());
    while loop.index < loop.attempts
      invariant loop.Valid() && pool.Valid() && Follows(loop, sc) && AllBehind(loop, sc) && loop.index <= loop.attempts
      invariant loop.index == loop.attempts ==> NoLastWord(sc, loop.tried)
      decreases Clamp(loop.maxAttempts) - loop.index
    {
      var step := Turn(loop, pool, sc);
      if step.Stop? {
        WalkIsSound(sc, loop.tried);
        return step.ok, step.count, step.account;
      }
    }
    WalkIsSound(sc, loop.tried);
    AttemptsUsedUpEnds(sc, loop.tried);
    return false, loop.attempts, "";
  }

  /** The account drawn is tried; a body it brings takes over the slot. */
  method StreamDrawn(loop: Loop, pool: Pool, sc: Scene, item: Item, ghost tried: Trail)
      returns (step: Step, body: ReleaseCloser?)
    requires loop.Valid() && Follows(loop, sc) && loop.index <= loop.attempts && HasDrawn(loop, sc, tried, item)
    requires sc.streaming
    modifies loop`slots, loop`excluded, loop`failed, loop`marks, pool
    ensures pool.Valid()
    ensures step.Again? ==> AllBehind(loop, sc) && (loop.index == loop.attempts ==> NoLastWord(sc, loop.tried))
    ensures step.Stop? ==> Ended(sc, loop.tried, step.ok, step.count, step.account)
    ensures loop.marks == AllReports(sc, loop.tried)
    ensures body != null <==> step.Stop? && step.ok && EndsWithBody(sc, loop.tried)
    ensures body == null ==> loop.slots == AllSlots(sc, loop.tried)
    ensures body != null ==> fresh(body) && !body.done && Holding(loop.slots, body.id)
    ensures body != null ==> AllSlots(sc, loop.tried) == Gave(body.id, loop.slots)
  {
    hide Drawn, Recounted, Reserved, Succeeds, Retryable, MovesOn, Reports, SkippedAs, NextDrawn, Walked, AllMovedOn,
      Ended, NoLastWord;
    SlotsAreGiven(sc, tried);
    assert loop.index == Length(tried) + 1 && loop.attempts == AttemptsOf(sc, Tried(tried, item));
    assert loop.pinned == sc.req.pinned && loop.publicModel == sc.req.publicModel;
    var attempt := loop.index - 1;
    var o, w := sc.world(attempt), WorkerIn(sc, item, attempt);
    step, body := StreamAttempt(loop, pool, sc.direct, item, o, w);
    TurnGoesOnOrEnds(sc, tried, item, step);
  }

  /** One turn of the streaming loop. */
  method StreamTurn(loop: Loop, pool: Pool, sc: Scene) returns (step: Step, body: ReleaseCloser?)
    requires loop.Valid() && Follows(loop, sc) && AllBehind(loop, sc) && loop.index < loop.attempts
    requires Genuine(sc) && sc.streaming
    modifies loop, pool
    ensures loop.Valid() && pool.Valid() && Follows(loop, sc) && loop.index <= loop.attempts
    ensures step.Again? ==> AllBehind(loop, sc) && loop.index == old(loop.index) + 1
    ensures step.Again? && loop.index == loop.attempts ==> NoLastWord(sc, loop.tried)
    ensures step.Stop? ==> Ended(sc, loop.tried, step.ok, step.count, step.account)
    ensures loop.marks == AllReports(sc, loop.tried)
    ensures body != null <==> step.Stop? && step.ok && EndsWithBody(sc, loop.tried)
    ensures body == null ==> loop.slots == AllSlots(sc, loop.tried)
    ensures body != null ==> fresh(body) && !body.done && Holding(loop.slots, body.id)
    ensures body != null ==> AllSlots(sc, loop.tried) == Gave(body.id, loop.slots)
  {
    hide Walked, AllMovedOn, Skipped, AllSlots, AllReports, SomeReserved, NextDrawn, Ended, NoLastWord,
      AllAdmitted, Length;
    ghost var tried := loop.tried;
    var picked := DrawNext(loop, pool, sc);
    if picked.None? {
      step := NothingDrawn(loop, sc);
      body := null;
    } else {
      step, body := StreamDrawn(loop, pool, sc, picked.value, tried);
    }
  }

  /** A streaming request: as above, except that the body handed to the caller, if the answer brings one, owns
      the one slot not given back. */
  method ChatStream(loop: Loop, pool: Pool, direct: Item -> bool, world: nat -> Outcome)
      returns (ok: bool, count: nat, account: string, body: ReleaseCloser?)
    requires loop.Valid() && pool.Valid() && loop.tried.Untried? && loop.slots.Nothing? && loop.marks == []
    requires loop.excluded == {} && !loop.failed
    modifies loop, pool
    ensures loop.Valid() && pool.Valid() && Length(loop.tried) <= Clamp(loop.maxAttempts)
    ensures AllAdmitted(loop.tried, loop.providerFilter, loop.allowed, loop.regionFilter)
    ensures var sc := Scene(old(loop.Asked()), direct, world, true, FromPool());
      && Ended(sc, loop.tried, ok, count, account) && loop.marks == AllReports(sc, loop.tried)
      && (body != null <==> ok && EndsWithBody(sc, loop.tried))
      && (body == null ==> loop.slots == AllSlots(sc, loop.tried))
      && (body != null ==> AllSlots(sc, loop.tried) == Gave(body.id, loop.slots))
    ensures body == null ==> AllGiven(loop.slots)
    ensures body != null ==> ok && fresh(body) && !body.done && Holding(loop.slots, body.id)
    ensures AllHonest(loop.tried, direct, loop.pinned, world) ==>
      NoRepeat(loop.tried) && MarksFollow(loop.marks, loop.tried)
  {
    var sc := Scene(loop.Asked(), direct, world, true, FromPool());
    while loop.index < loop.attempts
      invariant loop.Valid() && pool.Valid() && Follows(loop, sc) && AllBehind(loop, sc) && loop.index <= loop.attempts
      invariant loop.index == loop.attempts ==> NoLastWord(sc, loop.tried)
      decreases Clamp(loop.maxAttempts) - loop.index
    {
      var step;
      step, body := StreamTurn(loop, pool, sc);
      if step.Stop? {
        WalkIsSound(sc, loop.tried);
        return step.ok, step.count, step.account, body;
      }
    }
    WalkIsSound(sc, loop.tried);
    AttemptsUsedUpEnds(sc, loop.tried);
    return false, loop.attempts, "", null;
  }
}
