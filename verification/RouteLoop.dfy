/** One request's walk over the pool: bounded failover inside one region, and a slot freed on every
    way out. */
module RouteLoop {
  import opened Strings
  import opened Items
  import opened Routing
  import opened PoolModel
  import Cooldown

  // ---------------------------------------------------------------- what upstream does

  /** A classified failure; `failover` says whether another account may be tried. */
  datatype Verdict = Verdict(failure: Cooldown.Failure, failover: bool)

  /** What a provider served in process answers, declining a request its adapter cannot make, and
      what a worker does. */
  datatype Local = Served(hasBody: bool) | Failed(verdict: Verdict) | Declined

  datatype Worker =
    | NotSent
    | Unreachable(failure: Cooldown.Failure)
    | Refused(echo: string, verdict: Verdict)
    | Answered(echo: string, hasBody: bool, decodes: bool)

  /** The critical sections of one attempt on the pool, each at most once: the pick, the second count, the
      reservation, the account's name for the model, the report, and the slot's release. */
  datatype Section = Picking | Counting | Reserving | Naming | Reporting | Freeing

  /** Everything one attempt meets: the clock as it is read before and after the pick, whether the
      caller has gone away, the answer of either kind of account, and what others have made of the pool
      by each section. A worker's answer may depend on the account it is asked to use. */
  datatype Outcome = Outcome(now: Time, later: Time, canceled: bool, local: Local, worker: string -> Worker,
                             pools: Section -> Snapshot)

  /** The account an attempt's request names: the pinned one on the first attempt of a pinned request,
      whichever was picked. */
  function HeaderAccount(pinned: string, id: string, attempt: nat): string {
    if attempt == 0 && pinned != "" then pinned else id
  }

  /** The account ID an attempt goes by after the worker's answer. */
  function Renamed(id: string, w: Worker): string {
    if (w.Answered? || w.Refused?) && w.echo != "" then w.echo else id
  }

  /** The worker names no account, or the one it was picked as. */
  predicate Honest(id: string, w: Worker) {
    Renamed(id, w) == id
  }

  predicate Answers(w: Worker) {
    w.Answered? || w.Refused?
  }

  /** An answering worker names the account its request named. */
  predicate Echoes(header: string, w: Worker) {
    Answers(w) ==> w.echo == header
  }

  /** A worker that echoes its request's account names another than the picked one exactly when it
      answers the first attempt of a request pinned elsewhere. */
  lemma EchoIsHonestUnlessPinnedElsewhere(pinned: string, id: string, attempt: nat, w: Worker)
    requires Echoes(HeaderAccount(pinned, id, attempt), w)
    ensures Honest(id, w) <==> !(Answers(w) && attempt == 0 && pinned != "" && pinned != id)
  {
  }

  // ---------------------------------------------------------------- slots of one request

  /** The slots a request took and gave back, latest first. */
  datatype Slots = Nothing | Took(id: string, earlier: Slots) | Gave(id: string, earlier: Slots)

  /** Every slot taken was given back, once, before the next was taken. */
  predicate AllGiven(slots: Slots) {
    match slots
    case Nothing => true
    case Took(_, _) => false
    case Gave(id, earlier) => earlier.Took? && earlier.id == id && AllGiven(earlier.earlier)
  }

  /** All but the last slot taken were given back; the last is `id`'s. */
  predicate Holding(slots: Slots, id: string) {
    slots.Took? && slots.id == id && AllGiven(slots.earlier)
  }

  /** Which accounts the request reported to the pool, and how. */
  datatype Mark = Blame(id: string, failure: Cooldown.Failure, at: Time) | Praise(id: string, model: string)

  /** A stream body that owns a slot. However often it is closed, it frees the slot once. */
  class ReleaseCloser {
    const id: string
    var done: bool

    constructor (id: string)
      ensures this.id == id && !done
    {
      this.id, this.done := id, false;
    }

    method Close(pool: Pool)
      requires pool.Valid()
      modifies this, pool`items
      ensures pool.Valid() && done
      ensures pool.items == if old(done) then old(pool.items) else Given(old(pool.items), id)
    {
      if !done {
        done := true;
        pool.Release(id);
      }
    }
  }

  /** Everything other requests and the manager do to the pool between two of this request's critical
      sections: it becomes whatever the run says. */
  method Others(pool: Pool, s: Snapshot)
    modifies pool
    ensures pool.Valid() && pool.Now() == s
  {
    pool.items, pool.strategy, pool.stateCounter := s.items, s.strategy, s.counter;
    pool.lastPicked, pool.lastRegion := s.memory.lastPicked, s.memory.lastRegion;
    pool.weightCounter := s.memory.weightCounter;
  }

  // ---------------------------------------------------------------- the loop's state

  const ATTEMPT_LIMIT: nat := 64

  function Clamp(maxAttempts: int): (cap: nat)
    ensures 1 <= cap <= ATTEMPT_LIMIT
  {
    if maxAttempts <= 0 then 4 else if maxAttempts > ATTEMPT_LIMIT then ATTEMPT_LIMIT else maxAttempts
  }

  function Anyone(): Item -> bool {
    (item: Item) => true
  }

  function Query0(publicModel: string, prefer: string, providerFilter: string, regionFilter: string,
                  allowed: (string, string) -> bool, excluded: set<string>, eligible: Item -> bool): Query {
    Query(publicModel, prefer, providerFilter, regionFilter, allowed, excluded, eligible, 0)
  }

  /** As many attempts as there are accounts on the route, at most the clamped limit, at least one. */
  function AttemptCount(items: seq<Item>, strategy: Strategy, maxAttempts: int, query: Query, now: Time): (n: nat)
    ensures 1 <= n <= Clamp(maxAttempts)
  {
    var count := RouteCount(items, Stamped(query, strategy, now), now);
    if count == 0 then 1 else if count > Clamp(maxAttempts) then Clamp(maxAttempts) else count
  }

  method AttemptsFor(pool: Pool, maxAttempts: int, query: Query, now: Time) returns (n: nat)
    requires pool.Valid()
    ensures n == AttemptCount(pool.items, pool.strategy, maxAttempts, query, now)
    ensures var q := query.(fefoNow := if pool.strategy == EarliestExpiry then now else query.fefoNow);
      var route := |set i: nat | i < |pool.items| && Matches(pool.items[i], q, now)|;
      var limit := if maxAttempts <= 0 then 4 else if maxAttempts > 64 then 64 else maxAttempts;
      if route == 0 then n == 1 else n <= route && n <= limit && (n == route || n == limit)
  {
    RouteCountIsMatches(pool.items, Stamped(query, pool.strategy, now), now);
    var count := pool.LenRoute(query, now);
    n := 1;
    if count > 0 {
      n := if count > Clamp(maxAttempts) then Clamp(maxAttempts) else count;
    }
  }

  /** An account the request may use: granted, of the asked provider and kind, and in `region`. */
  predicate Admitted(item: Item, providerFilter: string, allowed: (string, string) -> bool, region: string) {
    && allowed(item.provider, Region(item))
    && (providerFilter != "" ==> Family(item) == NormalizeFamily(providerFilter))
    && Region(item) == NormalizeRegion(region)
  }

  /** The accounts a request has tried, the last one outermost. */
  datatype Trail = Untried | Tried(earlier: Trail, item: Item)

  function Length(tried: Trail): nat {
    match tried
    case Untried => 0
    case Tried(earlier, _) => Length(earlier) + 1
  }

  predicate AllAdmitted(tried: Trail, providerFilter: string, allowed: (string, string) -> bool, region: string) {
    match tried
    case Untried => true
    case Tried(earlier, item) =>
      AllAdmitted(earlier, providerFilter, allowed, region) && Admitted(item, providerFilter, allowed, region)
  }

  function PinRegion(current: string, next: string): string {
    if current != "" then current else NormalizeRegion(next)
  }

  /** The region a request starts with. An empty result is fixed by the first pick. */
  function StartRegion(items: seq<Item>, prefer: string, providerFilter: string, sticky: string, modelRegion: string,
                       granted: Option<string>): string {
    var region :=
      if modelRegion != "" then modelRegion
      else if providerFilter != "" && granted.Some? then granted.value
      else sticky;
    match Find(items, prefer)
    case Some(pinned) => if region == "" && prefer != "" then PinRegion("", pinned.region) else region
    case None => region
  }

  lemma ScopedIsAdmitted(item: Item, q: Query)
    requires ReadyAndScoped(item, q)
    ensures Admitted(item, q.providerFilter, q.allowed, PinRegion(q.regionFilter, item.region))
    ensures item.id !in q.excluded && q.eligible(item)
  {
    RegionIsIdempotent(item.region);
  }

  /** The pick for the query, unless it is still cooling when its retry delay is read. */
  function Dispatched(picked: Option<Item>, q: Query, later: Time): Option<Item> {
    if picked.Some? && ResumeAt(picked.value, q) <= later then picked else None
  }

  method Dispatch(pool: Pool, q: Query, o: Outcome) returns (picked: Option<Item>)
    requires pool.Valid()
    modifies pool`lastPicked, pool`lastRegion, pool`weightCounter
    ensures pool.Valid()
    ensures var pick := Pick(pool.items, pool.strategy, old(pool.MemoryNow()), q, o.now);
      picked == Dispatched(pick.0, q, o.later) && pool.MemoryNow() == pick.1
  {
    picked := pool.PickRoute(q, o.now);
    if picked.Some? && ResumeAt(picked.value, q) > o.later {
      picked := None;
    }
  }

  lemma DispatchedIsAdmitted(items: seq<Item>, strategy: Strategy, m: Memory, q: Query, now: Time, later: Time)
    ensures var picked := Dispatched(Pick(items, strategy, m, q, now).0, q, later);
      picked.Some? ==>
        && Admitted(picked.value, q.providerFilter, q.allowed, PinRegion(q.regionFilter, picked.value.region))
        && picked.value.id !in q.excluded && q.eligible(picked.value)
  {
    PickIsScoped(items, strategy, m, q, now);
    var picked := Pick(items, strategy, m, q, now).0;
    if picked.Some? { ScopedIsAdmitted(picked.value, q); }
  }

  /** Whatever is dispatched, usable or just out of its cooldown, passes the route's filters. */
  lemma PickIsScoped(items: seq<Item>, strategy: Strategy, m: Memory, query: Query, now: Time)
    ensures var r := Pick(items, strategy, m, query, now).0;
      r.Some? ==> r.value in items && ReadyAndScoped(r.value, query)
  {
    var q := Stamped(query, strategy, now);
    SoonestResumesFirst(items, q, now);
    var available := Available(items, q, now);
    if available != [] && PinOutcome(items, q, now).Unpinned? {
      assert Serve(available, strategy, m, q, now).0 in available;
    }
  }

  /** The account an attempt draws for a query: what `PickRoute` hands out, past its cooldown by the time
      that is read again. */
  function Drawn(q: Query, o: Outcome): Option<Item> {
    var s := o.pools(Picking);
    Dispatched(Pick(s.items, s.strategy, s.memory, q, o.now).0, q, o.later)
  }

  lemma DrawnIsAdmitted(q: Query, o: Outcome)
    ensures var picked := Drawn(q, o);
      picked.Some? ==>
        && Admitted(picked.value, q.providerFilter, q.allowed, PinRegion(q.regionFilter, picked.value.region))
        && picked.value.id !in q.excluded && q.eligible(picked.value) && ResumeAt(picked.value, q) <= o.later
  {
    var s := o.pools(Picking);
    DispatchedIsAdmitted(s.items, s.strategy, s.memory, q, o.now, o.later);
  }

  /** With a usable account on the route, and no preference that refuses the query, an account is drawn. */
  lemma UsableMeansDrawn(q: Query, o: Outcome, x: Item)
    requires var s := o.pools(Picking); var stamped := Stamped(q, s.strategy, o.now);
      && 0 < o.now <= o.later && x in s.items && Usable(x, stamped, o.now)
      && PinOutcome(s.items, stamped, o.now) != Pin.Refused
    ensures Drawn(q, o).Some?
  {
    var s := o.pools(Picking);
    UsableMeansServed(s.items, s.strategy, s.memory, q, o.now, x);
    UpByThen(Pick(s.items, s.strategy, s.memory, q, o.now).0.value, q, s.strategy, o.now);
  }

  lemma UpByThen(item: Item, q: Query, strategy: Strategy, now: Time)
    requires 0 < now && !Cooling(item, Stamped(q, strategy, now), now)
    ensures ResumeAt(item, q) <= now
  {
    RetryDelayMeansCooling(item, q, now);
  }

  method Draw(pool: Pool, q: Query, o: Outcome) returns (picked: Option<Item>)
    modifies pool
    ensures pool.Valid() && picked == Drawn(q, o)
  {
    Others(pool, o.pools(Picking));
    picked := Dispatch(pool, q, o);
  }

  /** How many attempts an attempt's second count allows. */
  function Recounted(maxAttempts: int, q: Query, o: Outcome): (n: nat)
    ensures 1 <= n <= Clamp(maxAttempts)
  {
    var s := o.pools(Counting);
    AttemptCount(s.items, s.strategy, maxAttempts, q, o.later)
  }

  method Recount(pool: Pool, maxAttempts: int, q: Query, o: Outcome) returns (n: nat)
    modifies pool
    ensures pool.Valid() && n == Recounted(maxAttempts, q, o)
  {
    Others(pool, o.pools(Counting));
    n := AttemptsFor(pool, maxAttempts, q, o.later);
  }

  /** The model under which an account's success or failure is recorded. */
  function ModelFor(items: seq<Item>, id: string, publicModel: string): string {
    match Find(items, id)
    case Some(item) => AccountModel(item, publicModel)
    case None => publicModel
  }

  /** A rate limit that names no model is the requested model's. */
  function Named(items: seq<Item>, id: string, f: Cooldown.Failure, publicModel: string): Cooldown.Failure {
    if f.model == "" && f.kind == Cooldown.RATE_LIMIT then f.(model := ModelFor(items, id, publicModel)) else f
  }

  /** The pool contents after an account was blamed, and after it was praised. */
  function Blamed(items: seq<Item>, id: string, f: Cooldown.Failure, now: Time, version: nat): seq<Item> {
    var i := IndexIn(items, id);
    if id == "" || f.kind == Cooldown.MODEL_NOT_AVAILABLE || i == |items| then items
    else items[i := Cooldown.Classified(items[i], f, now).(stateVersion := version)]
  }

  function Praised(items: seq<Item>, id: string, model: string, version: nat): seq<Item> {
    var i := IndexIn(items, id);
    if id == "" || i == |items| then items
    else items[i := Cooldown.Succeeded(items[i], model).(stateVersion := version)]
  }

  /** An alias and the account's own name for a model cool down together. */
  lemma AliasSharesItsCooldown(item: Item, alias: string, target: string)
    requires Trim(Lookup(item.modelAliases, RouteModel(alias))) == Trim(target) != ""
    requires Trim(Lookup(item.modelAliases, RouteModel(target))) == ""
    ensures CooldownModel(item, alias) == CooldownModel(item, target)
  {}

  /** A rate limit met by a request takes the account out of service for exactly that request's model, until its
      deadline. */
  lemma BlameCoolsTheRequestedModel(items: seq<Item>, id: string, f: Cooldown.Failure, q: Query, now: Time,
                                    version: nat, t: Time)
    requires id != "" && IndexIn(items, id) < |items| && f.kind == Cooldown.RATE_LIMIT && f.model == ""
    requires var item := items[IndexIn(items, id)]; var model := CooldownModel(item, q.publicModel);
      0 < f.cooldown && model != "" && Cooldown.Level(item.modelBackoff, model) <= 8
    ensures var i := IndexIn(items, id);
      var items' := Blamed(items, id, Named(items, id, f, q.publicModel), now, version);
      var model := CooldownModel(items[i], q.publicModel);
      && |items'| == |items| && (forall j :: 0 <= j < |items| && j != i ==> items'[j] == items[j])
      && model in items'[i].modelDownUntil && now < items'[i].modelDownUntil[model]
      && (ModelDown(items'[i], q, t) <==> t < items'[i].modelDownUntil[model])
      && items'[i].downUntil == items[i].downUntil
  {
    var i := IndexIn(items, id);
    FindAtIndex(items, id);
    Cooldown.RateLimitTakesTheModelDown(items[i], Named(items, id, f, q.publicModel), now, q, t);
  }

  /** A success of a request brings the account back for that request's model. */
  lemma PraiseBringsTheModelUp(items: seq<Item>, id: string, q: Query, version: nat, t: Time)
    requires id != "" && IndexIn(items, id) < |items|
    ensures var i := IndexIn(items, id);
      var items' := Praised(items, id, ModelFor(items, id, q.publicModel), version);
      && |items'| == |items| && (forall j :: 0 <= j < |items| && j != i ==> items'[j] == items[j])
      && !ModelDown(items'[i], q, t)
  {
    var i := IndexIn(items, id);
    FindAtIndex(items, id);
    var item := items[i];
    Cooldown.SuccessBringsItsScopeUp(item, AccountModel(item, q.publicModel), q, t);
    Cooldown.ProvenLeavesCooldowns(Cooldown.Recovered(item, CooldownModel(item, q.publicModel)),
                                   AccountModel(item, q.publicModel));
  }

  /** What a request asks for, and the attempts it starts with. */
  datatype Request = Request(publicModel: string, prefer: string, pinned: string, providerFilter: string,
                             regionFilter: string, allowed: (string, string) -> bool, eligible: Item -> bool,
                             maxAttempts: int, attempts: nat)

  class Loop {
    const publicModel: string
    const pinned: string
    const providerFilter: string
    const allowed: (string, string) -> bool
    const maxAttempts: int
    var eligible: Item -> bool
    var prefer: string
    var regionFilter: string
    var excluded: set<string>
    var attempts: nat
    var index: nat
    var failed: bool
    ghost var tried: Trail
    ghost var slots: Slots
    ghost var marks: seq<Mark>

    /** The accounts tried so far are admitted and share the region the request is pinned to. */
    ghost predicate Valid()
      reads this`tried, this`index, this`attempts, this`regionFilter
    {
      && index == Length(tried) && index <= Clamp(maxAttempts) && 1 <= attempts <= Clamp(maxAttempts)
      && (tried.Tried? ==> regionFilter != "")
      && AllAdmitted(tried, providerFilter, allowed, regionFilter)
    }

    /** The region comes from the model name, else from a grant that leaves one region, else from
        session stickiness, else from the preferred account. A preference is a pin when the caller
        asked for it, and session stickiness otherwise. */
    constructor (pool: Pool, publicModel: string, prefer: string, pin: bool, providerFilter: string,
                 stickyRegion: string, modelRegion: string, granted: Option<string>,
                 allowed: (string, string) -> bool, maxAttempts: int, now: Time)
      requires pool.Valid()
      ensures Valid() && tried.Untried? && slots.Nothing? && marks == [] && excluded == {} && !failed
      ensures this.providerFilter == providerFilter && this.allowed == allowed && this.maxAttempts == maxAttempts
      ensures this.prefer == prefer && this.publicModel == publicModel && eligible == Anyone()
      ensures pinned == if pin then prefer else ""
      ensures regionFilter == StartRegion(pool.items, prefer, providerFilter, stickyRegion, modelRegion, granted)
      ensures modelRegion != "" ==> regionFilter == modelRegion
      ensures modelRegion == "" && providerFilter != "" && granted.Some? && granted.value != "" ==>
        regionFilter == granted.value
      ensures modelRegion == "" && (providerFilter == "" || granted.None?) && stickyRegion != "" ==>
        regionFilter == stickyRegion
      ensures
        var given := if providerFilter != "" && granted.Some? then granted.value else stickyRegion;
        var preferred := if prefer == "" then None else Find(pool.items, prefer);
        modelRegion == "" && given == "" ==>
          regionFilter == if preferred.None? then "" else NormalizeRegion(preferred.value.region)
      ensures attempts == AttemptCount(pool.items, pool.strategy, maxAttempts, CurrentQuery("", {}), now)
    {
      this.publicModel, this.prefer, this.providerFilter, this.allowed := publicModel, prefer, providerFilter, allowed;
      this.maxAttempts, eligible := maxAttempts, Anyone();
      pinned := if pin then prefer else "";
      excluded, index, failed, tried, slots, marks := {}, 0, false, Untried, Nothing, [];
      var region := StartRegion(pool.items, prefer, providerFilter, stickyRegion, modelRegion, granted);
      var count := AttemptsFor(pool, maxAttempts,
        Query0(publicModel, "", providerFilter, region, allowed, {}, Anyone()), now);
      regionFilter, attempts := region, count;
    }

    function Asked(): Request
      reads this`prefer, this`regionFilter, this`eligible, this`attempts
    {
      Request(publicModel, prefer, pinned, providerFilter, regionFilter, allowed, eligible, maxAttempts, attempts)
    }

    function CurrentQuery(prefer: string, excluded: set<string>): Query
      reads this
    {
      Query0(publicModel, prefer, providerFilter, regionFilter, allowed, excluded, eligible)
    }

    /** The native-responses variant narrows the route and counts its accounts again. */
    method RequireEligible(pool: Pool, eligible: Item -> bool, now: Time)
      requires Valid() && tried.Untried? && pool.Valid()
      modifies this`eligible, this`attempts
      ensures Valid() && this.eligible == eligible
      ensures attempts == AttemptCount(pool.items, pool.strategy, maxAttempts, CurrentQuery("", {}), now)
    {
      this.eligible := eligible;
      attempts := AttemptsFor(pool, maxAttempts, CurrentQuery("", {}), now);
    }

    /** Counts a picked account: the preference is spent, and the first pick fixes the region. */
    method Admit(item: Item)
      requires Valid() && index < attempts &&
        Admitted(item, providerFilter, allowed, PinRegion(regionFilter, item.region))
      modifies this`prefer, this`regionFilter, this`index, this`tried
      ensures Valid() && index == old(index) + 1 && tried == Tried(old(tried), item)
      ensures prefer == "" && regionFilter == PinRegion(old(regionFilter), item.region)
    {
      index, tried, prefer := index + 1, Tried(tried, item), "";
      if regionFilter == "" {
        regionFilter := PinRegion(regionFilter, item.region);
      }
    }

    /** Picks the next account. The first pick clears the preference and, unless a region was already
        fixed, pins the request to that account's region and counts the attempts again. */
    method PickNext(pool: Pool, o: Outcome) returns (picked: Option<Item>)
      requires Valid() && index < attempts
      modifies this`prefer, this`regionFilter, this`attempts, this`index, this`tried, pool
      ensures Valid() && pool.Valid()
      ensures picked == Drawn(old(CurrentQuery(prefer, excluded)), o)
      ensures index == if picked.Some? then old(index) + 1 else old(index)
      ensures picked.None? ==> tried == old(tried) && prefer == old(prefer) && regionFilter == old(regionFilter)
      ensures attempts == if picked.Some? && old(regionFilter) == ""
                          then Recounted(maxAttempts, CurrentQuery("", {}), o) else old(attempts)
      ensures picked.Some? ==>
        && tried == Tried(old(tried), picked.value)
        && picked.value.id !in excluded && eligible(picked.value)
        && ResumeAt(picked.value, old(CurrentQuery(prefer, excluded))) <= o.later
        && prefer == "" && regionFilter == PinRegion(old(regionFilter), picked.value.region)
    {
      var q := CurrentQuery(prefer, excluded);
      DrawnIsAdmitted(q, o);
      picked := Draw(pool, q, o);
      if picked.None? {
        return;
      }
      var fixesRegion := regionFilter == "";
      Admit(picked.value);
      if fixesRegion {
        attempts := Recount(pool, maxAttempts, CurrentQuery("", {}), o);
      }
    }

    predicate CanFailover(failover: bool)
      reads this
    {
      failover && index < attempts
    }

    method Exclude(id: string)
      modifies this`excluded
      ensures excluded == old(excluded) + {id}
    {
      excluded := excluded + {id};
    }

    method AcquireInFlight(pool: Pool, id: string) returns (ok: bool)
      requires pool.Valid() && AllGiven(slots)
      modifies this`slots, pool`items
      ensures pool.Valid() && pool.items == Taken(old(pool.items), id)
      ensures ok <==> HasRoom(old(pool.items), id)
      ensures slots == if ok then Took(id, old(slots)) else old(slots)
    {
      ok := pool.Acquire(id);
      if ok {
        slots := Took(id, slots);
      }
    }

    method ReleaseInFlight(pool: Pool, id: string)
      requires pool.Valid() && Holding(slots, id)
      modifies this`slots, pool`items
      ensures pool.Valid() && pool.items == Given(old(pool.items), id)
      ensures slots == Gave(id, old(slots))
    {
      pool.Release(id);
      slots := Gave(id, slots);
    }

    method RecordedModel(pool: Pool, id: string) returns (model: string)
      ensures model == ModelFor(pool.items, id, publicModel)
    {
      var item := pool.ByID(id);
      model := if item.Some? then AccountModel(item.value, publicModel) else publicModel;
    }

    method NameFailure(pool: Pool, id: string, failure: Cooldown.Failure) returns (named: Cooldown.Failure)
      ensures named == Named(pool.items, id, failure, publicModel)
    {
      named := failure;
      if failure.model == "" && failure.kind == Cooldown.RATE_LIMIT {
        var model := RecordedModel(pool, id);
        named := failure.(model := model);
      }
    }

    method MarkFailed(pool: Pool, id: string, failure: Cooldown.Failure, now: Time)
      requires pool.Valid()
      modifies this`marks, pool`items, pool`stateCounter
      ensures pool.Valid() && marks == old(marks) + [Blame(id, failure, now)]
      ensures pool.items == Blamed(old(pool.items), id, failure, now, old(pool.stateCounter) + 1)
    {
      var snapshot := pool.MarkClassified(id, failure, now);
      marks := marks + [Blame(id, failure, now)];
    }

    method MarkServed(pool: Pool, id: string, model: string)
      requires pool.Valid()
      modifies this`marks, pool`items, pool`stateCounter
      ensures pool.Valid() && marks == old(marks) + [Praise(id, model)]
      ensures pool.items == Praised(old(pool.items), id, model, old(pool.stateCounter) + 1)
    {
      var snapshot := pool.MarkOK(id, model);
      marks := marks + [Praise(id, model)];
    }
  }
}
