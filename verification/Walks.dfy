/** What a request's walk over the pool comes to, in terms of the run alone: the answers of the upstreams and
    what others made of the pool by each of the request's sections. */
module Walks {
  import opened Items
  import opened PoolModel
  import opened RouteLoop
  import Cooldown

  // ---------------------------------------------------------------- what an attempt comes to

  /** The attempt gets a slot: its account is still there and below its cap. */
  predicate Reserved(item: Item, o: Outcome) {
    HasRoom(o.pools(Reserving).items, item.id)
  }

  /** The account, holding a slot, serves or answers; a buffered answer must be readable. */
  predicate Succeeds(item: Item, direct: Item -> bool, o: Outcome, w: Worker, streaming: bool) {
    if direct(item) then o.local.Served? else w.Answered? && (streaming || w.decodes)
  }

  /** Another account may be tried: a failure says so, or the worker cannot be reached. Not once the caller
      has gone away, unless the worker refused before that was seen. */
  predicate Retryable(item: Item, direct: Item -> bool, o: Outcome, w: Worker) {
    if direct(item) then o.local.Failed? && o.local.verdict.failover && !o.canceled
    else (w.Unreachable? && !o.canceled) || (w.Refused? && w.verdict.failover)
  }

  /** The request goes on to another account, as long as attempts are left. */
  predicate MovesOn(item: Item, direct: Item -> bool, o: Outcome, w: Worker) {
    !Reserved(item, o) || Retryable(item, direct, o, w)
  }

  /** The name an attempt goes by: the account's own when it had no slot or was served in process, and
      otherwise the one the worker answered under. */
  function SkippedAs(item: Item, direct: Item -> bool, o: Outcome, w: Worker): string {
    if Reserved(item, o) && !direct(item) then Renamed(item.id, w) else item.id
  }

  /** A failure, under the model it belongs to by the time it is named. */
  function BlameFor(id: string, o: Outcome, failure: Cooldown.Failure, publicModel: string): Mark {
    Blame(id, Named(o.pools(Naming).items, id, failure, publicModel), o.later)
  }

  function PraiseFor(id: string, o: Outcome, publicModel: string): Mark {
    Praise(id, ModelFor(o.pools(Naming).items, id, publicModel))
  }

  /** What an attempt served in process reports: nothing once the caller went away. */
  function LocalReports(id: string, o: Outcome, publicModel: string): seq<Mark> {
    match o.local
    case Served(_) => [PraiseFor(id, o, publicModel)]
    case Failed(v) => if o.canceled then [] else [BlameFor(id, o, v.failure, publicModel)]
    case Declined => []
  }

  /** A worker's refusal or answer is reported under the name it answered with. */
  function WorkerReports(id: string, o: Outcome, w: Worker, readable: bool, publicModel: string): seq<Mark> {
    match w
    case NotSent => []
    case Unreachable(f) => if o.canceled then [] else [BlameFor(id, o, f, publicModel)]
    case Refused(_, v) => [BlameFor(Renamed(id, w), o, v.failure, publicModel)]
    case Answered(_, _, _) => if readable then [PraiseFor(Renamed(id, w), o, publicModel)] else []
  }

  /** What one attempt reports to the pool: nothing without a slot. */
  function Reports(item: Item, direct: Item -> bool, o: Outcome, w: Worker, streaming: bool, publicModel: string)
    : seq<Mark>
  {
    if !Reserved(item, o) then []
    else if direct(item) then LocalReports(item.id, o, publicModel)
    else WorkerReports(item.id, o, w, w.Answered? && (streaming || w.decodes), publicModel)
  }

  /** The answer comes with a body for the caller to read. */
  predicate BringsBody(item: Item, direct: Item -> bool, o: Outcome, w: Worker) {
    Reserved(item, o) && if direct(item) then o.local.Served? && o.local.hasBody else w.Answered? && w.hasBody
  }

  datatype Step = Again | Stop(ok: bool, count: nat, account: string)

  /** What an attempt served in process comes to, a slot held. */
  predicate LocalSettled(step: Step, id: string, o: Outcome, index: nat, attempts: nat) {
    if o.local.Failed? && o.local.verdict.failover && !o.canceled && index < attempts then step.Again?
    else step == Stop(o.local.Served?, index, id)
  }

  /** What an attempt of a worker comes to, a slot held. A worker out of reach is left behind without asking
      whether attempts are left. */
  predicate WorkerSettled(step: Step, id: string, o: Outcome, w: Worker, streaming: bool, index: nat, attempts: nat) {
    if (w.Unreachable? && !o.canceled) || (w.Refused? && w.verdict.failover && index < attempts) then step.Again?
    else if w.NotSent? then step == Stop(false, 0, "")
    else step == Stop(w.Answered? && (streaming || w.decodes), index, Renamed(id, w))
  }

  /** The account was asked and had the last word: it is what the caller is told when no attempts are left. */
  predicate HasLastWord(item: Item, direct: Item -> bool, o: Outcome, w: Worker) {
    Reserved(item, o) && (direct(item) || w.Refused?)
  }

  /** What an attempt, buffered or not, comes to. */
  predicate Settled(step: Step, item: Item, direct: Item -> bool, o: Outcome, w: Worker, streaming: bool, index: nat,
                    attempts: nat) {
    if MovesOn(item, direct, o, w) && (index < attempts || !HasLastWord(item, direct, o, w)) then step.Again?
    else if !direct(item) && w.NotSent? then step == Stop(false, 0, "")
    else step == Stop(Succeeds(item, direct, o, w, streaming), index, SkippedAs(item, direct, o, w))
  }

  lemma LocalSettles(step: Step, item: Item, direct: Item -> bool, o: Outcome, w: Worker, streaming: bool, index: nat,
                     attempts: nat)
    requires direct(item) && Reserved(item, o) && LocalSettled(step, item.id, o, index, attempts)
    ensures Settled(step, item, direct, o, w, streaming, index, attempts)
  {}

  lemma WorkerSettles(step: Step, item: Item, direct: Item -> bool, o: Outcome, w: Worker, streaming: bool, index: nat,
                      attempts: nat)
    requires !direct(item) && Reserved(item, o) && WorkerSettled(step, item.id, o, w, streaming, index, attempts)
    ensures Settled(step, item, direct, o, w, streaming, index, attempts)
  {}

  // ---------------------------------------------------------------- the walk

  /** A request in a run: what it asks for, which accounts are served in process, what each attempt meets,
      whether it streams, and how a query draws an account from the pool it meets. */
  datatype Scene = Scene(req: Request, direct: Item -> bool, world: nat -> Outcome, streaming: bool,
                         draw: (Query, Outcome) -> Option<Item>)

  /** Accounts are drawn as the pool hands them out. */
  function FromPool(): (Query, Outcome) -> Option<Item> {
    (q, o) => Drawn(q, o)
  }

  ghost predicate Genuine(sc: Scene) {
    forall q, o {:trigger Drawn(q, o)} :: sc.draw(q, o) == Drawn(q, o)
  }

  /** What the worker of attempt `k` does, asked for the account its request names. */
  function WorkerOf(pinned: string, id: string, k: nat, world: nat -> Outcome): Worker {
    world(k).worker(HeaderAccount(pinned, id, k))
  }

  function WorkerIn(sc: Scene, item: Item, k: nat): Worker {
    WorkerOf(sc.req.pinned, item.id, k, sc.world)
  }

  predicate MovedOn(sc: Scene, item: Item, k: nat) {
    MovesOn(item, sc.direct, sc.world(k), WorkerIn(sc, item, k))
  }

  predicate AllMovedOn(sc: Scene, tried: Trail) {
    match tried
    case Untried => true
    case Tried(earlier, item) => AllMovedOn(sc, earlier) && MovedOn(sc, item, Length(earlier))
  }

  function SkippedIn(sc: Scene, item: Item, k: nat): string {
    SkippedAs(item, sc.direct, sc.world(k), WorkerIn(sc, item, k))
  }

  /** The names excluded once all of `tried` are behind the request. */
  function Skipped(sc: Scene, tried: Trail): set<string> {
    match tried
    case Untried => {}
    case Tried(earlier, item) => Skipped(sc, earlier) + {SkippedIn(sc, item, Length(earlier))}
  }

  /** Each slot taken was given back before the next account was drawn. */
  function AllSlots(sc: Scene, tried: Trail): Slots {
    match tried
    case Untried => Nothing
    case Tried(earlier, item) =>
      var slots := AllSlots(sc, earlier);
      if Reserved(item, sc.world(Length(earlier))) then Gave(item.id, Took(item.id, slots)) else slots
  }

  function AllReports(sc: Scene, tried: Trail): seq<Mark> {
    match tried
    case Untried => []
    case Tried(earlier, item) =>
      var k := Length(earlier);
      AllReports(sc, earlier) +
      Reports(item, sc.direct, sc.world(k), WorkerIn(sc, item, k), sc.streaming, sc.req.publicModel)
  }

  predicate SomeReserved(sc: Scene, tried: Trail) {
    match tried
    case Untried => false
    case Tried(earlier, item) => SomeReserved(sc, earlier) || Reserved(item, sc.world(Length(earlier)))
  }

  function First(tried: Trail): Item
    requires tried.Tried?
  {
    if tried.earlier.Untried? then tried.item else First(tried.earlier)
  }

  /** The region of the request, once the first pick has fixed a missing one. */
  function RegionOf(req: Request, tried: Trail): string {
    if tried.Untried? then req.regionFilter else PinRegion(req.regionFilter, First(tried).region)
  }

  /** The query after `tried`: the preference counts for the first pick only. */
  function QueryFor(req: Request, tried: Trail, excluded: set<string>): Query {
    Query0(req.publicModel, if tried.Untried? then req.prefer else "", req.providerFilter, RegionOf(req, tried),
           req.allowed, excluded, req.eligible)
  }

  /** What the pool hands out after all of `tried` failed. */
  function NextDrawn(sc: Scene, tried: Trail): Option<Item> {
    sc.draw(QueryFor(sc.req, tried, Skipped(sc, tried)), sc.world(Length(tried)))
  }

  /** As many attempts as were counted at the start, or again once the first pick has fixed the region. */
  function AttemptsOf(sc: Scene, tried: Trail): nat {
    if tried.Untried? || sc.req.regionFilter != "" then sc.req.attempts
    else Recounted(sc.req.maxAttempts, QueryFor(sc.req, tried, {}), sc.world(0))
  }

  /** What the request still asks for after `tried`. */
  function AskedAfter(sc: Scene, tried: Trail): Request {
    sc.req.(prefer := if tried.Untried? then sc.req.prefer else "", regionFilter := RegionOf(sc.req, tried),
            attempts := AttemptsOf(sc, tried))
  }

  /** Each account tried is the one the pool handed out in its turn, after all before it were given up. */
  predicate Walked(sc: Scene, tried: Trail) {
    match tried
    case Untried => true
    case Tried(earlier, item) => Walked(sc, earlier) && AllMovedOn(sc, earlier) && NextDrawn(sc, earlier) == Some(item)
  }

  /** The last account tried served the request. */
  predicate EndsWell(sc: Scene, tried: Trail) {
    tried.Tried? &&
    (var k := Length(tried.earlier);
     Reserved(tried.item, sc.world(k)) &&
     Succeeds(tried.item, sc.direct, sc.world(k), WorkerIn(sc, tried.item, k), sc.streaming))
  }

  predicate EndsWithBody(sc: Scene, tried: Trail) {
    tried.Tried? &&
    (var k := Length(tried.earlier); BringsBody(tried.item, sc.direct, sc.world(k), WorkerIn(sc, tried.item, k)))
  }

  /** The last account tried served the request, or failed in a way that leaves no room for another. */
  predicate EndsThere(sc: Scene, tried: Trail) {
    tried.Tried? && !MovedOn(sc, tried.item, Length(tried.earlier))
  }

  /** All accounts tried were given up, and the pool hands out none. */
  predicate NoneLeft(sc: Scene, tried: Trail) {
    AllMovedOn(sc, tried) && NextDrawn(sc, tried).None?
  }

  /** What the caller is told of a request that ended after `tried`: how many attempts it took, and of which
      account. One whose request could not even be made up is not named; a walk that the pool hands out no
      more accounts for names any of those excluded, if one was asked at all. */
  predicate Told(sc: Scene, tried: Trail, count: nat, account: string) {
    var n := Length(tried);
    if EndsThere(sc, tried) then
      if !sc.direct(tried.item) && WorkerIn(sc, tried.item, n - 1).NotSent? then count == 0 && account == ""
      else count == n && account == SkippedIn(sc, tried.item, n - 1)
    else if n < AttemptsOf(sc, tried) then
      if SomeReserved(sc, tried) then count == n && account in Skipped(sc, tried) else count == 0 && account == ""
    else if tried.Tried? && HasLastWord(tried.item, sc.direct, sc.world(n - 1), WorkerIn(sc, tried.item, n - 1)) then
      count == n && account == SkippedIn(sc, tried.item, n - 1)
    else count == AttemptsOf(sc, tried) && account == ""
  }

  /** Why a request ended, in terms of the run: it succeeded exactly when the last account did, and gave up with
      attempts left only because that account's failure is final or the pool has no other. */
  predicate Ended(sc: Scene, tried: Trail, ok: bool, count: nat, account: string) {
    && Walked(sc, tried) && Length(tried) <= AttemptsOf(sc, tried)
    && (ok <==> EndsWell(sc, tried))
    && (!ok && Length(tried) < AttemptsOf(sc, tried) ==> EndsThere(sc, tried) || NoneLeft(sc, tried))
    && Told(sc, tried, count, account)
  }

  lemma AskedGoesOn(sc: Scene, tried: Trail, item: Item)
    ensures var asked, longer := AskedAfter(sc, tried), Tried(tried, item);
      && RegionOf(sc.req, longer) == PinRegion(asked.regionFilter, item.region)
      && AttemptsOf(sc, longer) ==
           (if asked.regionFilter == "" then Recounted(sc.req.maxAttempts, QueryFor(sc.req, longer, {}), sc.world(0))
            else asked.attempts)
      && (asked.regionFilter == "" ==> tried.Untried?)
  {}

  lemma {:induction false} SkippedWhenReserved(sc: Scene, tried: Trail)
    ensures SomeReserved(sc, tried) ==> Skipped(sc, tried) != {}
  {
    if tried.Tried? { assert SkippedIn(sc, tried.item, Length(tried.earlier)) in Skipped(sc, tried); }
  }

  lemma NoneDrawnEnds(sc: Scene, tried: Trail, count: nat, account: string)
    requires Walked(sc, tried) && AllMovedOn(sc, tried) && Length(tried) < AttemptsOf(sc, tried)
    requires NextDrawn(sc, tried).None?
    requires if SomeReserved(sc, tried) then count == Length(tried) && account in Skipped(sc, tried)
             else count == 0 && account == ""
    ensures Ended(sc, tried, false, count, account)
  {}

  /** The loop runs out only behind an account that had no last word. */
  lemma AttemptsUsedUpEnds(sc: Scene, tried: Trail)
    requires Walked(sc, tried) && AllMovedOn(sc, tried) && Length(tried) == AttemptsOf(sc, tried)
    requires NoLastWord(sc, tried)
    ensures Ended(sc, tried, false, AttemptsOf(sc, tried), "")
  {}

  predicate NoLastWord(sc: Scene, tried: Trail) {
    tried.Tried? ==>
      var k := Length(tried.earlier); !HasLastWord(tried.item, sc.direct, sc.world(k), WorkerIn(sc, tried.item, k))
  }

  /** The turn that tries `item` after `tried` came to `step`. */
  predicate Turned(sc: Scene, tried: Trail, item: Item, step: Step) {
    var k, attempts := Length(tried), AttemptsOf(sc, Tried(tried, item));
    && k < attempts
    && Settled(step, item, sc.direct, sc.world(k), WorkerIn(sc, item, k), sc.streaming, k + 1, attempts)
  }

  lemma TurnGoesOn(sc: Scene, tried: Trail, item: Item, step: Step)
    requires Turned(sc, tried, item, step) && step.Again?
    ensures MovedOn(sc, item, Length(tried))
    ensures Length(tried) + 1 == AttemptsOf(sc, Tried(tried, item)) ==> NoLastWord(sc, Tried(tried, item))
  {
    hide AttemptsOf, WorkerIn;
  }

  lemma TurnEnds(sc: Scene, tried: Trail, item: Item, step: Step)
    requires Turned(sc, tried, item, step) && step.Stop?
    ensures var longer := Tried(tried, item);
      && (step.ok <==> EndsWell(sc, longer)) && Told(sc, longer, step.count, step.account)
      && (!step.ok && Length(longer) < AttemptsOf(sc, longer) ==> EndsThere(sc, longer))
  {
    hide AttemptsOf, WorkerIn, SomeReserved, Skipped;
  }

  /** What a turn makes of the walk. */
  lemma TurnGoesOnOrEnds(sc: Scene, tried: Trail, item: Item, step: Step)
    requires Walked(sc, tried) && AllMovedOn(sc, tried) && NextDrawn(sc, tried) == Some(item)
    requires Turned(sc, tried, item, step)
    ensures var longer := Tried(tried, item);
      && Walked(sc, longer) && (step.Again? ==> AllMovedOn(sc, longer))
      && (step.Again? && Length(longer) == AttemptsOf(sc, longer) ==> NoLastWord(sc, longer))
      && (step.Stop? ==> Ended(sc, longer, step.ok, step.count, step.account))
  {
    hide AttemptsOf, NextDrawn, Settled, Told, EndsWell, EndsThere, NoLastWord, MovedOn;
    if step.Again? { TurnGoesOn(sc, tried, item, step); } else { TurnEnds(sc, tried, item, step); }
  }

  lemma {:induction false} SlotsAreGiven(sc: Scene, tried: Trail)
    ensures AllGiven(AllSlots(sc, tried))
  {
    if tried.Tried? { SlotsAreGiven(sc, tried.earlier); }
  }

  // ---------------------------------------------------------------- honest workers

  /** Every worker that was asked named no other account. */
  predicate AllHonest(tried: Trail, direct: Item -> bool, pinned: string, world: nat -> Outcome) {
    match tried
    case Untried => true
    case Tried(earlier, item) =>
      && AllHonest(earlier, direct, pinned, world)
      && (direct(item) || Honest(item.id, WorkerOf(pinned, item.id, Length(earlier), world)))
  }

  /** Every worker that was asked names the account its request names. */
  predicate AllEcho(tried: Trail, direct: Item -> bool, pinned: string, world: nat -> Outcome) {
    match tried
    case Untried => true
    case Tried(earlier, item) =>
      var k := Length(earlier);
      && AllEcho(earlier, direct, pinned, world)
      && (direct(item) || Echoes(HeaderAccount(pinned, item.id, k), WorkerOf(pinned, item.id, k, world)))
  }

  /** The first account tried is not the pinned one, and its worker answered. */
  predicate PinnedElsewhere(tried: Trail, direct: Item -> bool, pinned: string, world: nat -> Outcome) {
    tried.Tried? && !direct(First(tried)) && pinned != "" && pinned != First(tried).id &&
    Answers(WorkerOf(pinned, First(tried).id, 0, world))
  }

  /** With workers that echo the account they are asked for, all name the account tried exactly when the
      first attempt is not one of a request pinned elsewhere. */
  lemma {:induction false} EchoesAreHonestUnlessPinnedElsewhere(tried: Trail, direct: Item -> bool, pinned: string,
                                                                world: nat -> Outcome)
    requires AllEcho(tried, direct, pinned, world)
    ensures AllHonest(tried, direct, pinned, world) <==> !PinnedElsewhere(tried, direct, pinned, world)
  {
    if tried.Tried? {
      var item, k := tried.item, Length(tried.earlier);
      EchoesAreHonestUnlessPinnedElsewhere(tried.earlier, direct, pinned, world);
      if !direct(item) {
        EchoIsHonestUnlessPinnedElsewhere(pinned, item.id, k, WorkerOf(pinned, item.id, k, world));
      }
    }
  }

  function IdsOf(tried: Trail): set<string> {
    match tried
    case Untried => {}
    case Tried(earlier, item) => IdsOf(earlier) + {item.id}
  }

  /** No account is tried twice. */
  predicate NoRepeat(tried: Trail) {
    match tried
    case Untried => true
    case Tried(earlier, item) => NoRepeat(earlier) && item.id !in IdsOf(earlier)
  }

  /** Every report names the account tried: at most one for each, in order. */
  predicate MarksFollow(marks: seq<Mark>, tried: Trail) {
    match tried
    case Untried => marks == []
    case Tried(earlier, item) =>
      MarksFollow(marks, earlier) ||
      (marks != [] && marks[|marks| - 1].id == item.id && MarksFollow(marks[..|marks| - 1], earlier))
  }

  /** A report names the account tried exactly when it was served in process or its worker named no
      other. */
  lemma ReportNamesTheAccountExactly(item: Item, direct: Item -> bool, o: Outcome, w: Worker, streaming: bool,
                                     publicModel: string)
    requires Reports(item, direct, o, w, streaming, publicModel) != []
    ensures Reports(item, direct, o, w, streaming, publicModel)[0].id == item.id <==> direct(item) || Honest(item.id, w)
  {
  }

  lemma {:induction false} HonestReportsFollow(sc: Scene, tried: Trail)
    requires AllHonest(tried, sc.direct, sc.req.pinned, sc.world)
    ensures MarksFollow(AllReports(sc, tried), tried)
  {
    if tried.Tried? {
      var item, k := tried.item, Length(tried.earlier);
      HonestReportsFollow(sc, tried.earlier);
      var marks := AllReports(sc, tried.earlier);
      var more := Reports(item, sc.direct, sc.world(k), WorkerIn(sc, item, k), sc.streaming, sc.req.publicModel);
      if more == [] {
        assert marks + more == marks;
      } else {
        assert (marks + more)[..|marks + more| - 1] == marks;
      }
    }
  }

  lemma {:induction false} HonestAreSkipped(sc: Scene, tried: Trail)
    requires AllHonest(tried, sc.direct, sc.req.pinned, sc.world)
    ensures IdsOf(tried) <= Skipped(sc, tried)
  {
    if tried.Tried? { HonestAreSkipped(sc, tried.earlier); }
  }

  /** The account drawn is none of the excluded. */
  lemma DrawnIsNotSkipped(sc: Scene, tried: Trail)
    requires Genuine(sc)
    ensures var next := NextDrawn(sc, tried); next.Some? ==> next.value.id !in Skipped(sc, tried)
  {
    DrawnIsAdmitted(QueryFor(sc.req, tried, Skipped(sc, tried)), sc.world(Length(tried)));
  }

  /** With workers that name no other account, a walk tries none twice. */
  lemma {:induction false} HonestWalksDoNotRepeat(sc: Scene, tried: Trail)
    requires Genuine(sc) && Walked(sc, tried) && AllHonest(tried, sc.direct, sc.req.pinned, sc.world)
    ensures NoRepeat(tried)
  {
    if tried.Tried? {
      HonestWalksDoNotRepeat(sc, tried.earlier);
      HonestAreSkipped(sc, tried.earlier);
      DrawnIsNotSkipped(sc, tried.earlier);
    }
  }

  /** What every walk promises whatever it met: no slot is kept, and honest workers are tried once and reported
      in order. */
  lemma WalkIsSound(sc: Scene, tried: Trail)
    requires Genuine(sc) && Walked(sc, tried)
    ensures AllGiven(AllSlots(sc, tried))
    ensures AllHonest(tried, sc.direct, sc.req.pinned, sc.world) ==>
      NoRepeat(tried) && MarksFollow(AllReports(sc, tried), tried)
  {
    SlotsAreGiven(sc, tried);
    if AllHonest(tried, sc.direct, sc.req.pinned, sc.world) {
      HonestWalksDoNotRepeat(sc, tried);
      HonestReportsFollow(sc, tried);
    }
  }
}
