/** Cooldowns at two scopes, the whole account and one model, each with its own deadline,
    ladder level and previous failure kind. */
module Cooldown {
  import opened Strings
  import opened Items

  const RATE_LIMIT: string := "rate_limit"
  const QUOTA: string := "quota"
  const INVALID_REQUEST: string := "invalid_request"
  const MODEL_NOT_AVAILABLE: string := "model_not_available"

  const MAX_LEVEL: nat := 8
  const FLOOR: int := 30 * SECOND
  const CEILING: int := 6 * HOUR

  datatype Failure = Failure(kind: string, cooldown: int, message: string, model: string)

  // ---------------------------------------------------------------- the ladder

  /** A product of two 64-bit durations as the machine computes it. */
  function Wrap64(x: int): int {
    (x + 0x8000_0000_0000_0000) % 0x1_0000_0000_0000_0000 - 0x8000_0000_0000_0000
  }

  function Power(level: nat): nat {
    if level == 0 then 1 else 2 * Power(level - 1)
  }

  function NextBackoff(base: int, level: int): (int, int) {
    var from := if level < 0 then 0 else level;
    if from >= MAX_LEVEL then (CEILING, from)
    else
      var scaled := Wrap64(base * Power(from));
      var next := if scaled < FLOOR then FLOOR else scaled;
      if next >= CEILING then (CEILING, from) else (next, from + 1)
  }

  /** The cooldown applied at a ladder level: the classifier's own at 0 and 1, then doubling. */
  function CooldownAt(base: int, level: nat): int {
    if level > 1 then NextBackoff(base, level - 1).0 else base
  }

  function Climb(level: nat): nat {
    if level < MAX_LEVEL then level + 1 else level
  }

  ghost predicate LadderIsMonotone(base: int) {
    forall level :: 0 <= level <= MAX_LEVEL ==> CooldownAt(base, level) <= CooldownAt(base, Climb(level))
  }

  lemma PowersOfTwo()
    ensures Power(0) == 1 && Power(1) == 2 && Power(2) == 4 && Power(3) == 8
    ensures Power(4) == 16 && Power(5) == 32 && Power(6) == 64 && Power(7) == 128
  {
    assert Power(3) == 8;
    assert Power(5) == 32;
  }

  lemma WithinCeilingDoesNotWrap(base: int, level: nat)
    requires 0 < base <= CEILING && level < MAX_LEVEL
    ensures Wrap64(base * Power(level)) == base * Power(level)
    ensures base * Power(level) >= base
  {
    PowersOfTwo();
    assert level == 0 || level == 1 || level == 2 || level == 3 || level == 4 || level == 5 || level == 6 || level == 7;
    assert base * Power(level) <= CEILING * 128;
  }

  function Clamped(cooldown: int): int {
    if cooldown < FLOOR then FLOOR else if cooldown < CEILING then cooldown else CEILING
  }

  lemma BackoffIsClamped(base: int, from: nat)
    requires 0 < base <= CEILING && from < MAX_LEVEL
    ensures NextBackoff(base, from).0 == Clamped(base * Power(from)) && base * Power(from) >= base
  {
    WithinCeilingDoesNotWrap(base, from);
  }

  lemma DoublingGrows(base: int, level: nat)
    requires 0 < base && 0 < level
    ensures base * Power(level) == 2 * (base * Power(level - 1))
  {}

  lemma StepNeverShortens(base: int, level: nat)
    requires 0 < base <= CEILING && level <= MAX_LEVEL
    ensures CooldownAt(base, level) <= CooldownAt(base, Climb(level)) <= CEILING
  {
    if 0 < level { BackoffIsClamped(base, level - 1); }
    if 0 < level < MAX_LEVEL {
      BackoffIsClamped(base, level);
      DoublingGrows(base, level);
    }
  }

  /** Climbing never shortens the cooldown exactly when the classifier's own cooldown is at most
      six hours; a longer one falls back to six hours on the second repeat. */
  lemma LadderIsMonotoneUpToSixHours(base: int)
    requires base > 0
    ensures LadderIsMonotone(base) <==> base <= CEILING
    ensures base <= CEILING ==> forall level :: 0 <= level <= MAX_LEVEL ==> CooldownAt(base, level) <= CEILING
  {
    if base <= CEILING {
      forall level | 0 <= level <= MAX_LEVEL
        ensures CooldownAt(base, level) <= CooldownAt(base, Climb(level)) && CooldownAt(base, level) <= CEILING
      {
        StepNeverShortens(base, level);
      }
    } else {
      assert CooldownAt(base, 1) > CEILING >= CooldownAt(base, Climb(1));
    }
  }

  // ---------------------------------------------------------------- the transitions

  /** The model a failure is scoped to; empty for the whole account. */
  function ScopeModel(f: Failure): string {
    if f.kind == RATE_LIMIT then RouteModel(f.model) else ""
  }

  function NextLevel(previous: string, level: nat, f: Failure): nat {
    if previous == f.kind && f.kind != INVALID_REQUEST then Climb(level) else 0
  }

  function Level(m: map<string, nat>, model: string): nat {
    if model in m then m[model] else 0
  }

  /** The ladder level a failure takes in scope `model`, empty for the account itself. */
  function LevelFor(item: Item, f: Failure, model: string): nat {
    if model != "" then NextLevel(Lookup(item.modelLastKind, model), Level(item.modelBackoff, model), f)
    else NextLevel(item.lastKind, item.backoffLevel, f)
  }

  /** Records a failure of one model; without a cooldown only its kind. */
  function ModelMarked(item: Item, f: Failure, model: string, level: nat, until: Time): Item {
    var cools := f.cooldown > 0;
    item.(lastError := f.message,
          modelLastKind := item.modelLastKind[model := f.kind],
          modelBackoff := if cools then item.modelBackoff[model := level] else item.modelBackoff,
          modelDownUntil := if cools then item.modelDownUntil[model := until] else item.modelDownUntil)
  }

  /** Records a failure of the whole account. */
  function AccountMarked(item: Item, f: Failure, level: nat, until: Time): Item {
    item.(lastError := f.message,
          lastKind := if f.kind != INVALID_REQUEST then f.kind else item.lastKind,
          backoffLevel := if f.cooldown > 0 then level else item.backoffLevel,
          downUntil := if f.cooldown > 0 then until else item.downUntil)
  }

  /** Records a failure in scope `model` with the level and deadline it earned. */
  function Marked(item: Item, f: Failure, model: string, level: nat, until: Time): Item {
    if model != "" then ModelMarked(item, f, model, level, until) else AccountMarked(item, f, level, until)
  }

  function ClassifiedIn(item: Item, f: Failure, model: string, now: Time): Item {
    var level := LevelFor(item, f, model);
    Marked(item, f, model, level, now + CooldownAt(f.cooldown, level))
  }

  /** `MarkClassified` on the account it names. */
  function Classified(item: Item, f: Failure, now: Time): Item {
    if f.kind == MODEL_NOT_AVAILABLE then item else ClassifiedIn(item, f, ScopeModel(f), now)
  }

  /** The provider's own spelling of a public model on this account. */
  function FirstListed(models: seq<string>, want: string): string {
    if models == [] then "" else if CanonicalModel(models[0]) == want then models[0] else FirstListed(models[1..], want)
  }

  function NativeModel(item: Item, publicModel: string): string {
    var want := RouteModel(publicModel);
    var mapped := Trim(Lookup(item.nativeModels, want));
    if want == "" then Trim(publicModel)
    else if mapped != "" then mapped
    else if item.models.Some? && Lists(item.models.value, want) then FirstListed(item.models.value, want)
    else if Lists(item.provenModels, want) then FirstListed(item.provenModels, want)
    else Trim(publicModel)
  }

  function RememberProven(item: Item, model: string): Item {
    var want := RouteModel(model);
    var native := NativeModel(item, model);
    if want == "" || Lists(item.provenModels, want) then item
    else item.(provenModels := item.provenModels + [if Trim(native) == "" then model else native])
  }

  /** Drops one model's record, and the account-wide ladder once no deadline remains. */
  function Recovered(item: Item, model: string): Item {
    var whole := model == "";
    var until := if whole then map[] else item.modelDownUntil - {model};
    var clear := whole || (item.downUntil == 0 && until == map[]);
    item.(downUntil := if whole then 0 else item.downUntil,
          lastError := if clear then "" else item.lastError,
          lastKind := if clear then "" else item.lastKind,
          backoffLevel := if clear then 0 else item.backoffLevel,
          modelDownUntil := until,
          modelBackoff := if whole then map[] else item.modelBackoff - {model},
          modelLastKind := if whole then map[] else item.modelLastKind - {model})
  }

  /** `MarkOK` on the account it names; an empty model means the whole account recovered. */
  function Succeeded(item: Item, model: string): Item {
    RememberProven(Recovered(item, RouteModel(model)), model)
  }

  /** `ClearAccountQuotaCooldown` on the account it names. */
  function QuotaCleared(item: Item): Item {
    if item.downUntil == 0 || (item.lastKind != "" && item.lastKind != QUOTA) then item
    else item.(downUntil := 0, lastError := "", lastKind := "", backoffLevel := 0)
  }

  // ---------------------------------------------------------------- what a failure costs

  /** The cooldown a ladder level earns, for a base of at most six hours: the base itself at 0 and 1, then
      doubled for each further level, at least half a minute and at most six hours. */
  function Earned(base: int, level: nat): int
    requires level <= 8
  {
    var doubled := base * [1, 1, 2, 4, 8, 16, 32, 64, 128][level];
    if level <= 1 then base
    else if doubled < 30 * SECOND then 30 * SECOND
    else if doubled > 6 * HOUR then 6 * HOUR else doubled
  }

  lemma CooldownIsEarned(base: int, level: nat)
    requires 0 < base <= 6 * HOUR && level <= 8
    ensures CooldownAt(base, level) == Earned(base, level)
  {
    PowersOfTwo();
    if level > 1 {
      BackoffIsClamped(base, level - 1);
      assert level == 2 || level == 3 || level == 4 || level == 5 || level == 6 || level == 7 || level == 8;
    }
  }

  /** A repeat of the same kind climbs one level, up to the eighth; any other failure starts at the bottom. */
  function Climbed(repeat: bool, level: nat): nat {
    if !repeat then 0 else if level < 8 then level + 1 else level
  }

  /** An account-wide failure with a cooldown takes the account out of service until its deadline, and no
      longer. */
  lemma FailureTakesTheAccountDown(item: Item, f: Failure, now: Time, t: Time)
    requires f.kind != MODEL_NOT_AVAILABLE && (f.kind == RATE_LIMIT ==> RouteModel(f.model) == "")
    requires 0 < f.cooldown && item.backoffLevel <= 8 && 0 <= now
    ensures var item' := Classified(item, f, now);
      var level := Climbed(f.kind == item.lastKind && f.kind != INVALID_REQUEST, item.backoffLevel);
      && item'.backoffLevel == level && item'.downUntil > now
      && (f.cooldown <= 6 * HOUR ==> item'.downUntil == now + Earned(f.cooldown, level))
      && (Down(item', t) <==> t < item'.downUntil)
      && item'.lastKind == (if f.kind == INVALID_REQUEST then item.lastKind else f.kind)
      && item'.lastError == f.message && item'.modelDownUntil == item.modelDownUntil
  {
    var level := LevelFor(item, f, "");
    if f.cooldown <= 6 * HOUR { CooldownIsEarned(f.cooldown, level); }
  }

  /** A rate limit on a model takes that model out of service on this account until its deadline. */
  lemma RateLimitTakesTheModelDown(item: Item, f: Failure, now: Time, q: Query, t: Time)
    requires f.kind == RATE_LIMIT && RouteModel(f.model) != "" && 0 < f.cooldown
    requires CooldownModel(item, q.publicModel) == RouteModel(f.model)
    requires Level(item.modelBackoff, RouteModel(f.model)) <= 8
    ensures var item', model := Classified(item, f, now), RouteModel(f.model);
      var level := Climbed(Lookup(item.modelLastKind, model) == RATE_LIMIT, Level(item.modelBackoff, model));
      && Level(item'.modelBackoff, model) == level
      && model in item'.modelDownUntil && item'.modelDownUntil[model] > now
      && (f.cooldown <= 6 * HOUR ==> item'.modelDownUntil[model] == now + Earned(f.cooldown, level))
      && (ModelDown(item', q, t) <==> t < item'.modelDownUntil[model])
      && Lookup(item'.modelLastKind, model) == RATE_LIMIT && item'.downUntil == item.downUntil
  {
    var level := LevelFor(item, f, RouteModel(f.model));
    if f.cooldown <= 6 * HOUR { CooldownIsEarned(f.cooldown, level); }
  }

  /** A failure without a cooldown leaves every deadline and level alone, and is remembered by its kind; a model
      reported unavailable is no failure of the account's at all. */
  lemma FailureWithoutCooldown(item: Item, f: Failure, now: Time)
    requires f.cooldown <= 0 || f.kind == MODEL_NOT_AVAILABLE
    ensures var item' := Classified(item, f, now);
      && (f.kind == MODEL_NOT_AVAILABLE ==> item' == item)
      && item'.downUntil == item.downUntil && item'.modelDownUntil == item.modelDownUntil
      && item'.backoffLevel == item.backoffLevel && item'.modelBackoff == item.modelBackoff
      && (f.kind !in {MODEL_NOT_AVAILABLE, RATE_LIMIT, INVALID_REQUEST} ==> item'.lastKind == f.kind)
      && (f.kind == RATE_LIMIT && RouteModel(f.model) != "" ==>
            Lookup(item'.modelLastKind, RouteModel(f.model)) == RATE_LIMIT && item'.lastKind == item.lastKind)
  {}

  /** Once a quota probe has cleared it, an account-wide quota cooldown is gone; any other cooldown stays. */
  lemma QuotaClearedIsUp(item: Item, t: Time)
    ensures var item' := QuotaCleared(item);
      && (item.lastKind in {"", QUOTA} ==> !Down(item', t))
      && (item.lastKind in {"", QUOTA} && item.downUntil != 0 ==>
            item'.lastKind == "" && item'.lastError == "" && item'.backoffLevel == 0)
      && (item.lastKind !in {"", QUOTA} ==> item' == item)
      && item'.modelDownUntil == item.modelDownUntil && item'.modelBackoff == item.modelBackoff
      && item'.modelLastKind == item.modelLastKind
  {}

  // ---------------------------------------------------------------- isolation

  datatype Event =
    | Fail(failure: Failure, now: Time)
    | Succeed(model: string)
    | ClearQuota

  function Apply(item: Item, e: Event): Item {
    match e
    case Fail(f, now) => Classified(item, f, now)
    case Succeed(model) => Succeeded(item, model)
    case ClearQuota => QuotaCleared(item)
  }

  function Run(item: Item, events: seq<Event>): Item {
    if events == [] then item else Apply(Run(item, events[..|events| - 1]), events[|events| - 1])
  }

  /** Everything the pool records about one model on one account. */
  datatype ModelScope = ModelScope(until: Option<Time>, level: Option<nat>, kind: Option<string>)

  function At<T>(m: map<string, T>, key: string): Option<T> {
    if key in m then Some(m[key]) else None
  }

  function ScopeOf(item: Item, model: string): ModelScope {
    ModelScope(At(item.modelDownUntil, model), At(item.modelBackoff, model), At(item.modelLastKind, model))
  }

  predicate Touches(e: Event, model: string) {
    match e
    case Fail(f, _) => f.kind != MODEL_NOT_AVAILABLE && ScopeModel(f) == model
    case Succeed(m) => RouteModel(m) == model || RouteModel(m) == ""
    case ClearQuota => false
  }

  function ScopeLevel(s: ModelScope, f: Failure): nat {
    NextLevel(if s.kind.Some? then s.kind.value else "", if s.level.Some? then s.level.value else 0, f)
  }

  function ScopeMarked(s: ModelScope, f: Failure, level: nat, until: Time): ModelScope {
    if f.cooldown > 0 then ModelScope(Some(until), Some(level), Some(f.kind)) else s.(kind := Some(f.kind))
  }

  /** What an event addressed to a model does to that model's record, seen on its own. */
  function StepScope(s: ModelScope, e: Event): ModelScope {
    match e
    case Fail(f, now) =>
      var level := ScopeLevel(s, f);
      ScopeMarked(s, f, level, now + CooldownAt(f.cooldown, level))
    case Succeed(_) => ModelScope(None, None, None)
    case ClearQuota => s
  }

  function RunScope(s: ModelScope, events: seq<Event>, model: string): ModelScope {
    if events == [] then s
    else
      var before := RunScope(s, events[..|events| - 1], model);
      var e := events[|events| - 1];
      if Touches(e, model) then StepScope(before, e) else before
  }

  lemma MarkTouchesItsScope(item: Item, f: Failure, scope: string, level: nat, until: Time, model: string)
    requires model != ""
    ensures ScopeOf(Marked(item, f, scope, level, until), model) ==
      if scope == model then ScopeMarked(ScopeOf(item, model), f, level, until) else ScopeOf(item, model)
  {
    if scope == "" {
      assert Marked(item, f, scope, level, until).modelDownUntil == item.modelDownUntil;
    }
  }

  lemma LevelComesFromScope(item: Item, f: Failure, model: string)
    requires model != ""
    ensures LevelFor(item, f, model) == ScopeLevel(ScopeOf(item, model), f)
  {}

  lemma FailureTouchesItsScope(item: Item, f: Failure, scope: string, now: Time, model: string)
    requires model != ""
    ensures ScopeOf(ClassifiedIn(item, f, scope, now), model) ==
      if scope == model then StepScope(ScopeOf(item, model), Fail(f, now)) else ScopeOf(item, model)
  {
    var level := LevelFor(item, f, scope);
    LevelComesFromScope(item, f, model);
    MarkTouchesItsScope(item, f, scope, level, now + CooldownAt(f.cooldown, level), model);
  }

  lemma RecoveryTouchesItsScope(item: Item, scoped: string, model: string)
    requires model != ""
    ensures ScopeOf(Recovered(item, scoped), model) ==
      if scoped == model || scoped == "" then ModelScope(None, None, None) else ScopeOf(item, model)
  {
    assert At(item.modelDownUntil - {scoped}, model) ==
      if scoped == model then None else At(item.modelDownUntil, model);
    assert At(item.modelBackoff - {scoped}, model) == if scoped == model then None else At(item.modelBackoff, model);
    assert At(item.modelLastKind - {scoped}, model) == if scoped == model then None else At(item.modelLastKind, model);
  }

  lemma ProvenLeavesCooldowns(item: Item, model: string)
    ensures var item' := RememberProven(item, model); item' == item.(provenModels := item'.provenModels)
  {}

  lemma EventTouchesItsScope(item: Item, e: Event, model: string)
    requires model != ""
    ensures ScopeOf(Apply(item, e), model) ==
      if Touches(e, model) then StepScope(ScopeOf(item, model), e) else ScopeOf(item, model)
  {
    match e
    case Fail(f, now) => FailureTouchesItsScope(item, f, ScopeModel(f), now, model);
    case Succeed(m) =>
      RecoveryTouchesItsScope(item, RouteModel(m), model);
      ProvenLeavesCooldowns(Recovered(item, RouteModel(m)), m);
    case ClearQuota =>
  }

  /** Over any run, a model's deadline, ladder and kind are what the events addressed to that
      model alone would have made them: no other model and no account-wide event interferes. */
  lemma {:induction false} ModelScopesAreIsolated(item: Item, events: seq<Event>, model: string)
    requires model != ""
    ensures ScopeOf(Run(item, events), model) == RunScope(ScopeOf(item, model), events, model)
  {
    if events != [] {
      var n := |events| - 1;
      ModelScopesAreIsolated(item, events[..n], model);
      EventTouchesItsScope(Run(item, events[..n]), events[n], model);
    }
  }

  /** A rate limit on one model leaves the account's own deadline, ladder and kind alone. */
  lemma RateLimitSparesAccount(item: Item, f: Failure, now: Time)
    requires ScopeModel(f) != ""
    ensures var item' := Classified(item, f, now);
      item' == item.(lastError := f.message, modelDownUntil := item'.modelDownUntil,
                     modelBackoff := item'.modelBackoff, modelLastKind := item'.modelLastKind)
  {}

  lemma NothingLeft<T>(m: map<string, T>, key: string)
    ensures m - {key} == map[] <==> m.Keys <= {key}
  {
    assert (m - {key}).Keys == m.Keys - {key};
    if m.Keys <= {key} {
      assert (m - {key}).Keys == {};
    }
    if m - {key} == map[] {
      assert m.Keys - {key} == {};
    }
  }

  /** A success on one model resets the account-wide ladder exactly when no deadline of any
      scope remains recorded, and never moves the account-wide deadline. */
  lemma SuccessResetsAccountOnlyWhenClear(item: Item, model: string)
    requires RouteModel(model) != ""
    ensures var item' := Succeeded(item, model);
      var clear := item.downUntil == 0 && item.modelDownUntil.Keys <= {RouteModel(model)};
      && item'.downUntil == item.downUntil
      && (item'.lastKind, item'.backoffLevel, item'.lastError) ==
           if clear then ("", 0, "") else (item.lastKind, item.backoffLevel, item.lastError)
  {
    NothingLeft(item.modelDownUntil, RouteModel(model));
    ProvenLeavesCooldowns(Recovered(item, RouteModel(model)), model);
  }

  ghost predicate LevelsBounded(item: Item) {
    item.backoffLevel <= MAX_LEVEL &&
    forall m :: m in item.modelBackoff ==> item.modelBackoff[m] <= MAX_LEVEL
  }

  lemma {:induction false} LevelsStayBounded(item: Item, events: seq<Event>)
    requires LevelsBounded(item)
    ensures LevelsBounded(Run(item, events))
  {
    if events != [] {
      LevelsStayBounded(item, events[..|events| - 1]);
      ApplyKeepsLevelsBounded(Run(item, events[..|events| - 1]), events[|events| - 1]);
    }
  }

  lemma MarkKeepsLevelsBounded(item: Item, f: Failure, scope: string, level: nat, until: Time)
    requires LevelsBounded(item) && level <= MAX_LEVEL
    ensures LevelsBounded(Marked(item, f, scope, level, until))
  {}

  lemma LevelForIsBounded(item: Item, f: Failure, scope: string)
    requires LevelsBounded(item)
    ensures LevelFor(item, f, scope) <= MAX_LEVEL
  {}

  lemma ClassifiedKeepsLevelsBounded(item: Item, f: Failure, now: Time)
    requires LevelsBounded(item)
    ensures LevelsBounded(Classified(item, f, now))
  {
    var scope := ScopeModel(f);
    var level := LevelFor(item, f, scope);
    LevelForIsBounded(item, f, scope);
    MarkKeepsLevelsBounded(item, f, scope, level, now + CooldownAt(f.cooldown, level));
  }

  lemma RecoveredKeepsLevelsBounded(item: Item, model: string)
    requires LevelsBounded(item)
    ensures LevelsBounded(Recovered(item, model))
  {}

  lemma SucceededKeepsLevelsBounded(item: Item, model: string)
    requires LevelsBounded(item)
    ensures LevelsBounded(Succeeded(item, model))
  {
    RecoveredKeepsLevelsBounded(item, RouteModel(model));
    ProvenLeavesCooldowns(Recovered(item, RouteModel(model)), model);
  }

  lemma ApplyKeepsLevelsBounded(item: Item, e: Event)
    requires LevelsBounded(item)
    ensures LevelsBounded(Apply(item, e))
  {
    match e
    case Fail(f, now) => ClassifiedKeepsLevelsBounded(item, f, now);
    case Succeed(m) => SucceededKeepsLevelsBounded(item, m);
    case ClearQuota =>
  }

  /** A later repeat of a failure with an unchanged cooldown of at most six hours never brings the
      deadline of its scope forward and never puts it more than six hours ahead. */
  lemma RepeatNeverShortens(item: Item, f: Failure, t1: Time, t2: Time)
    requires f.kind != MODEL_NOT_AVAILABLE
    requires 0 < f.cooldown <= CEILING && t1 <= t2 && LevelsBounded(item)
    ensures var once := Classified(item, f, t1);
      var twice := Classified(once, f, t2);
      var model := ScopeModel(f);
      if model == "" then once.downUntil - t1 <= twice.downUntil - t2 <= CEILING
      else once.modelDownUntil[model] - t1 <= twice.modelDownUntil[model] - t2 <= CEILING
  {
    var once := Classified(item, f, t1);
    var model := ScopeModel(f);
    StepNeverShortens(f.cooldown, if model == "" then once.backoffLevel else once.modelBackoff[model]);
  }

  /** The same failure again and again, at any times. */
  function Repeats(f: Failure, times: seq<Time>): seq<Event> {
    seq(|times|, i requires 0 <= i < |times| => Fail(f, times[i]))
  }

  lemma RepeatsOneMore(f: Failure, times: seq<Time>)
    requires times != []
    ensures var n := |times| - 1;
      Repeats(f, times)[..n] == Repeats(f, times[..n]) && Repeats(f, times)[n] == Fail(f, times[n])
  {}

  /** After n account-wide failures of one kind in a row, the first of a new kind, the account is down for the
      base doubled n - 2 times, from the last of them on. */
  lemma {:induction false} NthRepeatDoubles(item: Item, f: Failure, times: seq<Time>)
    requires f.kind != MODEL_NOT_AVAILABLE && (f.kind == RATE_LIMIT ==> RouteModel(f.model) == "")
    requires f.kind != INVALID_REQUEST && item.lastKind != f.kind && 0 < f.cooldown <= 6 * HOUR
    requires times != [] && forall i :: 0 <= i < |times| ==> 0 <= times[i]
    ensures var item', n := Run(item, Repeats(f, times)), |times|;
      var level := if n <= 8 then n - 1 else 8;
      && item'.backoffLevel == level && item'.lastKind == f.kind
      && item'.downUntil == times[n - 1] + Earned(f.cooldown, level)
  {
    var n := |times| - 1;
    RepeatsOneMore(f, times);
    if n == 0 {
      assert Repeats(f, times)[..0] == [];
      FirstOfAKind(item, f, times[0]);
    } else {
      NthRepeatDoubles(item, f, times[..n]);
      FailureTakesTheAccountDown(Run(item, Repeats(f, times[..n])), f, times[n], times[n]);
    }
  }

  lemma FirstOfAKind(item: Item, f: Failure, now: Time)
    requires f.kind != MODEL_NOT_AVAILABLE && (f.kind == RATE_LIMIT ==> RouteModel(f.model) == "")
    requires item.lastKind != f.kind && 0 < f.cooldown <= 6 * HOUR
    ensures var item' := Classified(item, f, now);
      item'.backoffLevel == 0 && item'.downUntil == now + f.cooldown &&
      item'.lastKind == if f.kind == INVALID_REQUEST then item.lastKind else f.kind
  {}

  /** A success brings the model's scope up, whatever failed before; one of no model brings every scope up. */
  lemma SuccessBringsItsScopeUp(item: Item, model: string, q: Query, t: Time)
    ensures var item', scope := Succeeded(item, model), RouteModel(model);
      && (scope != "" && CooldownModel(item, q.publicModel) == scope ==> !ModelDown(item', q, t))
      && (scope == "" ==> !Cooling(item', q, t) && item'.backoffLevel == 0 && item'.lastKind == "")
  {
    ProvenLeavesCooldowns(Recovered(item, RouteModel(model)), model);
  }

  ghost predicate FirstSpelling(models: seq<string>, want: string, name: string) {
    exists i :: 0 <= i < |models| && models[i] == name && CanonicalModel(name) == want &&
                forall j :: 0 <= j < i ==> CanonicalModel(models[j]) != want
  }

  lemma {:induction false} FirstListedIsFirst(models: seq<string>, want: string)
    requires Lists(models, want)
    ensures FirstSpelling(models, want, FirstListed(models, want))
  {
    if CanonicalModel(models[0]) == want {
      assert models[0] == FirstListed(models, want);
    } else {
      var k :| 0 <= k < |models| && CanonicalModel(models[k]) == want;
      assert models[1..][k - 1] == models[k];
      FirstListedIsFirst(models[1..], want);
      var name := FirstListed(models, want);
      var i :| 0 <= i < |models[1..]| && models[1..][i] == name &&
        forall j :: 0 <= j < i ==> CanonicalModel(models[1..][j]) != want;
      assert models[i + 1] == name;
      forall j | 0 <= j < i + 1 ensures CanonicalModel(models[j]) != want {
        if j > 0 { assert models[1..][j - 1] == models[j]; }
      }
    }
  }

  /** The account's own name for a model: the one its mapping gives, or else its catalog's first spelling, or else
      the first proven one, or else the name as it came. */
  lemma NativeNameIsTheAccounts(item: Item, publicModel: string)
    ensures var want, native := RouteModel(publicModel), NativeModel(item, publicModel);
      var mapped := Trim(Lookup(item.nativeModels, want));
      var catalogued := item.models.Some? && Lists(item.models.value, want);
      && (want == "" ==> native == Trim(publicModel))
      && (want != "" && mapped != "" ==> native == mapped)
      && (want != "" && mapped == "" && catalogued ==> FirstSpelling(item.models.value, want, native))
      && (want != "" && mapped == "" && !catalogued && Lists(item.provenModels, want) ==>
            FirstSpelling(item.provenModels, want, native))
      && (want != "" && mapped == "" && !catalogued && !Lists(item.provenModels, want) ==>
            native == Trim(publicModel))
  {
    var want := RouteModel(publicModel);
    if item.models.Some? && Lists(item.models.value, want) { FirstListedIsFirst(item.models.value, want); }
    if Lists(item.provenModels, want) { FirstListedIsFirst(item.provenModels, want); }
  }

  /** Whether the account is known to serve the model after it did: exactly when it was before, or the name
      under which the upstream knows the model is the model's own up to spelling. Otherwise every further
      success adds that name once more. */
  lemma SuccessProvesTheModelExactly(item: Item, model: string)
    requires RouteModel(model) != ""
    ensures var item', want := Succeeded(item, model), RouteModel(model);
      var native := NativeModel(item, model);
      var name := if Trim(native) == "" then model else native;
      && (Lists(item'.provenModels, want) <==> Lists(item.provenModels, want) || CanonicalModel(name) == want)
      && item'.provenModels == item.provenModels + if Lists(item.provenModels, want) then [] else [name]
  {
    RecoveredKeepsNames(item, RouteModel(model), model);
    RememberedIs(Recovered(item, RouteModel(model)), model);
    var native := NativeModel(item, model);
    ListsOneMore(item.provenModels, if Trim(native) == "" then model else native, RouteModel(model));
  }

  lemma ListsOneMore(models: seq<string>, name: string, want: string)
    ensures Lists(models + [name], want) <==> Lists(models, want) || CanonicalModel(name) == want
  {
    var more := models + [name];
    assert more[|models|] == name && forall i :: 0 <= i < |models| ==> more[i] == models[i];
  }

  lemma RememberedIs(item: Item, model: string)
    requires RouteModel(model) != ""
    ensures var native := NativeModel(item, model);
      RememberProven(item, model).provenModels == item.provenModels +
        if Lists(item.provenModels, RouteModel(model)) then [] else [if Trim(native) == "" then model else native]
  {}

  lemma RecoveredKeepsNames(item: Item, model: string, publicModel: string)
    ensures var item' := Recovered(item, model);
      item'.provenModels == item.provenModels && NativeModel(item', publicModel) == NativeModel(item, publicModel)
  {
    var item' := Recovered(item, model);
    assert item'.nativeModels == item.nativeModels && item'.models == item.models;
  }
}
