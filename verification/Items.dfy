/** Pool items, route queries and the predicates that decide whether an item may serve one. */
module Items {
  import opened Strings

  datatype Option<+T> = None | Some(value: T)

  /** Nanoseconds; zero is the unset time. */
  type Time = int

  const SECOND: int := 1_000_000_000
  const HOUR: int := 3600 * SECOND

  function Unix(t: Time): int {
    t / SECOND
  }

  /** A reported balance; an upstream NaN compares false with everything. */
  datatype Balance = NaN | Amount(value: real)

  datatype QuotaPackage = QuotaPackage(remain: Balance, unit: string, scope: string, endsAt: int)

  datatype Quota = Quota(exceeded: bool, packages: seq<QuotaPackage>, hasAddOn: bool, hasResourcePackage: bool)

  /** One account as the pool schedules it. Go's nil and empty maps and slices are one value
      here, except for `models`, where nil means an unknown catalog. */
  datatype Item = Item(
    id: string,
    provider: string,
    region: string,
    weight: int,
    ready: Option<bool>,
    inFlight: nat,
    maxInFlight: int,
    quota: Option<Quota>,
    models: Option<seq<string>>,
    freeModels: seq<string>,
    provenModels: seq<string>,
    nativeModels: map<string, string>,
    modelAliases: map<string, string>,
    enabledModels: seq<string>,
    modelsRestricted: bool,
    downUntil: Time,
    lastError: string,
    lastKind: string,
    backoffLevel: nat,
    modelDownUntil: map<string, Time>,
    modelBackoff: map<string, nat>,
    modelLastKind: map<string, string>,
    stateVersion: nat)

  /** `fefoNow` is zero unless the pool runs the earliest-expiry strategy. */
  datatype Query = Query(
    publicModel: string,
    prefer: string,
    providerFilter: string,
    regionFilter: string,
    allowed: (string, string) -> bool,
    excluded: set<string>,
    eligible: Item -> bool,
    fefoNow: Time)

  // ---------------------------------------------------------------- names

  function CanonicalModel(model: string): (id: string)
    ensures id != ""
  {
    var key := ToLower(Trim(model));
    if key == "" then "auto"
    else seq(|key|, i requires 0 <= i < |key| => if key[i] == '_' || key[i] == ' ' then '-' else key[i])
  }

  predicate Dash(c: char) {
    c == '-' || c == '_' || c == ' '
  }

  /** Two names that differ only in case, in surrounding blanks and in what separates their words. */
  predicate SameSpelling(a: string, b: string) {
    var x, y := ToLower(Trim(a)), ToLower(Trim(b));
    |x| == |y| && forall i :: 0 <= i < |x| ==> x[i] == y[i] || (Dash(x[i]) && Dash(y[i]))
  }

  /** The canonical form tells models apart exactly when they are spelled differently. */
  lemma CanonicalTellsModelsApart(a: string, b: string)
    requires Trim(a) != "" && Trim(b) != ""
    ensures CanonicalModel(a) == CanonicalModel(b) <==> SameSpelling(a, b)
  {
    var x, y, u, v := ToLower(Trim(a)), ToLower(Trim(b)), CanonicalModel(a), CanonicalModel(b);
    if u == v {
      forall i | 0 <= i < |x| ensures x[i] == y[i] || (Dash(x[i]) && Dash(y[i])) {
        assert u[i] == v[i];
      }
    }
  }

  /** Position of the first colon, or the length. */
  function Colon(s: string): (i: nat)
    ensures i <= |s|
  {
    if s == "" || s[0] == ':' then 0 else 1 + Colon(s[1..])
  }

  /** Strips a leading one-word "Provider: " and canonicalises the rest. */
  function NormalizeModelName(model: string): string {
    var text := Trim(model);
    var i := Colon(text);
    if text == "" then ""
    else if i < |text| && ' ' !in Trim(text[..i]) then CanonicalModel(Trim(text[i + 1..]))
    else CanonicalModel(text)
  }

  /** The routed model; the empty string stands for "any model". */
  function RouteModel(model: string): string {
    var id := NormalizeModelName(model);
    if id == "auto" then "" else id
  }

  function NormalizeRegion(region: string): (r: string)
    ensures r != ""
  {
    var name := ToLower(Trim(region));
    if name == "" || name == "gl" then "global" else name
  }

  function NormalizeFamily(provider: string): (r: string)
    ensures r != ""
  {
    var name := ToLower(Trim(provider));
    if name == "" then "qoder" else if name == "muse" then "meta" else name
  }

  function NormalizeWeight(weight: int): (w: nat)
    ensures 1 <= w <= 100 && (1 <= weight <= 100 ==> w == weight)
  {
    if weight < 1 || weight > 100 then 50 else weight
  }

  function Region(item: Item): string {
    NormalizeRegion(item.region)
  }

  function Family(item: Item): string {
    NormalizeFamily(item.provider)
  }

  function Lookup(m: map<string, string>, key: string): string {
    if key in m then m[key] else ""
  }

  /** The routed model after this account's alias for it, if any. */
  function AliasTarget(item: Item, want: string): string {
    var target := Lookup(item.modelAliases, want);
    if target == "" then want else RouteModel(target)
  }

  predicate Lists(models: seq<string>, want: string) {
    exists i :: 0 <= i < |models| && CanonicalModel(models[i]) == want
  }

  function EffectiveCreditModel(item: Item, publicModel: string): string {
    AliasTarget(item, RouteModel(publicModel))
  }

  /** The account's own name for the requested model. */
  function AccountModel(item: Item, publicModel: string): string {
    var target := Trim(Lookup(item.modelAliases, RouteModel(publicModel)));
    if target == "" then Trim(publicModel) else target
  }

  /** The key under which a failure of `publicModel` cools this account down. */
  function CooldownModel(item: Item, publicModel: string): string {
    RouteModel(AccountModel(item, publicModel))
  }

  // ---------------------------------------------------------------- item state

  predicate Down(item: Item, now: Time) {
    item.downUntil != 0 && now < item.downUntil
  }

  predicate ModelDown(item: Item, q: Query, now: Time) {
    var model := CooldownModel(item, q.publicModel);
    model != "" && model in item.modelDownUntil && now < item.modelDownUntil[model]
  }

  predicate Cooling(item: Item, q: Query, now: Time) {
    Down(item, now) || ModelDown(item, q, now)
  }

  predicate Saturated(item: Item) {
    item.maxInFlight > 0 && item.inFlight >= item.maxInFlight
  }

  /** When the item becomes usable again for this route. */
  function ResumeAt(item: Item, q: Query): Time {
    var model := CooldownModel(item, q.publicModel);
    if model != "" && model in item.modelDownUntil &&
       (item.downUntil == 0 || item.modelDownUntil[model] > item.downUntil)
    then item.modelDownUntil[model]
    else item.downUntil
  }

  predicate ModelAllowed(item: Item, want: string) {
    item.modelsRestricted ==> Lists(item.enabledModels, AliasTarget(item, want))
  }

  predicate Catalogued(item: Item, want: string) {
    want != "" && ((item.models.Some? && Lists(item.models.value, want)) || Lists(item.provenModels, want))
  }

  /** The account belongs on the model's route, cooling or not. */
  predicate CouldServe(item: Item, publicModel: string) {
    var want := RouteModel(publicModel);
    want == "" ||
    (ModelAllowed(item, want) && (Catalogued(item, AliasTarget(item, want)) || item.models.None?))
  }

  /** The account can serve the model right now: an unknown catalog counts only while it is up. */
  predicate HasModel(item: Item, publicModel: string, now: Time) {
    var want := RouteModel(publicModel);
    want == "" ||
    (ModelAllowed(item, want) &&
     (Catalogued(item, AliasTarget(item, want)) || (item.models.None? && !Down(item, now))))
  }

  predicate ServesFree(item: Item, publicModel: string) {
    var want := RouteModel(publicModel);
    want != "" && Lists(item.freeModels, want)
  }

  predicate ReadyAndScoped(item: Item, q: Query) {
    && item.ready != Some(false)
    && item.id !in q.excluded
    && q.allowed(item.provider, Region(item))
    && (q.providerFilter != "" ==> Family(item) == NormalizeFamily(q.providerFilter))
    && (q.regionFilter != "" ==> Region(item) == NormalizeRegion(q.regionFilter))
    && q.eligible(item)
  }

  /** Two names without a provider's prefix are routed alike exactly when they are spellings of one model, or both
      leave the model open. */
  lemma RouteTellsModelsApart(a: string, b: string)
    requires Trim(a) != "" && Trim(b) != "" && ':' !in Trim(a) && ':' !in Trim(b)
    ensures RouteModel(a) == RouteModel(b) <==> SameSpelling(a, b)
    ensures RouteModel(a) == "" <==> SameSpelling(a, "auto")
  {
    TrimTrims(a);
    TrimTrims(b);
    TrimTrims(Trim(a));
    TrimTrims(Trim(b));
    NoColon(Trim(a));
    NoColon(Trim(b));
    CanonicalTellsModelsApart(Trim(a), Trim(b));
    CanonicalTellsModelsApart(Trim(a), "auto");
    CanonicalTellsModelsApart(Trim(b), "auto");
    assert Trim("auto") == "auto" && ToLower("auto") == "auto";
    assert CanonicalModel("auto") == "auto";
  }

  lemma {:induction false} NoColon(s: string)
    requires ':' !in s
    ensures Colon(s) == |s|
  {
    if s != "" { NoColon(s[1..]); }
  }

  /** Two provider names are one family exactly when they are the same name up to case and blanks, no name at all
      standing for `qoder` and `muse` for `meta`. */
  lemma FamiliesStayApart(a: string, b: string)
    ensures var x, y := ToLower(Trim(a)), ToLower(Trim(b));
      NormalizeFamily(a) == NormalizeFamily(b) <==>
        x == y || (x in {"", "qoder"} && y in {"", "qoder"}) || (x in {"muse", "meta"} && y in {"muse", "meta"})
  {}

  /** Who belongs on a model's route: an account that is allowed the model its alias stands for, the model itself if
      it has none, and has that model in its catalog, has proved it, or has no known catalog. It can serve it right
      now unless it has no known catalog and is down. */
  lemma WhoCouldServe(item: Item, publicModel: string, now: Time)
    ensures var asked := RouteModel(publicModel);
      var target := if asked in item.modelAliases then item.modelAliases[asked] else "";
      var want := if target != "" then RouteModel(target) else asked;
      var known := want != "" && (Lists(item.provenModels, want) ||
                                  (item.models.Some? && Lists(item.models.value, want)));
      var allowed := item.modelsRestricted ==> Lists(item.enabledModels, want);
      && (CouldServe(item, publicModel) <==> asked == "" || (allowed && (known || item.models.None?)))
      && (HasModel(item, publicModel, now) <==>
            asked == "" ||
            (allowed && (known || (item.models.None? && (item.downUntil == 0 || item.downUntil <= now)))))
  {}

  /** A normalised region is its own normal form. */
  lemma RegionIsIdempotent(region: string)
    ensures NormalizeRegion(NormalizeRegion(region)) == NormalizeRegion(region)
  {
    LowerTrimIsIdempotent(region);
    assert Trim("global") == "global" && ToLower("global") == "global";
  }
}
