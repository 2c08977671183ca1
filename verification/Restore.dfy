/** Cooldowns across a restart: flattening an item into rows, merging an item into the pool, and
    folding the rows back into a freshly registered account. */
module Restore {
  import opened Items
  import opened Cooldown

  datatype Row = Row(
    accountId: string, model: string, downUntil: Time, backoffLevel: int, kind: string, message: string,
    modelKind: string)

  // ---------------------------------------------------------------- flattening

  function AccountRow(item: Item): Row {
    Row(item.id, "", item.downUntil, item.backoffLevel, item.lastKind, item.lastError, "")
  }

  /** A model without a recorded kind borrows the account's. */
  function KindOf(item: Item, model: string): string {
    var own := Lookup(item.modelLastKind, model);
    if own != "" then own else item.lastKind
  }

  function ModelRow(item: Item, model: string): Row
    requires model in item.modelDownUntil
  {
    Row(item.id, model, item.modelDownUntil[model], Level(item.modelBackoff, model), KindOf(item, model),
        item.lastError, KindOf(item, model))
  }

  predicate IsRowOf(row: Row, item: Item) {
    if row.model == "" then item.downUntil != 0 && row == AccountRow(item)
    else row.model in item.modelDownUntil && item.modelDownUntil[row.model] != 0 && row == ModelRow(item, row.model)
  }

  ghost predicate DistinctKeys(rows: seq<Row>) {
    forall i, j :: 0 <= i < j < |rows| ==> (rows[i].accountId, rows[i].model) != (rows[j].accountId, rows[j].model)
  }

  /** Model keys are routed names, never empty. */
  ghost predicate WellKeyed(item: Item) {
    "" !in item.modelDownUntil
  }

  /** One row per recorded deadline, whatever order the model table is visited in. */
  method CooldownRows(item: Item) returns (rows: seq<Row>)
    requires WellKeyed(item)
    ensures forall row :: row in rows <==> IsRowOf(row, item)
    ensures DistinctKeys(rows)
  {
    rows := if item.downUntil != 0 then [AccountRow(item)] else [];
    var left := item.modelDownUntil.Keys;
    while left != {}
      invariant left <= item.modelDownUntil.Keys
      invariant forall row :: row in rows <==> IsRowOf(row, item) && row.model !in left
      invariant DistinctKeys(rows)
      decreases left
    {
      var model := PickModel(left);
      if item.modelDownUntil[model] != 0 {
        forall i | 0 <= i < |rows| ensures rows[i].model != model {
          assert rows[i] in rows;
        }
        rows := rows + [ModelRow(item, model)];
      }
      left := left - {model};
    }
  }

  method PickModel(models: set<string>) returns (model: string)
    requires models != {}
    ensures model in models
  {
    model :| model in models;
  }

  // ---------------------------------------------------------------- merging

  /** `Upsert` onto an account already in the pool: unset fields keep what the pool knows. */
  function Merge(existing: Item, item: Item): Item {
    Item(
      item.id, NormalizeFamily(item.provider), NormalizeRegion(item.region),
      if item.weight == 0 then existing.weight else item.weight,
      if item.ready.None? then existing.ready else item.ready,
      existing.inFlight,
      if item.maxInFlight == 0 then existing.maxInFlight else item.maxInFlight,
      if item.quota.None? then existing.quota else item.quota,
      if item.models.None? then existing.models else item.models,
      if item.freeModels == [] then existing.freeModels else item.freeModels,
      if item.provenModels == [] then existing.provenModels else item.provenModels,
      if item.nativeModels == map[] then existing.nativeModels else item.nativeModels,
      if item.modelAliases == map[] then existing.modelAliases else item.modelAliases,
      if item.enabledModels == [] && !item.modelsRestricted then existing.enabledModels else item.enabledModels,
      if item.enabledModels == [] && !item.modelsRestricted then existing.modelsRestricted else item.modelsRestricted,
      if item.downUntil == 0 then existing.downUntil else item.downUntil,
      if item.lastError == "" then existing.lastError else item.lastError,
      if item.lastKind == "" then existing.lastKind else item.lastKind,
      if item.backoffLevel == 0 then existing.backoffLevel else item.backoffLevel,
      if item.modelDownUntil == map[] then existing.modelDownUntil else item.modelDownUntil,
      if item.modelBackoff == map[] then existing.modelBackoff else item.modelBackoff,
      if item.modelLastKind == map[] then existing.modelLastKind else item.modelLastKind,
      if item.stateVersion == 0 then existing.stateVersion else item.stateVersion)
  }

  // ---------------------------------------------------------------- restoring

  function ClampLevel(level: int): (l: nat)
    ensures l <= MAX_LEVEL && (0 <= level <= MAX_LEVEL ==> l == level)
  {
    if level < 0 then 0 else if level > MAX_LEVEL then MAX_LEVEL else level
  }

  /** What a row writes on the account it belongs to: the account's own record, or one model's. */
  function RestoreAccount(item: Item, level: nat, until: Time): Item {
    item.(backoffLevel := if level > item.backoffLevel then level else item.backoffLevel, downUntil := until)
  }

  function RestoreModel(item: Item, model: string, kind: string, level: nat, until: Time): Item {
    item.(modelDownUntil := item.modelDownUntil[model := until],
          modelBackoff := if level > Level(item.modelBackoff, model) then item.modelBackoff[model := level]
                          else item.modelBackoff,
          modelLastKind := if kind != "" && Lookup(item.modelLastKind, model) == ""
                           then item.modelLastKind[model := kind] else item.modelLastKind)
  }

  function RestoreRow(item: Item, row: Row): Item {
    var level := ClampLevel(row.backoffLevel);
    if row.model == "" then RestoreAccount(item, level, row.downUntil)
    else RestoreModel(item, row.model, row.modelKind, level, row.downUntil)
  }

  /** An account that gives its identity only. */
  function Bare(id: string, provider: string, region: string): Item {
    Item(id, provider, region, 0, None, 0, 0, None, None, [], [], map[], map[], [], false, 0, "", "", 0, map[], map[],
         map[], 0)
  }

  /** Registering an account again under its identity only keeps everything else the pool knows of it. */
  lemma BareRegistrationKeeps(existing: Item, provider: string, region: string)
    ensures Merge(existing, Bare(existing.id, provider, region)) ==
      existing.(provider := NormalizeFamily(provider), region := NormalizeRegion(region))
  {}

  /** Every field is given a value of its own. */
  predicate Complete(item: Item) {
    && item.weight != 0 && item.ready.Some? && item.maxInFlight != 0 && item.quota.Some? && item.models.Some?
    && item.freeModels != [] && item.provenModels != [] && item.nativeModels != map[] && item.modelAliases != map[]
    && (item.enabledModels != [] || item.modelsRestricted) && item.downUntil != 0 && item.lastError != ""
    && item.lastKind != "" && item.backoffLevel != 0 && item.modelDownUntil != map[] && item.modelBackoff != map[]
    && item.modelLastKind != map[] && item.stateVersion != 0
  }

  /** Registering a complete account replaces everything but the count of slots in use. */
  lemma CompleteRegistrationReplaces(existing: Item, item: Item)
    requires Complete(item)
    ensures Merge(existing, item) ==
      item.(provider := NormalizeFamily(item.provider), region := NormalizeRegion(item.region),
            inFlight := existing.inFlight)
  {}

  /** The account is read in one section and the restored copy merged back in another. A deadline another
      model gets in between survives exactly when the copy has no model's deadline; a slot taken or given
      back in between is never lost. */
  lemma DeadlineBetweenSurvivesExactly(read: Item, current: Item, row: Row, model: string)
    requires model in current.modelDownUntil && model !in read.modelDownUntil && model != row.model
    ensures var merged := Merge(current, RestoreRow(read, row));
      && (model in merged.modelDownUntil <==> row.model == "" && read.modelDownUntil == map[])
      && merged.inFlight == current.inFlight
  {
    var copy := RestoreRow(read, row);
    if row.model == "" {
      assert copy.modelDownUntil == read.modelDownUntil;
    } else {
      assert row.model in copy.modelDownUntil && model !in copy.modelDownUntil;
    }
  }

  /** A row sets its deadline and nothing else goes back: no level falls, no kind on record is replaced, and
      levels stay within 0 to 8 whatever the row says. */
  lemma RestoringLosesNothing(item: Item, row: Row, model: string)
    ensures var item' := RestoreRow(item, row);
      && (row.model == "" ==> item'.downUntil == row.downUntil && item'.modelDownUntil == item.modelDownUntil)
      && (row.model != "" ==> item'.downUntil == item.downUntil &&
                              item'.modelDownUntil == item.modelDownUntil[row.model := row.downUntil])
      && item.backoffLevel <= item'.backoffLevel && item'.lastKind == item.lastKind
      && Level(item.modelBackoff, model) <= Level(item'.modelBackoff, model)
      && (Lookup(item.modelLastKind, model) != "" ==>
            Lookup(item'.modelLastKind, model) == Lookup(item.modelLastKind, model))
      && (LevelsBounded(item) ==> LevelsBounded(item'))
  {}

  function RestoreStep(item: Item, row: Row): Item {
    if row.accountId == item.id then Merge(item, RestoreRow(item, row)) else item
  }

  function RestoreAll(item: Item, rows: seq<Row>): (r: Item)
    ensures r.id == item.id
  {
    if rows == [] then item else RestoreStep(RestoreAll(item, rows[..|rows| - 1]), rows[|rows| - 1])
  }

  /** A freshly registered account carries no cooldown state. */
  ghost predicate Fresh(item: Item) {
    && item.downUntil == 0 && item.backoffLevel == 0 && item.lastKind == ""
    && item.modelDownUntil == map[] && item.modelBackoff == map[] && item.modelLastKind == map[]
  }

  /** The rows the store returns at boot, in any order: the item's own deadlines that still lie in
      the future, among the rows of other accounts. */
  ghost predicate Persisted(rows: seq<Row>, item: Item, now: Time) {
    && DistinctKeys(rows)
    && (forall i :: 0 <= i < |rows| && rows[i].accountId == item.id ==>
      IsRowOf(rows[i], item) && rows[i].downUntil > now)
    && (forall row :: IsRowOf(row, item) && row.downUntil > now ==> row in rows)
  }

  /** The row for scope `model` among the first `k`. */
  ghost predicate Seen(rows: seq<Row>, k: nat, id: string, model: string)
    requires k <= |rows|
  {
    exists i :: 0 <= i < k && rows[i].accountId == id && rows[i].model == model
  }

  ghost predicate AccountRestored(r: Item, item: Item, seen: bool) {
    && r.lastKind == ""
    && r.downUntil == (if seen then item.downUntil else 0)
    && r.backoffLevel == (if seen then item.backoffLevel else 0)
  }

  ghost predicate ModelRestored(r: Item, item: Item, m: string, seen: bool) {
    if seen
    then At(r.modelDownUntil, m) == At(item.modelDownUntil, m) &&
      Level(r.modelBackoff, m) == Level(item.modelBackoff, m) &&
         Lookup(r.modelLastKind, m) == KindOf(item, m)
    else m !in r.modelDownUntil && m !in r.modelBackoff && m !in r.modelLastKind
  }

  lemma MergeKeepsAccount(existing: Item, level: nat, until: Time)
    requires until != 0
    ensures var r := RestoreAccount(existing, level, until);
      var merged := Merge(existing, r);
      merged.downUntil == r.downUntil && merged.backoffLevel == r.backoffLevel && merged.lastKind == r.lastKind
  {}

  lemma MergeKeepsModels(existing: Item, r: Item)
    requires r.modelDownUntil == map[] ==> existing.modelDownUntil == map[]
    requires r.modelBackoff == map[] ==> existing.modelBackoff == map[]
    requires r.modelLastKind == map[] ==> existing.modelLastKind == map[]
    ensures var merged := Merge(existing, r);
      && merged.modelDownUntil == r.modelDownUntil && merged.modelBackoff == r.modelBackoff
      && merged.modelLastKind == r.modelLastKind
  {}

  lemma MergeKeepsUntouched(existing: Item, model: string, kind: string, level: nat, until: Time)
    ensures var r := RestoreModel(existing, model, kind, level, until);
      var merged := Merge(existing, r);
      merged.downUntil == r.downUntil && merged.backoffLevel == r.backoffLevel && merged.lastKind == r.lastKind
  {}

  lemma RestoredModelIsThere(existing: Item, model: string, kind: string, level: nat, until: Time)
    ensures var r := RestoreModel(existing, model, kind, level, until);
      && model in r.modelDownUntil
      && (r.modelBackoff == map[] ==> existing.modelBackoff == map[])
      && (r.modelLastKind == map[] ==> existing.modelLastKind == map[])
  {
    var r := RestoreModel(existing, model, kind, level, until);
    if r.modelBackoff != existing.modelBackoff { assert model in r.modelBackoff; }
    if r.modelLastKind != existing.modelLastKind { assert model in r.modelLastKind; }
  }

  lemma MergeKeepsRestored(existing: Item, row: Row)
    requires row.downUntil != 0
    ensures var r := RestoreRow(existing, row);
      var merged := Merge(existing, r);
      && merged.downUntil == r.downUntil && merged.backoffLevel == r.backoffLevel && merged.lastKind == r.lastKind
      && merged.modelDownUntil == r.modelDownUntil && merged.modelBackoff == r.modelBackoff
      && merged.modelLastKind == r.modelLastKind
  {
    var level := ClampLevel(row.backoffLevel);
    if row.model == "" {
      MergeKeepsAccount(existing, level, row.downUntil);
    } else {
      MergeKeepsUntouched(existing, row.model, row.modelKind, level, row.downUntil);
      RestoredModelIsThere(existing, row.model, row.modelKind, level, row.downUntil);
    }
    MergeKeepsModels(existing, RestoreRow(existing, row));
  }

  /** The maps agree on `m`. */
  predicate SameAt<T(==)>(a: map<string, T>, b: map<string, T>, m: string) {
    (m in a <==> m in b) && (m in a ==> a[m] == b[m])
  }

  lemma OtherKeyKept<T>(a: map<string, T>, key: string, v: T, m: string)
    requires key != m
    ensures SameAt(a[key := v], a, m)
  {}

  lemma RestoredModelSparesOthers(item: Item, model: string, kind: string, level: nat, until: Time, m: string)
    requires model != m
    ensures var r := RestoreModel(item, model, kind, level, until);
      && SameAt(r.modelDownUntil, item.modelDownUntil, m) && SameAt(r.modelBackoff, item.modelBackoff, m)
      && SameAt(r.modelLastKind, item.modelLastKind, m)
  {
    OtherKeyKept(item.modelDownUntil, model, until, m);
    OtherKeyKept(item.modelBackoff, model, level, m);
    OtherKeyKept(item.modelLastKind, model, kind, m);
  }

  lemma RowSparesOtherModels(before: Item, row: Row, m: string)
    requires row.model != m && m != ""
    ensures var r := RestoreRow(before, row);
      && SameAt(r.modelDownUntil, before.modelDownUntil, m) && SameAt(r.modelBackoff, before.modelBackoff, m)
      && SameAt(r.modelLastKind, before.modelLastKind, m)
  {
    if row.model != "" {
      RestoredModelSparesOthers(before, row.model, row.modelKind, ClampLevel(row.backoffLevel), row.downUntil, m);
    }
  }

  lemma RowRestoresItsModel(before: Item, item: Item, row: Row, m: string, seen: bool)
    requires LevelsBounded(item) && IsRowOf(row, item) && m != ""
    requires ModelRestored(before, item, m, seen) && (row.model == m ==> !seen)
    ensures ModelRestored(RestoreRow(before, row), item, m, seen || row.model == m)
  {
    if row.model != m { RowSparesOtherModels(before, row, m); }
  }

  lemma RowRestoresItsAccount(before: Item, item: Item, row: Row, seen: bool)
    requires LevelsBounded(item) && IsRowOf(row, item)
    requires AccountRestored(before, item, seen) && (row.model == "" ==> !seen)
    ensures AccountRestored(RestoreRow(before, row), item, seen || row.model == "")
  {}

  lemma SeenStep(rows: seq<Row>, k: nat, id: string, model: string)
    requires k < |rows| && DistinctKeys(rows)
    ensures Seen(rows, k + 1, id, model) <==>
      Seen(rows, k, id, model) || (rows[k].accountId == id && rows[k].model == model)
    ensures rows[k].accountId == id && rows[k].model == model ==> !Seen(rows, k, id, model)
  {}

  lemma StepRestores(before: Item, item: Item, row: Row, m: string, seen: bool)
    requires LevelsBounded(item) && before.id == item.id
    requires row.accountId == item.id ==> IsRowOf(row, item) && row.downUntil != 0 && (row.model == m ==> !seen)
    requires if m == "" then AccountRestored(before, item, seen) else ModelRestored(before, item, m, seen)
    ensures var seen' := seen || (row.accountId == item.id && row.model == m);
      var r := RestoreStep(before, row);
      if m == "" then AccountRestored(r, item, seen') else ModelRestored(r, item, m, seen')
  {
    if row.accountId == item.id {
      MergeKeepsRestored(before, row);
      if m == "" { RowRestoresItsAccount(before, item, row, seen); }
      else { RowRestoresItsModel(before, item, row, m, seen); }
    }
  }

  /** After `k` rows exactly the scopes whose rows were seen hold what was recorded for them. */
  lemma {:induction false} RestoreFollowsRows(blank: Item, item: Item, rows: seq<Row>, now: Time, k: nat, m: string)
    requires Fresh(blank) && blank.id == item.id && LevelsBounded(item) && now >= 0
    requires Persisted(rows, item, now) && k <= |rows|
    ensures var r := RestoreAll(blank, rows[..k]);
      var seen := Seen(rows, k, item.id, m);
      if m == "" then AccountRestored(r, item, seen) else ModelRestored(r, item, m, seen)
  {
    if k > 0 {
      RestoreFollowsRows(blank, item, rows, now, k - 1, m);
      assert rows[..k][..k - 1] == rows[..k - 1];
      SeenStep(rows, k - 1, item.id, m);
      StepRestores(RestoreAll(blank, rows[..k - 1]), item, rows[k - 1], m, Seen(rows, k - 1, item.id, m));
    }
  }

  ghost predicate Cooled(item: Item, model: string, now: Time) {
    model in item.modelDownUntil && item.modelDownUntil[model] > now
  }

  lemma AccountRowIsSeen(item: Item, rows: seq<Row>, now: Time)
    requires Persisted(rows, item, now) && now >= 0
    ensures Seen(rows, |rows|, item.id, "") <==> item.downUntil > now
  {
    if item.downUntil > now {
      assert IsRowOf(AccountRow(item), item);
      var i :| 0 <= i < |rows| && rows[i] == AccountRow(item);
    }
  }

  lemma ModelRowIsSeen(item: Item, rows: seq<Row>, now: Time, m: string)
    requires Persisted(rows, item, now) && now >= 0 && m != ""
    ensures Seen(rows, |rows|, item.id, m) <==> Cooled(item, m, now)
  {
    if Cooled(item, m, now) {
      assert IsRowOf(ModelRow(item, m), item);
      var i :| 0 <= i < |rows| && rows[i] == ModelRow(item, m);
    }
  }

  /** Restoring the rows, in whatever order the store returns them, reproduces every future
      deadline, the account's level when its deadline is one of them, and each cooled model's
      level and kind; no model's level reaches the account and nothing else is invented. */
  lemma RestartReproducesCooldowns(blank: Item, item: Item, rows: seq<Row>, now: Time)
    requires Fresh(blank) && blank.id == item.id && LevelsBounded(item) && WellKeyed(item) && now >= 0
    requires Persisted(rows, item, now)
    ensures var r := RestoreAll(blank, rows);
      && r.downUntil == (if item.downUntil > now then item.downUntil else 0)
      && r.backoffLevel == (if item.downUntil > now then item.backoffLevel else 0)
      && (forall m :: Cooled(item, m, now) ==>
            && At(r.modelDownUntil, m) == At(item.modelDownUntil, m)
            && Level(r.modelBackoff, m) == Level(item.modelBackoff, m)
            && Lookup(r.modelLastKind, m) == KindOf(item, m))
      && (forall m :: m != "" && !Cooled(item, m, now) ==> ScopeOf(r, m) == ModelScope(None, None, None))
  {
    assert rows[..|rows|] == rows;
    RestoreFollowsRows(blank, item, rows, now, |rows|, "");
    AccountRowIsSeen(item, rows, now);
    forall m | m != ""
      ensures ModelRestored(RestoreAll(blank, rows), item, m, Cooled(item, m, now))
    {
      RestoreFollowsRows(blank, item, rows, now, |rows|, m);
      ModelRowIsSeen(item, rows, now, m);
    }
  }

  // ---------------------------------------------------------------- the next failure

  /** Every deadline of a model was written by a rate limit on it, which recorded its kind. */
  ghost predicate KindsRecorded(item: Item) {
    && WellKeyed(item)
    && forall m :: m in item.modelDownUntil ==> m in item.modelLastKind && item.modelLastKind[m] == RATE_LIMIT
  }

  lemma {:induction false} CooledModelsRememberTheirKind(item: Item, events: seq<Event>)
    requires KindsRecorded(item)
    ensures KindsRecorded(Run(item, events))
  {
    if events != [] {
      CooledModelsRememberTheirKind(item, events[..|events| - 1]);
      EventKeepsKinds(Run(item, events[..|events| - 1]), events[|events| - 1]);
    }
  }

  lemma EventKeepsKinds(before: Item, e: Event)
    requires KindsRecorded(before)
    ensures KindsRecorded(Apply(before, e))
  {
    match e
    case Fail(f, now) =>
      var scope := ScopeModel(f);
      var level := LevelFor(before, f, scope);
      MarkRecordsKind(before, f, scope, level, now + CooldownAt(f.cooldown, level));
    case Succeed(m) =>
      RecoveryKeepsKinds(before, RouteModel(m));
      ProvenLeavesCooldowns(Recovered(before, RouteModel(m)), m);
    case ClearQuota =>
  }

  lemma RecoveryKeepsKinds(item: Item, scoped: string)
    requires KindsRecorded(item)
    ensures KindsRecorded(Recovered(item, scoped))
  {}

  lemma MarkRecordsKind(item: Item, f: Failure, scope: string, level: nat, until: Time)
    requires KindsRecorded(item) && (scope != "" ==> f.kind == RATE_LIMIT)
    ensures KindsRecorded(Marked(item, f, scope, level, until))
  {}

  /** The next rate limit on a cooled model takes the level it would have taken without the restart. */
  lemma RestartIsInvisibleToModelLadders(blank: Item, item: Item, rows: seq<Row>, now: Time, f: Failure, model: string)
    requires Fresh(blank) && blank.id == item.id && LevelsBounded(item) && KindsRecorded(item) && now >= 0
    requires Persisted(rows, item, now) && Cooled(item, model, now)
    ensures LevelFor(RestoreAll(blank, rows), f, model) == LevelFor(item, f, model)
  {
    RestartReproducesCooldowns(blank, item, rows, now);
  }

  /** The account-wide ladder is not so lucky: its kind is not restored, so the next account-wide
      failure starts over, and takes the level it would have taken exactly when it was no repeat. */
  lemma RestartForgetsTheAccountLadder(blank: Item, item: Item, rows: seq<Row>, now: Time, f: Failure)
    requires Fresh(blank) && blank.id == item.id && LevelsBounded(item) && WellKeyed(item) && now >= 0
    requires Persisted(rows, item, now) && f.kind != "" && f.kind != INVALID_REQUEST
    ensures LevelFor(RestoreAll(blank, rows), f, "") == 0
    ensures LevelFor(RestoreAll(blank, rows), f, "") == LevelFor(item, f, "") <==> item.lastKind != f.kind
  {
    assert rows[..|rows|] == rows;
    RestoreFollowsRows(blank, item, rows, now, |rows|, "");
  }
}
