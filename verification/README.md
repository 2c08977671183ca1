# CLI2API scheduling, lifecycle and streaming model

CLI2API is a gateway that serves chat requests from a pool of accounts. This Dafny project models the
parts of it that decide which account serves, what happens when an account or a worker fails, and
what a client is told, and proves what those parts promise over every input, run or interleaving.

* **Account pool** (`Items`, `Routing`, `Fairness`, `GlobalPins`, `WeightedRuns`, `Expiries`, `PoolModel`, with the
  theories `RoundRobin`, `SmoothWeighted`, `Latch`, `Batches`, `Fefo`, `Cooldown`, `Restore`). `PoolModel.Pool` is the pool as a
  class, one method per section under its lock. Each method is proved against a specification
  function, and the fairness, exactness and isolation results are about those functions and runs of
  them.
* **In-flight slots and the route loop** (`InFlight`, `RouteLoop`, `Walks`, `ChatLoops`, `RequestSlots`,
  `Retries`). `InFlight` is the slot counter under every interleaving. `ChatLoops` is a request's failover
  loop over a real `Pool`. What lies outside the request is an arbitrary function of the attempt, `world`:
  how the account drawn behaves, what its worker answers to the account its request names, and what the
  other requests have made of the pool by each of this request's sections, which may be anything
  (`RouteLoop.Others`). `Walks` says in terms of `world` alone what a request may try, when it may end and
  what its caller is told, and the loops are proved to do that. `RequestSlots` shows that what the loops do
  to the pool is made of `InFlight`'s sections.
* **Manager protocols** (`Persister`, `Drains`, `Recovery`, `Restarts`, `QuotaGate`, `AfterUse`). Each is a
  state machine with one step per critical section, run in any order; the classes beside them are those
  sections as code. `Drains` and `Restarts` hold what the persister and the recoveries get to.
* **Stream translators** (`ChatStream`, `ChatOutput`, `AnthropicRelay`, `ResponsesRelay`,
  `ResponsesReasoning`, `ResponsesStream`, `ResponsesFinish`). A client is an automaton that reads the events and keeps what
  it heard; the relays are proved to be accepted by it and to tell it everything.
* **Session affinity** (`AffinityList`, `SessionAffinity`, `AffinityHistory`). The map and linked list as a
  class that refines one list and records its calls, and what a lookup means in terms of their history.
* **Changelog tool** (`TextLines`, `Headings`, `ReleaseNotes`, `Changelog`, `Archive`, `ArchiveRules`,
  `Consume`, `Unindent`, `ConsumeTwice`), on characters and lines.

Times are integers in nanoseconds and are passed in. Where the code and its comments differ the model
follows the code.

## Where the code promises less than one might expect

* A cooldown ladder with a base above six hours shortens on its second repeat
  (`Cooldown.LadderIsMonotoneUpToSixHours`).
* A restart forgets the kind of an account-wide cooldown, so its ladder starts over
  (`Restore.RestartForgetsTheAccountLadder`).
* A query pinned to `global` shares its route with unpinned ones, and no other pin does
  (`Fairness.OnlyGlobalPinsShareTheRoute`); it can move their region (three calls that show it are
  `GlobalPins.GlobalPinMovesTheRegion`).
* Close can abandon a snapshot without any write failing after it began: exactly when the drainer's last
  write has failed and it has not tried again when Close is called (`Persister.CloseSavesEverythingExactly`;
  such a run from the start is `Persister.CloseDuringBackoffAbandons`).
* Removing an account, as a worker's restart does, keeps its cap exactly when nobody holds it then
  (`InFlight.RemovalKeepsCapExactlyWhenIdle`; `InFlight.RestartWhileHeldOverAdmits` is a run with two
  holders under a cap of one).
* A model's deadline set while the boot-time restore is between reading its account and writing it back is
  lost exactly when the copy read, or the row, has a model's deadline
  (`Restore.DeadlineBetweenSurvivesExactly`).
* A refusal that names another account does not exclude the one that was used
  (`Retries.ComesBackExactlyUnderAnotherName`). The first attempt of a pinned request names the pinned
  account even when another was picked, so with workers that echo what they are asked all answers name
  the account tried exactly when that did not happen
  (`Walks.EchoesAreHonestUnlessPinnedElsewhere`); when it does, the pinned account is blamed and the
  other one tried again under fill-first (`Retries.FullPinSendsTheRequestBack`), and under rotation exactly
  when no third account is left (`Retries.PinnedElsewhereUnderRotation`).
* A success adds the account's own name for the model to the proven list and not the model's, so the model
  counts as proven exactly when it was or that name has its canonical form; otherwise the list grows by one
  entry with each success (`Cooldown.SuccessProvesTheModelExactly`).
* The Anthropic relay drops tool fragments that precede the tool's name
  (`AnthropicRelay.FragmentsBeforeTheNameAreLost`; frames that show it are
  `AnthropicRelay.LateNameLosesAFragment`); the Responses relay does not.
* The Responses relay pairs calls with announced items by position, which leaves items open unless
  the named tool indexes are 0, 1, ..., m-1 (`ResponsesFinish.RelayResponsesStream`); a single tool of
  index 1 stays open (`ResponsesFinish.ToolOneStaysOpen`).
* A Responses reasoning item is done with all reasoning heard so far, which is its own exactly when it is
  the first (`ResponsesReasoning.OwnTextExactlyWhenFirst`); every item is done with its own exactly when
  upstream reasons in one stretch (`ResponsesReasoning.AllOwnExactlyInOneBurst`, and
  `ResponsesStream.SecondReasoningRepeatsTheFirst` for reasoning, text, reasoning).
* A changelog line of bare `##` marks is taken for the insertion point although it is no heading
  (`Archive.BareMarksAreSwallowed`).
* Consuming the same notes again is refused when the first time did not settle the archive
  (`ConsumeTwice.ConsumingTwiceExactly`): when a new section took along lines other than its own notes
  over again (`ConsumeTwice.BareMarksAreRefused`), or when the introduction un-indented a first line into
  a heading that makes no section of its own (`ConsumeTwice.IndentedHeadingIsRefused`).

## Model

| member | source | states |
|---|---|---|
| SmoothWeighted.ChargeConservesTotal | internal/executor/pool.go:717-755 | one weighted pick keeps the sum of a route's counters, over every account that ever had one, whatever candidates it sees |
| Routing.PickConservesCounters | internal/executor/pool.go:562-699 | no `PickRoute` call, whatever the query, changes the sum of any route's counters: it stays zero |
| SmoothWeighted.ChargeIsNext | internal/executor/pool.go:717-755 | the counters in the map and the winner are those of the abstract recurrence, in which the fairness results are proved |
| SmoothWeighted.ChargeLeavesOthersAlone | internal/executor/pool.go:717-755 | a pick changes the counters of its candidates only |
| SmoothWeighted.CreditAll | internal/executor/pool.go:717-755 | the crediting loop credits every candidate once and finds the first largest counter |
| SmoothWeighted.CountersSumToZero | internal/executor/pool.go:717-755 | for fixed candidates the counters sum to zero after every pick |
| SmoothWeighted.CountersStayAboveMinusTotal | internal/executor/pool.go:717-755 | no counter ever falls to minus the total weight W |
| SmoothWeighted.CounterIsDebt | internal/executor/pool.go:717-755 | after t picks a counter is exactly t*w_i minus W times the picks of i |
| SmoothWeighted.UpperQuota | internal/executor/pool.go:717-755 | in t picks account i is chosen fewer than t*w_i/W + 1 times |
| SmoothWeighted.BlockReturnsToZero | internal/executor/pool.go:717-755 | W picks from zero return every counter to zero |
| SmoothWeighted.CountersArePeriodic | internal/executor/pool.go:717-755 | from any point on the counters repeat every W picks |
| SmoothWeighted.EveryWindowIsProportional | internal/executor/pool.go:717-755 | every window of W consecutive picks, wherever it starts, chooses account i exactly w_i times |
| SmoothWeighted.FixedSetFollowsWeights | internal/executor/pool.go:717-755 | the map-based picks over a fixed set choose what the abstract recurrence chooses |
| WeightedRuns.RunFollowsWeights | internal/executor/pool.go:690-698 | consecutive weighted `PickRoute` calls over the same finalists serve what the recurrence picks |
| WeightedRuns.EveryWindowServesByWeight | internal/executor/pool.go:690-755 | every window of W consecutive `PickRoute` calls serves account i exactly w_i times, w_i its own weight (50 when that is outside 1..100) |
| RoundRobin.NeverStarves | internal/executor/pool.go:387-396 | an account that stays a candidate is picked within N picks, N the distinct IDs ever seen, over arbitrarily changing candidate lists |
| RoundRobin.PickMovesCloser | internal/executor/pool.go:761-771 | a pick that is not x leaves strictly fewer IDs between the cursor and x |
| RoundRobin.WalksCyclically | internal/executor/pool.go:761-771 | over a fixed set the picks walk the sorted list cyclically from wherever the cursor stands, present or not |
| RoundRobin.VisitsEachOnce | internal/executor/pool.go:757-771 | any n consecutive picks over a fixed set of n accounts visit each exactly once |
| Fairness.PoolNeverStarves | internal/executor/pool.go:695-698 | the same for `PickRoute` itself: a permanent finalist is served within N calls while its route's cursor is not reset |
| Fairness.RunFollowsRotation | internal/executor/pool.go:695-698 | consecutive calls of a route serve exactly the rotation over their finalist lists |
| Fairness.FixedRunServesEachOnce | internal/executor/pool.go:695-698 | n consecutive `PickRoute` calls of a route over the same n finalists, their cursor kept, serve each exactly once |
| Fairness.FinalistsAreSorted | internal/executor/pool.go:638-698 | the final list is in strictly ascending ID order, which the successor search relies on |
| Fairness.RemovalRestartsRotation | internal/executor/pool.go:1661-1690 | removing the account last served sends rotation back to the head: the guarantee ends where the cursor is dropped |
| Fairness.RemovalsStarveTheRest | internal/executor/pool.go:1661-1690 | when each account served is removed and registered again before the next call, runs of any length serve the head only |
| Fairness.RemovalForgetsExactly | internal/executor/pool.go:1661-1690 | a removal empties exactly the cursors that stand on the account and keeps regions and counters |
| Latch.ServedLeavesLatchOnlyWhenBehind | internal/executor/pool.go:802-812 | the served region always has a candidate, and leaves the latched one exactly when that is empty or below half of the largest |
| Latch.CountGroups | internal/executor/pool.go:814-830 | the count table holds the size of every non-empty region |
| Latch.LargestGroup | internal/executor/pool.go:814-830 | the scan finds the largest region, ties to the smaller name, whatever order the table is visited in |
| Latch.LargestCount | internal/executor/pool.go:788-800 | the staleness scan finds the largest region's size |
| Routing.LatchHolds | internal/executor/pool.go:649-671 | a query naming no region is served outside the latched region exactly when that has no candidate or fewer than half of the largest |
| Fairness.RegionChangesOnlyWhenBehind | internal/executor/pool.go:397-401 | two consecutive calls of a route serve different regions exactly under that condition |
| Fairness.OnlyGlobalPinsShareTheRoute | internal/executor/pool.go:424-427 | a query pinned to a region shares the memory of unpinned ones exactly when the region normalises to `global` |
| GlobalPins.GlobalPinMovesTheRegion | internal/executor/pool.go:424-427 | an unpinned call served in one region, a `global`-pinned call, and an unpinned call then served in `global` although the first region has not fallen behind and would have been served without the pin |
| Routing.ServeTouchesOneRoute | internal/executor/pool.go:773-783 | a served query records its account and region, and touches no other route unless the rotation limit cleared all |
| Routing.PickIsExact | internal/executor/pool.go:562-699 | with no preference settled first, a returned item is usable, or is the cooling one that resumes first when none is usable; none is returned exactly when the preference cannot serve the model or all matches are merely saturated |
| Items.RouteTellsModelsApart | internal/accounts/ids.go:57-124 | names without a provider's prefix are routed alike exactly when they are one name up to case, blanks around it and the separators in it, or both blank of meaning (`auto`) |
| Items.FamiliesStayApart | internal/accounts/ids.go:34-45 | provider names are one family exactly when they are one name up to case and blanks, none standing for `qoder` and `muse` for `meta` |
| Items.WhoCouldServe | internal/executor/pool.go:186-274 | an account belongs on a model's route exactly when it is allowed the model its alias stands for, and has it in its catalog, has proved it, or has no known catalog; it can serve it now unless it has no known catalog and is down |
| Routing.PreferenceIsServed | internal/executor/pool.go:584-607 | a preferred account that is in the pool, not excluded and usable is the result, and no route memory changes; one not excluded that cannot serve the model gives none; otherwise the call is the one without a preference |
| Expiries.SpentIsNeverServed | internal/executor/fefo.go:28-47 | an account with no credits left for the query's model, which is not free on it, is never returned, not even as a preference or a retry hint: its quota is not reported exceeded, and under earliest-expiry its packages do not tell that nothing is spendable |
| Routing.UsableMeansServed | internal/executor/pool.go:608-642 | with some account usable, and no preference that cannot serve the model, a usable account is returned |
| Routing.RoutesAreByModelAndProvider | internal/executor/pool.go:417-432 | for one region two queries share a route exactly when their models, or else their provider filters, normalise alike |
| Routing.KnownRoutesAreKept | internal/executor/pool.go:773-786 | the rotation limit clears the memory exactly when a new route would be the 4097th |
| Routing.MemoryStaysBounded | internal/executor/pool.go:412-415 | no call remembers more than 4096 routes |
| Expiries.EarliestExpiryServesTheEarliest | internal/executor/fefo.go:106-152 | under earliest-expiry an account served by scheduling loses its credits no later, in billing days, than any other usable account of its provider and region whose packages say when it does |
| Expiries.RankedByFirstLapse | internal/executor/fefo.go:51-112 | the day an account is ranked by is that of its first live package to lapse, and it has one exactly when all live packages of a trusted set are dated and the model spends credits |
| Routing.SoonestResumesFirst | internal/executor/pool.go:612-637 | the retry hint is the cooling match with the earliest resume time, if there is one |
| Routing.NothingUsableMeansSaturatedOrCooling | internal/executor/pool.go:376-382 | an account on the route that is neither usable nor cooling is at capacity |
| Routing.RetryDelayMeansCooling | internal/executor/pool.go:869-909 | an item has a positive retry delay exactly when it is cooling for the query |
| Routing.InServedRegion | internal/executor/pool.go:832-840 | the latch keeps only candidates and never leaves the list empty |
| Routing.Finalists | internal/executor/fefo.go:114-152 | the final list is made of available candidates and is never empty |
| Routing.FillFirstIndex | internal/executor/pool.go:701-715 | fill-first picks a candidate of maximal effective weight |
| Batches.NarrowKeepsEveryGroup | internal/executor/fefo.go:114-152 | every provider family with a candidate keeps one; an undated family keeps all; a dated one keeps exactly its members on its earliest day; the empty-result fallback cannot be reached |
| Batches.MinDays | internal/executor/fefo.go:114-135 | the loop records each dated family's earliest day and nothing for an undated family |
| Batches.NarrowCandidates | internal/executor/fefo.go:114-152 | the two loops compute that narrowing |
| Batches.KeptIsOrdered | internal/executor/fefo.go:136-152 | narrowing keeps the order of the list |
| Fefo.ScanPackages | internal/executor/fefo.go:51-86 | the package loop finds the nearest expiry of the live trusted packages, and whether quota is tracked and depleted |
| PoolModel.Pool.constructor | internal/executor/pool.go:436-450 | an empty pool is valid with no route memory |
| PoolModel.Pool.SetRoutingStrategy | internal/executor/pool.go:452-462 | changing the strategy clears every route's memory and keeps the accounts |
| PoolModel.Pool.LenRoute | internal/executor/pool.go:493-509 | the number of accounts in the pool on the route, busy or cooling ones included, each counted once |
| PoolModel.Pool.PickRoute | internal/executor/pool.go:562-699 | the method's result and memory are those of the specification `Routing.Pick`; what that promises of preferences, credits, cooldowns, saturation and each strategy is stated by the rows above |
| PoolModel.Pool.NarrowToServedRegion | internal/executor/pool.go:649-671 | the latch code computes the served region's candidates |
| PoolModel.Pool.ChargeLargest | internal/executor/pool.go:717-755 | the weighted branch charges the winner of the credited counters |
| PoolModel.Pool.Choose | internal/executor/pool.go:690-698 | the strategy's choice and its counters are the specification's |
| PoolModel.Pool.MarkClassified | internal/executor/pool.go:915-1020 | exactly one item changes, to the classified state stamped with the next version, whose deadline and scope the three `Cooldown` rows below give in closed form; unknown accounts and unavailable models change nothing |
| PoolModel.Pool.MarkOK | internal/executor/pool.go:1060-1134 | exactly one item changes, to the recovered state stamped with the next version |
| PoolModel.Pool.ClearAccountQuotaCooldown | internal/executor/pool.go:1025-1058 | only an account-wide quota cooldown is cleared |
| PoolModel.Pool.Acquire | internal/executor/pool.go:1224-1246 | a slot is reserved exactly when the account exists below its cap |
| PoolModel.Pool.Release | internal/executor/pool.go:1248-1268 | a slot is freed, never below zero; unknown accounts change nothing |
| PoolModel.Pool.Upsert | internal/executor/pool.go:1559-1659 | an existing account is merged in place, a new one appended normalised |
| Restore.BareRegistrationKeeps | internal/executor/pool.go:1559-1659 | registering an account again with nothing but its ID, provider and region keeps all else |
| Restore.CompleteRegistrationReplaces | internal/executor/pool.go:1559-1659 | registering it with every field given replaces all but the slot counter, which the request path owns |
| PoolModel.Pool.Remove | internal/executor/pool.go:1661-1690 | the account leaves and every cursor on it is dropped |
| PoolModel.Pool.RestoreCooldowns | internal/runtime/manager.go:382-434 | undisturbed, the boot-time loop gives every account what restoring the rows one by one gives |
| Restore.DeadlineBetweenSurvivesExactly | internal/runtime/manager.go:389-428 | a deadline another model gets between the read and the write of a restored account survives exactly when the row is account-wide and the copy read has no model's deadline; the slot counter is never overwritten |
| Cooldown.LadderIsMonotoneUpToSixHours | internal/executor/classify.go:28-53 | climbing never shortens the cooldown exactly when the base is at most six hours, and then no level exceeds six hours |
| Cooldown.FailureTakesTheAccountDown | internal/executor/pool.go:915-999 | an account-wide failure with a cooldown takes the account down until exactly its deadline, for a base of at most six hours now + base at levels 0 and 1 and now + base * 2^(level-1), clamped to 30 s and 6 h, above; the level is one up on a repeat of the kind, at most 8, else 0; no model is touched |
| Cooldown.RateLimitTakesTheModelDown | internal/executor/pool.go:928-995 | the same for a rate limit and the one model it names, by that model's own kind and level; the account's deadline is kept |
| Cooldown.CooldownIsEarned | internal/executor/classify.go:28-53 | the cooldown the code computes, with its wrap-around, is that closed form for every base up to six hours and every level |
| Cooldown.NthRepeatDoubles | internal/executor/pool.go:948-983 | after n failures of one kind in a row the account is at level n-1, at most 8, and down for the closed form of that level from the last one |
| Cooldown.FailureWithoutCooldown | internal/executor/pool.go:948 | a failure without a cooldown moves no deadline |
| Cooldown.QuotaClearedIsUp | internal/executor/pool.go:1025-1058 | afterwards the account is up if its last kind was quota or none, and otherwise unchanged; no model's record is touched |
| Cooldown.SuccessBringsItsScopeUp | internal/executor/pool.go:1067-1118 | a success on a model brings that model up on the account; one without a model brings everything up and resets the account's ladder |
| Cooldown.SuccessProvesTheModelExactly | internal/executor/pool.go:154-167 | after a success the model is proven exactly when it was or the account's own name for it has its canonical form; the list grows by that name exactly when the model was not proven |
| Cooldown.NativeNameIsTheAccounts | internal/executor/pool.go:280-299 | that name is the account's mapping for the model, or else its catalog's first spelling of it, or else the first proven one, or else the name as it came |
| Cooldown.ModelScopesAreIsolated | internal/executor/pool.go:915-1134 | over any run a model's deadline, level and kind are what the events addressed to it alone would have made them |
| Cooldown.RateLimitSparesAccount | internal/executor/pool.go:928-985 | a rate limit on a model changes nothing account-wide but the last error |
| Cooldown.SuccessResetsAccountOnlyWhenClear | internal/executor/pool.go:1074-1118 | a scoped success resets the account-wide ladder exactly when no deadline of any scope remains recorded |
| Cooldown.LevelsStayBounded | internal/executor/classify.go:28-53 | every ladder stays within 0 to 8 over any run |
| Cooldown.RepeatNeverShortens | internal/executor/pool.go:928-985 | a repeat with an unchanged base of at most six hours never shortens its scope's cooldown nor exceeds six hours |
| Restore.CooldownRows | internal/runtime/manager.go:340-380 | one row per recorded deadline and no others, whatever order the model table is visited in |
| Restore.RestoringLosesNothing | internal/runtime/manager.go:382-434 | a row sets its deadline; no level falls, no kind on record is replaced, and levels stay within 0 to 8 whatever the row says |
| Restore.RestartReproducesCooldowns | internal/runtime/manager.go:382-434 | restoring the unexpired rows in any order reproduces the deadlines, the account's level when its deadline is one of them, and each cooled model's level and kind, and invents nothing |
| Restore.CooledModelsRememberTheirKind | internal/executor/pool.go:928-985 | over any run a model with a deadline has the rate-limit kind recorded |
| Restore.RestartIsInvisibleToModelLadders | internal/runtime/manager.go:382-434 | the next rate limit on a cooled model takes the level it would have taken without the restart |
| Restore.RestartForgetsTheAccountLadder | internal/runtime/manager.go:382-434 | the next account-wide failure starts at level 0, as it would have without the restart exactly when it was no repeat |
| Persister.PersistQueue.ObserveSnapshot | internal/runtime/manager.go:200-216 | a delivered snapshot replaces an older or equal one, and nothing is accepted after shutdown began |
| Persister.PersistQueue.TakeNext | internal/runtime/manager.go:253-273 | the drainer takes the lowest account and drops a snapshot no newer than the persisted one |
| Persister.PersistQueue.LowestKey | internal/runtime/manager.go:253-259 | the account taken is the lowest ID in the dirty set |
| Persister.PersistQueue.PutBack | internal/runtime/manager.go:278-290 | a snapshot whose write failed goes back unless a newer one has come in |
| Persister.PersistQueue.RecordPersisted | internal/runtime/manager.go:308-313 | the persisted version only grows |
| Persister.PersistQueue.RequestFlush | internal/runtime/manager.go:317-338 | a flush is queued exactly while the queue is open |
| Persister.PersistQueue.FireFlushes | internal/runtime/manager.go:236-246 | with nothing dirty all queued flushes fire at once |
| Persister.DiskNeverGoesBack | internal/runtime/manager.go:227-315 | for any delivery order and any write failures, partial ones included, neither table ever returns to an older snapshot |
| Persister.QuiescentDiskIsNewest | internal/runtime/manager.go:219-226 | with nothing undelivered, nothing dirty and an idle drainer, both tables hold the newest snapshot of every account |
| Persister.FlushGuarantee | internal/runtime/manager.go:317-338 | a fired flush marker means every snapshot delivered before the flush is persisted at no older version |
| Persister.ExitSavesEverythingUnlessInterrupted | internal/runtime/manager.go:482-498 | the drainer leaves the dirty set empty exactly when it was not interrupted while backing off |
| Persister.CloseSavesEverythingExactly | internal/runtime/manager.go:482-498 | from any reachable open state, closing loses nothing in every continuation without a failing write exactly when the drainer is not backing off, nor about to, at that moment |
| Persister.CloseDuringBackoffAbandons | internal/runtime/manager.go:291-304 | a run from the start whose one snapshot reaches neither table although no write fails after Close began |
| Drains.WritesThatSucceedSaveEverything | internal/runtime/manager.go:227-315 | wherever a run stands with the drainer not exited, writes that succeed from then on put everything delivered in time on both tables, fire every flush asked for, and let a drainer told to close exit with nothing abandoned |
| Drains.WriteTouchesOneTable | internal/runtime/manager.go:272-276 | a snapshot's first write touches the state table and its second the cooldown table, and neither the other |
| Drains.FlushIsQueued | internal/runtime/manager.go:317-338 | a flush asked for while the queue is open gets a marker of its own that covers all delivered so far |
| Recovery.RestartDelay | internal/runtime/manager_recovery.go:169-185 | for any configured base and maximum the loop computes the delay `Recovery.Delay` of the level |
| Restarts.EachLevelDoubles | internal/runtime/manager_recovery.go:169-185 | level 1 waits for the base and each level above for twice the one below, up to the maximum |
| Restarts.EachFailureDoublesTheDelay | internal/runtime/manager_recovery.go:131-136 | the second to eighth failure in a row is followed by twice the delay of the one before, up to the maximum, later ones by that of the eighth |
| Recovery.Manager.constructor | internal/runtime/manager_recovery.go:21-53 | a new manager has no process, recovery or pending failure |
| Recovery.Manager.BeginAccountRecovery | internal/runtime/manager_recovery.go:21-53 | a report is dropped at shutdown, remembered behind a live recovery, or starts one with the next backoff level |
| Recovery.Manager.RecordFailedStart | internal/runtime/manager_recovery.go:130-137 | a failed start counts one more restart and climbs one level, at most to 8 |
| Recovery.Manager.ResetRestartBackoff | internal/runtime/manager_recovery.go:140-147 | the account's next failure starts at level 1 again |
| Recovery.Manager.UnwindRecovery | internal/runtime/manager_recovery.go:55-72 | giving up the flag hands over the pending failure, if any |
| Recovery.Manager.RegisterProcess | internal/runtime/manager_process.go:119-144 | a started process is registered unless the manager is closing or one is registered already |
| Recovery.Manager.DetachProcess | internal/runtime/manager_maintenance.go:661-677 | the process is taken out of the table |
| Recovery.OneOwnerPerAccount | internal/runtime/manager_recovery.go:21-72 | in every interleaving the flag is set exactly while one recovery owns it, no two own it, and a pending failure finds it set |
| Recovery.NoReportIsDropped | internal/runtime/manager_recovery.go:34-41 | until shutdown every report not yet taken up is pending behind a live recovery or is being re-entered; what becomes of it once a recovery starts is `Recovery.NoAccountIsAbandoned` |
| Recovery.NoAccountIsAbandoned | internal/runtime/manager_recovery.go:74-138 | until shutdown an account that lost its worker, or whose last start failed, and that neither has a worker again nor was found to want none, has a thread on its way to another start or to the report that leads to one, or its report pending behind a live recovery |
| Restarts.EveryRecoveryAnswersAReport | internal/runtime/manager_recovery.go:21-72 | recoveries started, reports pending and reports being re-entered never outnumber the failures reported: no recovery starts of itself |
| Restarts.OnlyMissingWorkersAreStarted | internal/runtime/manager_process.go:90-103 | a worker is started only for an account that wants one and has none, with the manager open |
| Restarts.UndisturbedStartRegisters | internal/runtime/manager_process.go:90-144 | a start left alone and answered well registers the new process and has it watched |
| Restarts.RecoveryTriesAfterItsWait | internal/runtime/manager_recovery.go:94-124 | a recovery whose wait is over, and whose account still wants a worker, goes on to a start |
| Restarts.RegisteredWorkersAreLeftAlone | internal/runtime/manager_process.go:119-144 | in every interleaving a registered worker serves one account, has not been stopped, and no thread is about to stop it |
| Restarts.EachProcessIsStoppedOnce | internal/runtime/manager_process.go:119-144 | once a process is stopped no thread, and not Close, is about to stop it again |
| Restarts.CallsTakeTheWorker | internal/runtime/manager_maintenance.go:661-677 | stopping an account or restarting a stuck worker hands the worker to a new thread that stops it; a stuck account without one is reported |
| Recovery.NoRecoveryOutlivesClose | internal/runtime/manager.go:498-502 | no recovery is alive after Close's wait |
| Restarts.CloseEndsEveryThread | internal/runtime/manager.go:482-502 | once Close has begun no thread takes more than seven further steps in any interleaving, so the recoveries it waits for end: none starts over |
| Restarts.EachStopShortensTheList | internal/runtime/manager.go:503-516 | each worker on Close's list is stopped and then off the list |
| Recovery.EveryProcessIsAccountedFor | internal/runtime/manager_process.go:119-144 | every process ever started is registered, exited, stopped, in the hands of a step about to register or stop it, or on Close's list |
| Restarts.StartedAreSpawned | internal/runtime/manager_process.go:119-122 | the processes accounted for are those the starter returned, all of them and no others |
| Recovery.CloseLeavesNothingRunning | internal/runtime/manager.go:503-516 | after Close every process ever started has exited or been stopped |
| Recovery.EveryWorkerIsWatched | internal/runtime/manager_recovery.go:148-167 | until shutdown every registered worker has a watcher that will report its exit |
| QuotaGate.GateTable.EnrollFetch | internal/runtime/manager_quota_gate.go:21-32 | arriving takes a reference on the account's gate, a fresh one if there is none |
| QuotaGate.GateTable.ReleaseRef | internal/runtime/manager_quota_gate.go:49-58 | leaving drops a reference, and the gate with the last one |
| QuotaGate.FetchesAreExclusive | internal/runtime/manager_quota_gate.go:21-58 | in every interleaving two fetches of one account never run at once |
| QuotaGate.WaitingMeansSomebodyHolds | internal/runtime/manager_quota_gate.go:34-47 | a waiting fetch may go on exactly when no other participant holds its gate |
| QuotaGate.EveryFetchEnds | internal/runtime/manager_quota_gate.go:34-58 | each step of a fetch brings it nearer its end, at most three away, no step of another touches it, and it gives its gate back |
| QuotaGate.TableHoldsBusyAccountsOnly | internal/runtime/manager_quota_gate.go:49-58 | a gate is in the table exactly while somebody holds or awaits it |
| AfterUse.Coalescer.CompleteUse | internal/runtime/manager_fefo.go:16-31 | a completion marks the running refresher or starts one |
| AfterUse.Coalescer.DecideAgain | internal/runtime/manager_fefo.go:41-48 | after a pass the refresher runs again exactly when marked and not closing |
| AfterUse.OneRefresherPerAccount | internal/runtime/manager_fefo.go:12-51 | at most one refresher of an account runs, and the wait group counts them all |
| AfterUse.EveryCompletionIsFollowedByAPass | internal/runtime/manager_fefo.go:12-51 | once no refresher runs, and unless closing, the latest pass began after every accepted completion |
| AfterUse.CancelEndsEveryRefresher | internal/runtime/manager_fefo.go:12-51 | once closing, no completion is accepted and no refresher starts, and those running end within four steps of their own |
| AfterUse.PassesNeverOutnumberCompletions | internal/runtime/manager_fefo.go:12-51 | passes never outnumber completions |
| SessionAffinity.Cache.Get | internal/executor/session_affinity.go:105-131 | the class stays the list of its recorded calls; a hit moves to the front, an expired entry is dropped, and the answer is the latest live binding the history gives (as for `AffinityHistory.LookupIsLatestLiveBinding`) |
| SessionAffinity.Cache.AnswerIsMeant | internal/executor/session_affinity.go:105-131 | with a clock that never runs backwards, what the class's list answers is the latest live binding of its recorded calls, missed only when `capacity` other keys were touched since |
| SessionAffinity.Cache.Bind | internal/executor/session_affinity.go:133-158 | binding renews or inserts at the front and evicts from the back down to the capacity; the class stays the list of its recorded calls |
| SessionAffinity.Cache.Forget | internal/executor/session_affinity.go:190-203 | forgetting removes the key from map and list; the class stays the list of its recorded calls |
| SessionAffinity.Cache.RemoveElement | internal/executor/session_affinity.go:205-212 | map and list lose the same element |
| AffinityHistory.LookupIsLatestLiveBinding | internal/executor/session_affinity.go:105-158 | after any run a lookup answers only with the latest live binding, and misses it only when `capacity` other keys were touched since |
| AffinityHistory.ListIsBoundedAndOrdered | internal/executor/session_affinity.go:133-158 | the list holds at most `capacity` distinct keys in order of last touch |
| AnthropicRelay.RelayAnthropicStream | internal/gateway/compat_stream.go:251-394 | success exactly for a complete stream; then a client automaton accepts every event (blocks start once each in order, at most one of thinking and text open and neither under a tool block, deltas name open blocks, each stops once before the message ends), text, thinking and each tool's fragments from its naming on arrive whole, and each tool block carries the name and identifier of the delta that first named it |
| AnthropicRelay.PiecesKeepInv | internal/gateway/compat_stream.go:251-394 | after any pieces the client's open blocks are exactly the relay's and everything sent adds up to what was received |
| AnthropicRelay.FinishMessage | internal/gateway/compat_stream.go:374-391 | winding up stops every open block once |
| AnthropicRelay.SortedBlocks | internal/gateway/compat_stream.go:648-655 | the open tool blocks in ascending order, each once |
| AnthropicRelay.FragmentsBeforeTheNameAreLost | internal/gateway/compat_stream.go:343-366 | a tool's fragments arrive whole exactly when none came before its name |
| AnthropicRelay.LateNameLosesAFragment | internal/gateway/compat_stream.go:343-366 | such frames: an unnamed fragment "x", then the name with "y"; only "y" is sent |
| ChatOutput.Add | internal/gateway/compat_stream.go:119-172 | the loops add a chunk piece by piece, whichever of content and reasoning is added first |
| ChatStream.PiecesKeepTheirTools | internal/gateway/compat_stream.go:150-160 | the tool deltas of a chunk stay in order, each with its index, or its position when it gives none |
| ChatOutput.AddPiecesTotals | internal/gateway/compat_stream.go:119-172 | the accumulator's content, reasoning, names and arguments are the totals of all pieces it was given |
| ChatOutput.Calls | internal/gateway/compat_stream.go:174-189 | the named calls in ascending index order, each with its totals |
| ResponsesRelay.ToolKeepsTold | internal/gateway/compat_stream.go:504-556 | a plain tool's deltas catch up with its accumulated arguments at every delta, also when the name comes late |
| ResponsesStream.PiecesKeepTold | internal/gateway/compat_stream.go:504-556 | within a chunk a plain tool's deltas stand at what was sent before it or, once touched, at all the chunk brings |
| ResponsesStream.PiecesKeepInv | internal/gateway/compat_stream.go:446-563 | after any pieces the client's open items are exactly the relay's, indexes are fresh and consecutive, and text and reasoning add up |
| ResponsesStream.PiecesKeepReasoned | internal/gateway/compat_stream.go:431-446 | after any pieces there is one reasoning item for each stretch of reasoning, and each done one was done with all reasoning up to its end |
| ResponsesReasoning.OwnTextExactlyWhenFirst | internal/gateway/compat_stream.go:431-446 | a reasoning item's done text is the concatenation of its own deltas exactly when no reasoning item came before it |
| ResponsesReasoning.AllOwnExactlyInOneBurst | internal/gateway/compat_stream.go:431-446 | all are exactly when reasoning does not resume after text or a tool |
| ResponsesStream.SecondReasoningRepeatsTheFirst | internal/gateway/compat_stream.go:431-446 | for reasoning "a", text "b", reasoning "c" the second item is done with "ac" |
| ResponsesStream.Consume | internal/gateway/compat_stream.go:191-249 | the stream is read to its end or first error, totals taken before each chunk is relayed |
| ResponsesFinish.Validate | internal/gateway/compat.go:75-92 | the batch is accepted exactly when every plain call's arguments are blank or JSON; then plain calls have their arguments trimmed, or `{}` for blank ones, and custom calls theirs as they came |
| ResponsesFinish.FinishCall | internal/gateway/compat_stream.go:582-635 | one call completes the item announced under its position in the list, or adds one of its own |
| ResponsesFinish.FinishCalls | internal/gateway/compat_stream.go:582-635 | the announced items left open are those whose index is outside 0..m-1 |
| ResponsesFinish.RelayResponsesStream | internal/gateway/compat_stream.go:411-646 | success exactly for a complete stream with valid calls; then text deltas equal the done text and final content, reasoning items are told as above, plain tools' deltas equal their arguments and custom tools get none before their input, for contiguous indexes each plain tool is done with its trimmed arguments, or `{}` for blank ones, the terminal event's calls are the named tools in ascending order with those arguments, and it finds no open item exactly when the indexes are 0..m-1 |
| ResponsesFinish.ToolOneStaysOpen | internal/gateway/compat_stream.go:582-635 | for a single named tool of index 1 the client accepts every event but the terminal one, which finds an item open |
| Sorting.SortedKeys | internal/gateway/compat_stream.go:174-189 | all keys, each once, in ascending order |
| RouteLoop.AttemptsFor | internal/executor/chat.go:486-507 | the number of accounts on the route, each counted once, clamped to the limit (4 when none is set, at most 64), at least one |
| RouteLoop.PickIsScoped | internal/executor/pool.go:344-366 | whatever `PickRoute` returns, a cooling hint included, is ready, not excluded, and passes the filters |
| RouteLoop.Loop.constructor | internal/executor/chat.go:759-798 | the region comes from the model name, a single-region grant, stickiness or the preferred account, in that order; the preference is a pin when the caller asked for it; the attempts are those of that route |
| RouteLoop.Loop.RequireEligible | internal/executor/chat.go:1337-1343 | the native-responses variant narrows the loop to accounts with the capability and counts the route again |
| RouteLoop.EchoIsHonestUnlessPinnedElsewhere | internal/executor/chat.go:824-829 | a worker that echoes the account its request names names another than the picked one exactly when it answers the first attempt of a request pinned elsewhere |
| RouteLoop.Loop.PickNext | internal/executor/chat.go:800-814 | what is drawn is what the pool hands out for the loop's query, past its cooldown; it is admitted and not excluded, and clears the preference; the first pick fixes a missing region and only then are the attempts counted again |
| RouteLoop.UsableMeansDrawn | internal/executor/chat.go:800-814 | with some account usable, and no preference that cannot serve the model, the loop draws one |
| RouteLoop.Loop.AcquireInFlight | internal/executor/chat.go:858-872 | a slot is recorded as taken exactly when the pool reserved it |
| RouteLoop.Loop.ReleaseInFlight | internal/executor/chat.go:874-883 | the slot given back is the one last taken |
| RouteLoop.Dispatch | internal/executor/chat.go:313-321 | the pool's pick, unless it is still cooling when its retry delay is read, and the route's memory after that pick |
| RouteLoop.Loop.MarkFailed | internal/executor/chat.go:626-634 | exactly the named account of the pool is blamed, by the specification's classification |
| RouteLoop.Loop.MarkServed | internal/executor/chat.go:639-644 | exactly the named account recovers, for the model recorded |
| RouteLoop.BlameCoolsTheRequestedModel | internal/executor/chat.go:626-634 | a rate limit met by a request takes its account down for exactly that request's model until its deadline, and touches no other account |
| RouteLoop.PraiseBringsTheModelUp | internal/executor/chat.go:639-644 | a success brings the requested model up on its account and touches no other account |
| RouteLoop.AliasSharesItsCooldown | internal/executor/chat.go:648-657 | a model and an account's alias for it cool down together |
| RouteLoop.Loop.RecordedModel | internal/executor/chat.go:648-657 | an account's alias and catalog name share one cooldown: the catalog name is recorded |
| RouteLoop.ReleaseCloser.Close | internal/executor/chat.go:842-856 | closing a body frees its slot the first time and never again |
| ChatLoops.Attempt | internal/executor/chat.go:908-1031 | what an attempt comes to (`Walks.Settled`): it goes on exactly after a slot not reserved, a worker out of reach, or a failure that allows failover with attempts left, and otherwise ends with the count and the account named; the slot is given back once, and the ID excluded and the account reported are those the answer names |
| ChatLoops.StreamAttempt | internal/executor/chat.go:1356-1474 | as above, or the slot is handed to the returned body, exactly when the answer brings one |
| ChatLoops.ChatNonStream | internal/executor/chat.go:894-1040 | for every behaviour of accounts, workers and other requests: it tries what the pool hands out, one after the other, goes on exactly after failures that allow it, succeeds exactly when the last account tried served or answered readably, and gives up with attempts left only because that account's failure was final or the pool has no other (`Walks.Ended`); its caller is told the count and the account; slots and reports are exactly those of the accounts tried, every slot is given back, and with workers that name no other account none is tried twice |
| Walks.EchoesAreHonestUnlessPinnedElsewhere | internal/executor/chat.go:936-970 | with workers that echo, all name the account tried exactly when the first attempt is not answered for a request pinned elsewhere |
| Walks.ReportNamesTheAccountExactly | internal/executor/chat.go:968-990 | an attempt's report names the account tried exactly when it was served in process or its worker named no other |
| ChatLoops.ChatStream | internal/executor/chat.go:1332-1479 | the same for streams; the answer's body, exactly when there is one, owns the only slot not given back |
| Walks.WalkIsSound | internal/executor/chat.go:800-840 | on any walk the loops may take all accounts are admitted and of one region, and with workers that name no other account none comes twice and each report names the account tried |
| Walks.HonestWalksDoNotRepeat | internal/executor/chat.go:820-822 | with workers that name no other account no account is drawn twice |
| Retries.ComesBackExactlyUnderAnotherName | internal/executor/chat.go:976-990 | under fill-first an account picked without a pin is picked again by the next query, which names the region that pick fixed, exactly when the name excluded in between is not its own, whatever became of the account of that name |
| Retries.RotatesBackExactlyWhenAlone | internal/executor/pool.go:757-771 | under rotation the account just served is served again by the next query, which names its region, exactly when the name excluded is not its own and no other account is left |
| Retries.PinnedElsewhereIsTriedTwice | internal/executor/chat.go:824-829 | under fill-first a request pinned to one account and served by another, whose worker refuses as the pinned one, goes back to the same account |
| Retries.PinnedElsewhereUnderRotation | internal/executor/chat.go:824-829 | under rotation such a request goes back to the account just used exactly when that is the only one left |
| Retries.FullPinSendsTheRequestBack | internal/executor/chat.go:976-990 | such an input: the pinned account is full and gets the blame, and the free one is picked twice |
| Retries.FillFirstServesTheBest | internal/executor/pool.go:701-715 | fill-first serves the available account of the served region that beats all others there, heavier first and then by ID |
| InFlight.StepCounts | internal/executor/pool.go:1226-1268 | what each critical section does to an account's counter and to its holders |
| InFlight.ConservedUnlessRemovedWhileHeld | internal/executor/pool.go:1226-1268 | a section keeps counter and holders equal except exactly a removal of the account while it is held |
| InFlight.SlotsAreConserved | internal/executor/pool.go:1226-1268 | for an account never removed while held the counter is the number of requests and bodies holding it, in every interleaving |
| RequestSlots.AcquireIsTake | internal/executor/chat.go:858-872 | a loop's reservation is a section that adds exactly what the request then holds |
| RequestSlots.ReleaseIsDrop | internal/executor/chat.go:874-892 | freeing the slot, from the loop or its body, is a section the request is entitled to, and leaves it holding nothing |
| RequestSlots.BlameIsRewrite | internal/executor/chat.go:626-634 | reporting a failure touches no slot |
| RequestSlots.PraiseIsRewrite | internal/executor/chat.go:639-644 | reporting a success touches no slot |
| InFlight.CountersNeverLeak | internal/executor/pool.go:1248-1268 | whatever is removed or registered a counter never exceeds its holders, so it drains to zero |
| InFlight.HoldersStayWithinCap | internal/executor/pool.go:1226-1246 | with a fixed positive cap and no removal while held, holders never exceed the cap |
| InFlight.RemovalKeepsCapExactlyWhenIdle | internal/executor/pool.go:1661-1690 | for any cap and any state whose counter is right, every continuation after a removal (registering the account again under that cap, not removing it while held) keeps the holders within the cap exactly when nobody held the account when it was removed |
| InFlight.RestartWhileHeldOverAdmits | internal/runtime/manager_maintenance.go:661-677 | an input of the failing half: a worker restart while a request holds the account lets two requests in under a cap of one |
| Headings.Collect | scripts/release-notes.py:49-90 | the parsers' loop groups the lines under their headings |
| Headings.GroupFromHeading | scripts/release-notes.py:49-65 | from a heading on, parsing starts afresh |
| ReleaseNotes.RoundTripExactly | scripts/release-notes.py:148-167 | parsing rendered notes gives them back exactly when no line of either text is a level-two heading |
| ReleaseNotes.PublishableExactly | scripts/release-notes.py:126-146 | notes are accepted as they are exactly when both texts are trimmed and have equally many bullet lines, at least one |
| Changelog.SectionReadsBack | scripts/release-notes.py:187-194 | a rendered section's body reads back as its notes when no line is a level-three heading |
| Changelog.BeforeInsertion | scripts/release-notes.py:197-203 | no line before the insertion point is a heading |
| Archive.InsertSwallows | scripts/release-notes.py:197-203 | the parsed archive becomes the new section, with the lines between the insertion point and the first heading, followed by the old ones unchanged |
| Archive.InsertPutsFirst | scripts/release-notes.py:197-203 | the new section holds nothing but its own exactly when the insertion point is at a heading or at the end |
| Archive.BareMarksAreSwallowed | scripts/release-notes.py:197-203 | an input: bare marks and the line after them end up in the new section's body |
| ArchiveRules.Validate | scripts/release-notes.py:292-312 | the archive is valid exactly when it has sections, all with distinct known versions and readable notes |
| ArchiveRules.Search | scripts/release-notes.py:359-366 | whether the version is archived, and with the same notes |
| Consume.ConsumeRelease | scripts/release-notes.py:342-378 | the rewritten archive is the specification's: refused, kept, or extended and given its introduction |
| ConsumeTwice.RefusedExactly | scripts/release-notes.py:357-366 | consuming is refused exactly when the archive is invalid or has the version with other notes |
| ConsumeTwice.ConsumedExactly | scripts/release-notes.py:368-372 | otherwise the text starts with the title and parses as the old sections, unchanged and in order, behind the new one if the version was missing, and behind what un-indenting revealed if the title was |
| Unindent.TrimmingReveals | scripts/release-notes.py:371-372 | stripping a text's indent adds exactly the section its first line opens when that is an indented heading |
| Unindent.InsertReveals | scripts/release-notes.py:197-203 | after an insertion that depends only on the text before the insertion point |
| ConsumeTwice.KeepsNotesExactly | scripts/release-notes.py:111-145 | a section that took lines along reads as its notes exactly when those lines say the notes over again |
| ConsumeTwice.ConsumingTwiceExactly | scripts/release-notes.py:342-384 | consuming the same notes again changes nothing exactly when the first time settled the archive, and is refused otherwise |
| ConsumeTwice.OrdinaryArchivesSettle | scripts/release-notes.py:368-372 | an archive that starts at the margin settles when the version is present or a heading stands at the insertion point |
| ConsumeTwice.IndentedHeadingIsRefused | scripts/release-notes.py:371-372 | an archive behind an indented heading that is no version: the second time is refused |
| ConsumeTwice.IndentedSampleIsRefused | scripts/release-notes.py:371-372 | such an archive, written out |
| ConsumeTwice.BareMarksAreRefused | scripts/release-notes.py:197-203 | an archive behind bare marks: the second time is refused |

## Left out

- LookupIsLatestLiveBinding: does not say that an entry is evicted whenever `capacity` other keys were touched since, because those may have been forgotten again.
- ConsumingTwiceExactly: notes that are inserted must hold no heading line of either level, as for the round trips; the version pattern and the introduction's wording are parameters.
- CloseSavesEverythingExactly: the snapshots are versions of an account; that a version determines its contents is the pool's stamping and not proved here.
- CountersNeverLeak: a restart while an account is held makes its counter too small until those holders leave; what that does to the cap is `InFlight.RemovalKeepsCapExactlyWhenIdle`.
- RelayResponsesStream: item and call identifiers, names inside items, sequence numbers (the position of an event), the finish reason and usage are not modelled; whether a name is a custom tool's, whether text is JSON and the input inside a custom call are parameters.
- RelayAnthropicStream: stop reason, usage and writer failures are not modelled.
- EveryCompletionIsFollowedByAPass: a pass may skip its fetch when the first completion's model tracks no quota; the model counts passes, not fetches.
- RestoreCooldowns: the loop runs with nothing between its reads and its writes, which are two sections a row; what a change in between does to the deadlines is `Restore.DeadlineBetweenSurvivesExactly`.
- SSE framing and JSON decoding: streams start from decoded chunks; a frame that does not decode is ignored and one that reports an error ends the stream.
- Session stickiness as it enters the route loop, request logging, attempt records and timing: the region and account it yields are parameters of the loop's constructor.
- HTTP, provider adapters, worker processes, proxies, OAuth and the stores: their answers are arbitrary inputs; the store is a table whose writes may fail or half succeed.
- Error-text classification: failures arrive classified.
- Key grants: an arbitrary predicate on provider and region; protocol capabilities: an arbitrary predicate on accounts.
- Pool fields that no modelled decision reads (URL, runtime state, restart times, health), catalog merging and the removal of a model after an availability failure.
- Nil and empty maps and slices are one value, except for the model catalog, where nil means unknown.
- Overflow of the 64-bit weighting counters; the wrap-around of cooldown products is modelled.
- Case folding, white space and line separators outside ASCII; in the changelog tool only the newline separates lines.
- Condition variables, wake-ups and the run context: a waiting thread is a step that is not enabled.
- Close is called once; process start failures, delays and store errors in a recovery are arbitrary.
- The transport cache (the session cache's shape again), the log ring, statistics and small clamps would add only easy members.
