# OpenMeter: credit balances, validation issues and invoice lines

This project models three parts of OpenMeter and proves what they promise.

**Credit balances and their snapshots** (`openmeter/credit`). The balance of an owner at a
time is defined by `Reference.Walk`: minute by minute from the start of measurement, over all
grants, usage is burnt in burn-down order, grants take effect, recur and end, and resets roll
balances over. Everything else is proved against that definition:

- `Grants`, `Phases`, `Burndown`, `History`, `Engine`, `EngineRun` follow the engine: cutting a
  period into phases, burning balance maps phase by phase, resetting, recording a history.
  `EngineRun.Run` ends exactly where the minute-by-minute walk ends, and its history breaks
  exactly where something happens.
- `Balances`, `UsagePeriods`, `World` hold the stored snapshots, the usage periods and the
  effect of each operation on one owner's whole state.
- `Connector.Credit` is the connector itself, with the owner's state in its fields; each method
  is proved to move that state as the operation in `World` does, and to change nothing when it
  fails.
- `Projection`, `Checkpoints`, `ResetRows`, `LateGrants`, `Resumption`, `Transparency`,
  `Preservation`, `OwnerResets`, `Runs` prove that
  stored snapshots are a cache: after any run of queries, grants, voids, resets, unit-config
  flips, clock ticks and late usage, a query answers as if every snapshot were forgotten.
- `PeriodCache` is the cache of period boundaries behind unique counts.

**Validation issues** (`openmeter/billing`). `ValidationIssues`, `IssueAlgebra` and
`InvoiceIssues` prove that extraction from an arbitrary error tree equals its meaning path by
path, that wrappers and joins obey the laws callers rely on, and that merging into an invoice
is last-writer-wins per component.

**Smaller cores.** `Currencies` (the text form of currency references), `LineReplacement`
(replacing aliasing lines in place), `IdReuse` and `ExternalIds` (database and external ids),
`ProgressiveBilling` (amounts billed so far) and `LineGrouping` (splitting an edit by engine).

## Where a promise does not hold

`openmeter/credit/README.md:96` says that snapshot presence affects cost, never meaning. The
code meets this for summed usage and grants without negative rollover ceilings exactly outside
the following cases. `Runs.StepKeepsIff` proves that each condition of `Runs.Harmless` is exact: an
operation leaves every usable snapshot standing for recomputation if and only if it meets its
condition, which can be checked before the call.

- A query at a stored snapshot's time at which a grant takes effect sees the grant; without the
  snapshot it does not (`Transparency.TransparentIff`, `Counterexamples.AnswerChangesOnceStored`).
- A reset that leaves overage at the moment a grant is refilled stores a snapshot that forgives
  the overage (`OwnerResets.ResetRowOkIff`, `Counterexamples.ResetForgivesOverage`). A period
  query has the same flaw at its start (`Runs.PeriodSnapshotStandsIff`, `Runs.PeriodAgreesIff`,
  `Counterexamples.PeriodQueryForgivesOverage`), and for a single moment it applies grant activity
  once more than a balance query (`Runs.EmptyPeriodAgreesIff`).
- A reset at the time of a usable snapshot is dropped, which goes unnoticed exactly if nothing was
  used or burnt yet and every balance survives a rollover (`ResetRows.DroppedIff`,
  `Counterexamples.ResetAtSnapshotIsDropped`).
- A reset at an already recorded reset, as the job that ends expired usage periods makes it
  (`openmeter/entitlement/metered/reset.go:94-116`), is applied twice, which does no harm exactly
  if no overage is preserved or none of it can be burnt (`ResetRows.TwiceIff`,
  `Counterexamples.RecordedResetCountsTwice`).
- A reset's own choice about overage is recorded nowhere but in its snapshot, and is also applied to
  earlier resets of the same run (`Counterexamples.OverrideReachesBack`). Recomputing loses it, unless
  both runs roll over to the same balances and leave no trace of overage
  (`ResetRows.PreservingRunIff`, `DroppingRunIff`; `OverrideIff` for a run without earlier resets).
- A grant created or voided at the very moment of the last reset, when overage is preserved and
  the grant rolls over from zero to a positive balance, leaves the reset's snapshot in place
  although the grant belongs (or no longer belongs) to that reset. It shows exactly if the other
  grants do not cover the overage, or a grant behind is burnt differently
  (`LateGrants.UnnoticedIff`, `Counterexamples.CreateAtResetDiffers`, `VoidAtResetDiffers`).
- A query whose usage period starts after now stores a snapshot over time that is still open
  (`Preservation.QueryRowOkIff`, `Counterexamples.FutureQueryStoresOpenTime`).

Grants with a negative rollover ceiling, which nothing rejects, break queries altogether: a reset
can store a negative grant usage, and a query that resumes from it fails (`Transparency.QueryFailsIff`,
`Counterexamples.NegativeCeilingBlocksQueries`).

Unique counts depend on snapshots in a further way: in the phase right after a reset they miss
subjects seen since the start that the period cache returns for the reset: the period before, or,
when the run itself resumes at the reset, the start of measurement
(`PeriodCache.UniqueUsageIsPeriodUsageIff`, `ResumedRunMissesSubjects`,
`CountDependsOnSnapshotIff`).

Elsewhere: a custom currency id containing `|` cannot be read back
(`Currencies.RoundTripIff`) and is caught by the filter for the id before the delimiter
(`Currencies.FilterSelectsIff`, `FilterOverselects`); identity keys of references collide when one
code continues another with a colon (`Currencies.IdentityKeyIff`, `IdentityKeysCollide`).

## How things are represented

Time is whole minutes, the resolution that `openmeter/credit/README.md:32` prescribes; amounts
are exact reals. A recurrence is a fixed number of minutes from an anchor. Metered usage is a
quantity per minute and may still change after the frozen time of `Transparency.Frozen`. Each
operation of `Connector.Credit` is one atomic step, which the owner lock is there for. Grant ids
come from the repository, new and distinct, and their amounts are not negative. The start of
measurement is the start of the first usage period. Strings are byte strings.

## Model

| member | source | states |
|---|---|---|
| Grants.ActiveMeaning | openmeter/credit/grant/grant.go:76-110 | a grant is active exactly inside its effective period: from its effective time to the earliest of expiry, deletion and voiding, never ending before it starts |
| Grants.PrioritizePermutes | openmeter/credit/engine/grant.go:173-175 | putting grants in burn-down order loses and duplicates none |
| Grants.PrioritizeOrders | openmeter/credit/engine/grant.go:177-204 | the result is in strict burn-down order (priority, expiry with none last, creation, id), so it depends only on the set of grants |
| Grants.PrioritizeByFields | openmeter/credit/engine/grant.go:177-204 | field by field: priority numbers do not decrease; among equal ones expirations do not, with none last; then creation times do not; then ids increase |
| Grants.PrioritizeListed | openmeter/credit/engine/grant.go:173-175 | listing and prioritizing commute, so a run over listed grants burns in the order of a run over all |
| Grants.UnlistedIsInactive | openmeter/credit/adapter/grant.go:229-246 | a grant the repository query skips is inactive throughout the queried time |
| Grants.ListedMeaning | openmeter/credit/adapter/grant.go:229-246 | a grant is listed iff it takes effect by the end of the period and has not expired, been deleted or been voided before it |
| Reference.BurnInOrder | openmeter/credit/engine/run.go:279-320 | every grant keeps what usage does not reach once all earlier grants are exhausted |
| Reference.BurnTotals | openmeter/credit/engine/run.go:279-320 | overage is exactly the usage beyond all balances, and what is left is exactly the balance beyond the usage |
| Reference.BurnSplits | openmeter/credit/engine/run.go:279-320 | burning in two instalments, carrying the overage, is burning the sum |
| Reference.SmallerPriorityFirst | openmeter/credit/engine/run.go:279-320 | if usage takes balance from a grant with a greater priority number, every grant with a smaller one is exhausted |
| Reference.WalkSplits | openmeter/credit/engine/run.go:17-113 | a calculation can be cut at any intermediate time |
| Reference.PhaseIsWalk | openmeter/credit/engine/run.go:122-277 | serving a phase without grant changes at once equals serving it minute by minute |
| Reference.WalkConserves | openmeter/credit/engine/run.go:122-277 | between resets, metered usage plus carried overage is exactly what was burnt plus the overage left |
| Reference.ResetConserves | openmeter/credit/engine/reset.go:17-95 | a reset restarts the counters; the preserved overage is either burnt from rolled-over balances or still overage |
| Balances.ConvertUsage | openmeter/credit/grant/owner_connector.go:33-44 | converting a metered total is totalling the converted minutes |
| Balances.PopulateMeaning | openmeter/credit/helper.go:264-275 | populating adds exactly the missing listed grants, in full if active and empty otherwise, and never overwrites |
| Balances.FilterThenPopulate | openmeter/credit/helper.go:264-299 | removing inactive grants and later filling missing ones restores every snapshot over the listed grants whose inactive grants are empty |
| Balances.NewGrantAppearsInFull | openmeter/credit/helper.go:264-275 | a grant created afterwards and effective exactly at the snapshot appears at its full amount |
| Projection.WalkProjects | openmeter/credit/engine/run.go:122-277 | grants that stay inactive do not influence a calculation over the others |
| Checkpoints.SettledIsCheckpointIff | openmeter/credit/engine/burnphase.go:34-160 | a state to which recurrences at its own time were applied is a usable checkpoint iff it carried no overage or nothing is refilled at that time |
| ResetRows.OverrideIff | openmeter/credit/balance.go:274-276 | a reset deciding otherwise about overage than the owner stands, settled, for the owner's reset iff there was no overage |
| ResetRows.TwiceIff | openmeter/credit/balance.go:265-272 | a second reset of the same kind at the same time does no harm iff no overage is preserved, or nothing rolls over from zero and nothing is refilled |
| ResetRows.TwicePreservedIff | openmeter/credit/balance.go:265-276 | a second reset preserving overage, at a reset that drops it, does no harm iff rollovers and refills cover the overage |
| ResetRows.PreservingRunIff | openmeter/credit/balance.go:274-306 | one or two resets preserving overage, in a run that came to another state than the owner's, stand for the owner's reset dropping it iff both roll over to the same balances and rollovers and refills cover the run's overage (a single reset: there is none) |
| ResetRows.DroppingRunIff | openmeter/credit/balance.go:274-306 | resets dropping overage stand for the owner's preserving one iff both roll over to the same balances and the owner had no overage |
| ResetRows.DroppedIff | openmeter/credit/balance.go:254-306 | dropping a reset goes unnoticed iff nothing was used or burnt in the period, overage is kept or zero and reset and refill leave the same of it, and every balance carried on survives the rollover and what is burnt |
| LateGrants.UnnoticedIff | openmeter/credit/engine/reset.go:17-95 | whether one more grant takes part in burning preserved overage shows neither in the overage nor in the kept balances iff it contributes nothing, or the others cover the overage and each kept grant behind is not reached or exhausted anyway |
| LateGrants.UnnoticedWhenAllKeptIff | openmeter/credit/engine/reset.go:17-95 | when every grant behind keeps its balance, iff it contributes nothing or the grants ahead of it cover the overage |
| Phases.NextAfter | pkg/timeutil/recurrence.go:88-162 | the first recurrence not before a time, and none in between |
| Phases.RecurrenceTimes | openmeter/credit/engine/grant.go:66-154 | exactly the times in the period at which an active grant recurs, each with exactly the grants recurring then |
| Phases.ActivityChanges | openmeter/credit/engine/grant.go:18-64 | exactly the times from the start of the period up to its end at which a grant starts or stops, increasing |
| Phases.GetPhases | openmeter/credit/engine/burnphase.go:34-160 | the phases tile the period, nothing happens inside a phase, each starts with exactly the grants recurring then, and an empty last phase stands for activity at an inclusive end |
| Burndown.BurnDownGrants | openmeter/credit/engine/run.go:279-320 | burns the prioritized grants like the reference, leaves all others alone, and records usages that lead from the old balances to the new, sum to what was burnt and are marked as exhausting iff they leave nothing |
| Burndown.ApplyRecurrences | openmeter/credit/engine/run.go:122-277 | exactly the recurring grants of the list are set to their amount |
| Burndown.EnterPhase | openmeter/credit/engine/run.go:122-277 | at a phase start recurrences, grants taking effect and inactive grants are treated like the reference does |
| History.FoldTotals | openmeter/credit/engine/history.go:197-241 | between resets the usage counters reconstructed from a history are plain totals |
| Engine.RunPhase | openmeter/credit/engine/run.go:122-277 | one phase burns its metered usage and the carried overage from the active grants and records a conserving segment |
| Engine.RunPhases | openmeter/credit/engine/run.go:122-277 | after every phase balances, overage and counters are those of the minute-by-minute reference |
| Engine.RunBetweenResets | openmeter/credit/engine/run.go:122-277 | fails iff grants and balances do not pair up or the snapshot's grant usage is negative; otherwise ends in the reference state with a valid history that starts every phase in the reference state |
| Engine.ResetPeriod | openmeter/credit/engine/reset.go:17-95 | rolls over active grants, burns preserved overage in order, restarts the counters and records an instantaneous, conserving rollover segment; without preserved overage an active grant keeps its balance between floor and ceiling, gets the nearer of them outside, and the ceiling if that is below the floor, and an inactive one is untouched |
| Engine.RelevantMeaning | openmeter/credit/engine/grant.go:158-169 | a grant takes part in a period iff it has a balance or its effective period overlaps or touches the period |
| Engine.RepeatedReset | openmeter/credit/engine/run.go:52-113 | a reset recorded twice at one time resets again after settling the empty period between |
| EngineRun.RunToReset | openmeter/credit/engine/run.go:52-113 | a period and the reset ending it take the run from one reset of the reference to the next, and the history grows by exactly the breaks of the period |
| EngineRun.RunPeriods | openmeter/credit/engine/run.go:52-113 | the loop over usage periods stays at the reference state of the last reset |
| EngineRun.Run | openmeter/credit/engine/run.go:17-113 | fails iff the snapshot's grant usage is negative, the resets do not lie in the run or the balances belong to other grants; otherwise it ends exactly where the minute-by-minute reference ends and, when no reset is recorded twice, its history starts a segment at every break and nowhere else |
| UsagePeriods.PeriodStartIsLatestReset | openmeter/entitlement/usageperiod.go:154-184 | the current period starts at the latest reset or at the start of measurement |
| UsagePeriods.ResetsBetweenMeaning | openmeter/entitlement/usageperiod.go:186-250 | the resets after one time and not after another, increasing |
| UsagePeriods.TimelineAfter | openmeter/entitlement/metered/grant_owner_adapter.go:201-227 | the start of measurement that the owner puts before every reset timeline, and a reset at its beginning, do not show among the resets after that |
| UsagePeriods.EndCurrentPeriod | openmeter/credit/balance.go:335-342 | ending the period at a time adds a reset there, changes no earlier reset and never moves the current period start back |
| UsagePeriods.IsResetMeaning | openmeter/entitlement/usageperiod.go:186-250 | a reset is the start of the record in force or a whole number of intervals from its anchor |
| UsagePeriods.ResetsAfterEnd | openmeter/entitlement/metered/grant_owner_adapter.go:259-276 | after a period was ended, resets follow on the grid of the ended period if its anchor is retained, and otherwise on the grid anchored at the end |
| World.LatestMeaning | openmeter/credit/adapter/balance_snapshot.go:43-65 | the snapshot chosen is the latest not after the time, the newest of equals |
| World.InvalidateMembers | openmeter/credit/adapter/balance_snapshot.go:29-41 | exactly the snapshots strictly after the time are lost |
| World.LastBreakMeaning | openmeter/credit/helper.go:213-233 | the row to store is the one of the latest break within the limit |
| Resumption.ResumeFinishes | openmeter/credit/balance.go:44-123 | a run over the listed grants from a coherent snapshot reports what the run over all grants from the represented state reports |
| Resumption.ActiveMapStands | openmeter/credit/helper.go:278-299 | a balance map without inactive grants stands for the state it was taken from |
| Transparency.ResumeStands | openmeter/credit/helper.go:24-80 | a query resumes from the start of measurement or from a stored row of the owner's current unit config, never mixing regimes, and what it resumes from stands for the state at that time |
| Transparency.QueryMeaning | openmeter/credit/balance.go:125-146 | a query fails iff it is before the start of measurement, and otherwise answers with the state computed minute by minute from the start over all grants |
| Transparency.QueryUsage | openmeter/credit/grant/owner_connector.go:33-44 | the usage a query reports is what was metered since the current period began, multiplied or divided by the owner's factor, or as it is without a unit config |
| Transparency.QueryFailsIff | openmeter/credit/engine/history.go:59-70 | for any grants and stored rows of known grants: a query fails iff it is before the start of measurement or the snapshot it resumes from has a negative grant usage |
| Transparency.SettlingShowsIff | openmeter/credit/balance.go:72-74 | applying grant activity at the query time shows iff a grant with a positive amount takes effect then |
| Transparency.SnapshotsDoNotMatterIff | openmeter/credit/README.md:96-98 | two owners differing only in stored snapshots get the same answer iff both or neither have a usable snapshot at the very moment a grant takes effect |
| Transparency.TransparentIff | openmeter/credit/README.md:92-98 | a query agrees with forgetting every snapshot, except exactly at a stored snapshot's time at which a grant takes effect |
| Preservation.QueryRowOkIff | openmeter/credit/helper.go:196-262 | the row a query stores stands for the state at its time and lies in frozen time iff the usage period queried has begun; it is strictly newer than the resume point |
| Preservation.QueryRowTime | openmeter/credit/connector.go:50-61 | the row a query stores is older than the grace period or not after the start of the usage period queried, and at the last break of the run that is |
| Preservation.QueryKeepsIff | openmeter/credit/balance.go:44-123 | a query keeps the stored snapshots coherent iff it stores nothing or its usage period has begun |
| Preservation.UnitConfigKeeps | openmeter/credit/helper.go:42-60 | flipping the unit config keeps every snapshot coherent under the config it is stamped with |
| Preservation.IngestKeeps | openmeter/credit/connector.go:50-61 | usage arriving within the grace period, or after the current period began if that is later, keeps every snapshot coherent |
| Preservation.CreateKeepsIff | openmeter/credit/grant.go:47-123 | creating a grant keeps the stored snapshots coherent iff the row kept at its effective time, if any, is not that of a reset whose preserved overage it would have changed |
| Runs.VoidKeepsIff | openmeter/credit/grant.go:125-192 | voiding a grant keeps the stored snapshots coherent iff the row kept at the void time, if any, is not that of a reset whose preserved overage it has changed |
| OwnerResets.ResetRowStands | openmeter/credit/balance.go:215-351 | the row of a reset stands for the settled state of its run, whose earlier resets follow the reset's choice about overage: without the reset at a usable snapshot, with two at a recorded reset, with one otherwise |
| OwnerResets.ResetCarriesOver | openmeter/credit/balance.go:274-329 | a reset at a new time without overage to burn stores, for every active grant, its full amount if it is refilled then and otherwise its balance within floor and ceiling |
| OwnerResets.ResetRowOkIff | openmeter/credit/balance.go:215-351 | for every reset, at a new or recorded reset, with or without a snapshot there, with the owner's or another choice about overage, exactly when its row is a usable snapshot, in terms of the states that the owner and the reset's run come to just before it |
| OwnerResets.ResetKeepsIff | openmeter/credit/balance.go:298-342 | exactly then it keeps all stored snapshots coherent |
| Runs.StepKeepsIff | openmeter/credit/README.md:104-117 | an operation leaves every usable snapshot standing for recomputation iff it is harmless |
| Runs.RunKeeps | openmeter/credit/README.md:104-117 | over any run of queries, grants, voids, resets, config flips, ticks and late usage every usable snapshot stands for recomputation |
| Runs.TransparentAfterAnyRun | openmeter/credit/README.md:92-98 | after any such run a query agrees with forgetting every snapshot, up to the one exception |
| Runs.ResetSnapshotSurvives | openmeter/credit/balance.go:232-252 | no later run of operations deletes the snapshot a successful reset stored |
| Runs.NoResetSincePeriodStart | openmeter/credit/balance.go:244-252 | the check against later resets never rejects a reset within the current period |
| Runs.PeriodSnapshotStandsIff | openmeter/credit/balance.go:173-189 | the synthetic snapshot of a period query stands for the state at its time iff answering burnt no overage from a grant that is refilled again |
| Runs.PeriodAgrees | openmeter/credit/balance.go:148-213 | then the end balance of a period query is the balance computed from the start of measurement |
| Runs.PeriodAgreesIff | openmeter/credit/balance.go:148-213 | over a period without resets and grant events after its start the two agree exactly then |
| Runs.EmptyPeriodAgreesIff | openmeter/credit/balance.go:148-213 | for a single moment the two agree iff nothing is refilled then, or recomputing settles the moment too and there is no overage |
| Stepping.ChosenIsLastBreak | openmeter/credit/helper.go:213-233 | the backward loop over the history finds the last break within the limit, never a rollover |
| Stepping.QueryRan | openmeter/credit/balance.go:85-101 | the engine's result, without inactive grants, is the answer of the query |
| Stepping.SegmentRow | openmeter/credit/helper.go:219-233 | the snapshot reconstructed at a segment start is the row of that time computed minute by minute |
| Stepping.ResetRan | openmeter/credit/balance.go:270-311 | the engine's result of a reset is the row the reset stores |
| Connector.FindLatest | openmeter/credit/adapter/balance_snapshot.go:43-65 | scanning the rows finds the latest not after the time |
| Connector.PopulateMissing | openmeter/credit/helper.go:264-275 | the loop that fills in missing grants computes the populated map |
| Connector.KeepActive | openmeter/credit/helper.go:278-299 | fails iff a balance has no listed grant, and otherwise keeps exactly the active ones |
| Connector.ChooseSegment | openmeter/credit/helper.go:213-233 | the latest segment but the first that does not start after the limit, if any |
| Connector.ChosenRow | openmeter/credit/helper.go:196-236 | the segment picked gives the one row the operation stores, or there is none |
| Connector.Credit.GetLastValidSnapshotAt | openmeter/credit/helper.go:24-80 | returns the latest row if it has the owner's unit config and the start of measurement otherwise |
| Connector.Credit.SnapshotEngineResult | openmeter/credit/helper.go:196-236 | stores at most one row, that of the last break within the limit, and none while the owner is locked |
| Connector.Credit.GetBalanceSinceSnapshot | openmeter/credit/balance.go:44-123 | answers with the query's answer and adds at most that row |
| Connector.Credit.GetBalanceAt | openmeter/credit/balance.go:125-146 | answers with the query of the whole state and moves the state as the query does |
| Connector.Credit.GetBalanceForPeriod | openmeter/credit/balance.go:148-213 | returns the engine's run from the balance at the period's start, with the balances of all its grants and a history that breaks exactly where something happens; without inactive grants its end is the period query's answer; only the start's query stores |
| Connector.Credit.CreateGrant | openmeter/credit/grant.go:47-123 | rejects non-positive amounts and times before the current period, changing nothing; otherwise adds the grant and drops exactly the later rows |
| Connector.Credit.VoidGrantAt | openmeter/credit/grant.go:125-192 | rejects unknown or voided grants, future times and earlier periods, changing nothing; otherwise voids it and drops exactly the later rows |
| Connector.Credit.ResetUsageForOwner | openmeter/credit/balance.go:215-351 | succeeds iff the reset is not in the future, not before the current period or a recorded reset, and its run is possible; then stores its row in place of later ones and ends the period |
| Counterexamples.AnswerChangesOnceStored | openmeter/credit/balance.go:72-74 | the exception is real: a balance at the moment a grant takes effect changes once a query stores a snapshot of that moment |
| Counterexamples.QueriesAfterReset | openmeter/credit/balance.go:298-333 | queries after a fresh reset continue from its settled state, recomputation from the unsettled one |
| Counterexamples.ResetForgivesOverage | openmeter/credit/balance.go:270-333 | a reset preserving overage at the moment a grant takes effect forgives the overage |
| Counterexamples.ResetAtSnapshotIsDropped | openmeter/credit/balance.go:254-306 | a reset at the time of a usable snapshot stores a row that still counts the usage before it |
| Counterexamples.OverrideReachesBack | openmeter/credit/balance.go:274-276 | the reset's overage choice is applied to earlier resets of the same run |
| Counterexamples.RecordedResetCountsTwice | openmeter/credit/balance.go:265-272 | a reset at an already recorded reset without a snapshot is applied twice |
| Counterexamples.CreateAtResetDiffers | openmeter/credit/grant.go:77-113 | a grant created for the moment of the last reset makes its kept snapshot disagree with recomputation |
| Counterexamples.VoidAtResetDiffers | openmeter/credit/grant.go:158-190 | so does a grant voided at that moment |
| Counterexamples.PeriodQueryForgivesOverage | openmeter/credit/balance.go:173-212 | a period query starting at a recurrence forgives the overage the recurrence covered |
| Counterexamples.FutureQueryStoresOpenTime | openmeter/credit/balance.go:103-114 | a query whose usage period starts after now stores a snapshot over time whose usage may still change |
| Counterexamples.NegativeCeilingBlocksQueries | openmeter/credit/engine/history.go:59-70 | a grant with a negative rollover ceiling: its reset stores a negative grant usage, and every later query fails |
| PeriodCache.SortedPeriodsFromDedupedTimes | openmeter/credit/helper.go:301-323 | contiguous non-empty periods whose boundaries are exactly the given times, and none iff there are fewer than two different times |
| PeriodCache.CacheForOwner | openmeter/credit/helper.go:122-137 | the cache's boundaries are the start of measurement, the period start at the query's beginning, the resets in between and its end |
| PeriodCache.PeriodStartFor | openmeter/credit/helper.go:148-156 | the first inclusive match is the latest boundary strictly before the time, or the first boundary at that time; it fails exactly outside the cache |
| PeriodCache.LookupsSucceedIff | openmeter/credit/helper.go:122-156 | no lookup within the query bounds fails iff measurement had started by then or the bounds are one moment |
| PeriodCache.UniqueUsageMeaning | openmeter/credit/balance/usage.go:50-99 | a unique count over a phase counts its subjects not seen since the start used |
| PeriodCache.UniqueUsageIsPeriodUsageIff | openmeter/credit/helper.go:148-156 | with the looked-up start it counts the subjects new in the usage period iff the phase does not start at a reset after the start of measurement or none of its subjects was seen since that start, which is the period before or, for a run resumed there, the start of measurement |
| PeriodCache.ResumedRunMissesSubjects | openmeter/entitlement/metered/grant_owner_adapter.go:225-226 | a run resumed at a reset does not count a subject already seen before the reset |
| PeriodCache.CountsAgreeIff | openmeter/credit/balance/usage.go:50-99 | counting from two starts agrees iff the subjects of the phase seen between them are seen again before the phase |
| PeriodCache.CountDependsOnSnapshotIff | openmeter/credit/helper.go:122-156 | where a run resumed changes a unique count iff it resumed at the reset with which the phase starts, and a subject of the phase was seen before the period ending there but not in it |
| ValidationIssues.ExtractionMeaning | openmeter/billing/validationissue.go:181-330 | one issue per leaf in order, with the outermost non-empty component, messages joined outside-in and the slash-normalised path of non-empty prefixes; the original error iff an ordinary error has no component or field wrapper above it |
| IssueAlgebra.RoundTripIff | openmeter/billing/validationissue.go:209-217 | a list of issues survives the trip through an error iff all are without stored metadata and with a normal path |
| IssueAlgebra.ExtractionIsProjection | openmeter/billing/validationissue.go:181-217 | extracting what was extracted changes nothing |
| IssueAlgebra.PathsStartWithSlash | openmeter/billing/validationissue.go:231-255 | every path extracted is empty or starts with a slash |
| IssueAlgebra.OnlyContextsMatter | openmeter/billing/validationissue.go:263-330 | conversion depends only on the leaves and, per kind, the wrappers above them |
| IssueAlgebra.WrappersCommute | openmeter/billing/validationissue.go:270-281 | wrappers of different kinds commute |
| IssueAlgebra.WrapperDistributes | openmeter/billing/validationissue.go:299-312 | wrapping a joined error is joining the wrapped errors |
| IssueAlgebra.LayersAreTransparent | openmeter/billing/validationissue.go:299-314 | layers that only unwrap, and joins inside joins, are transparent |
| IssueAlgebra.JoinConverts | openmeter/billing/validationissue.go:299-312 | a join converts iff all its parts do, to their issues in order |
| IssueAlgebra.LineEngineErrorsConvert | openmeter/billing/lineengine.go:310-335 | a line engine's error always converts, one issue per leaf, all of that engine's component; the fallback is never needed |
| IssueAlgebra.EnginesHaveOwnComponents | openmeter/billing/lineengine.go:306-308 | different engines report as different, non-empty components |
| IssueAlgebra.EngineIsRequired | openmeter/billing/lineengine.go:310-335 | without an engine no error converts |
| InvoiceIssues.Invoice.MergeValidationIssues | openmeter/billing/stdinvoice.go:451-462 | replaces the component's issues by the error's, in order, and hands back an error that does not convert |
| InvoiceIssues.MergeByComponent | openmeter/billing/stdinvoice.go:451-462 | a merge leaves other components' issues in order and adds what the error carries for them |
| InvoiceIssues.LastWriterWins | openmeter/billing/stdinvoice.go:451-462 | after any sequence of merges each component's issues are those of its last merge |
| InvoiceIssues.MergesCommute | openmeter/billing/stdinvoice.go:451-462 | merges of different components commute up to order |
| InvoiceIssues.MergeTwiceIff | openmeter/billing/stdinvoice.go:451-462 | reporting the same error twice changes nothing iff every issue in it carries the reporting component |
| Currencies.Receiver.UnmarshalText | openmeter/currencies/currency.go:188-242 | parses or fails; a failure leaves the receiver unchanged |
| Currencies.RoundTripIff | openmeter/currencies/currency.go:110-242 | what was written reads back equal, with the same precision, iff a custom id does not contain the delimiter; otherwise it does not read back at all |
| Currencies.MarshalsIff | openmeter/currencies/currency.go:110-135 | a reference can be written iff it is a registered fiat code without an id, or a resolved custom one with well-formed code, the id of its currency, a name and a precision of at most twelve |
| Currencies.EqualIff | openmeter/currencies/currency.go:73-77 | equality is that of code and id, a missing id being as good as an empty one |
| Currencies.ParsedForm | openmeter/currencies/currency.go:188-242 | only three-letter fiat codes and well-formed custom snapshots are read, always to a valid reference |
| Currencies.ParsesIff | openmeter/currencies/currency.go:188-242 | a text can be read iff it is a registered fiat code or "custom", "v1", a well-formed code, a non-empty id and a precision of at most twelve, joined by the delimiter |
| Currencies.PrintedTextIsNormal | openmeter/currencies/currency.go:110-242 | printing what was read is normal form, and the original text iff it is a fiat code or its precision has no leading zero |
| Currencies.MarshalIsInjective | openmeter/currencies/currency.go:110-135 | equal texts come from equal code, id and precision, whatever the ids contain |
| Currencies.FilterSelectsIff | openmeter/currencies/currency.go:137-159 | a custom filter's prefix selects exactly the stored references with its code and, if set, its id or an id continuing it after a delimiter |
| Currencies.FiatFilterSelectsIff | openmeter/currencies/currency.go:137-147 | a fiat filter is the code and selects the stored references of that code, and all custom ones if it is "cus" |
| Currencies.FilterOverselects | openmeter/currencies/currency.go:137-159 | the filter for one id also selects a different, valid reference |
| Currencies.IdentityKeyIff | openmeter/currencies/currency.go:79-87 | two references share a key iff code and id are the same, or both have ids and one code continues the other with a colon into what the other has as the beginning of its id |
| Currencies.IdentityKeysCollide | openmeter/currencies/currency.go:79-87 | two valid, different references share a key because codes may contain colons |
| LineReplacement.StandardInvoiceLines.ReplaceByID | openmeter/billing/stdinvoice.go:645-664 | the first line with the id is replaced and the replacement takes over its stored state; nothing changes if there is none |
| LineReplacement.StandardInvoiceLines.ReplaceLinesByID | openmeter/billing/stdinvoice.go:666-684 | fails, changing nothing, iff a replacement is missing or names no line; otherwise every first position named holds the last replacement of its id with the stored state it had |
| LineReplacement.StandardInvoiceLines.ReplaceExact | openmeter/billing/stdinvoice.go:686-718 | succeeds iff the lines are expanded, the replacements valid, the ids match as multisets and all are found; on an error nothing changes |
| LineReplacement.ReplacedMeaning | openmeter/billing/stdinvoice.go:645-684 | ids and order stay; exactly the named first positions change |
| LineReplacement.SubsetIsFound | openmeter/billing/stdinvoiceline.go:987-1000 | replacing a subset of the invoice's lines by lines with the same ids never misses one |
| LineReplacement.EachReplacementIsPlaced | openmeter/billing/stdinvoice.go:666-684 | with distinct ids every replacement is placed |
| IdReuse.ReuseIDsFrom | openmeter/billing/invoicelinediscount.go:372-414 | each discount takes id and creation time of the first stored one with its reference, or is unchanged |
| IdReuse.HandedTwiceIff | openmeter/billing/invoicelinediscount.go:372-414 | two discounts are handed the same stored id iff they share a reference |
| IdReuse.ReuseIsIdempotent | openmeter/billing/invoicelinediscount.go:372-414 | reuse keeps length, order and contents and is idempotent |
| IdReuse.MergeDiscountsByChildUniqueReferenceID | openmeter/billing/invoicelinediscount.go:292-322 | one upsert replaces the first discount with the reference, keeping its id and creation time, or appends |
| IdReuse.UpsertsAgreeWithReuse | openmeter/billing/invoicelinediscount.go:292-322 | upserting discounts with distinct references one by one gives the identities that reuse gives them, appends the others in order and leaves the rest alone |
| IdReuse.DetailedLinesWithIDReuse | openmeter/billing/stdinvoiceline.go:920-962 | each line takes identity, timestamps and fee configuration of the last live stored line with its reference, and its discounts reuse that line's |
| IdReuse.ReuseLineMeaning | openmeter/billing/stdinvoiceline.go:920-962 | field by field: id, creation and update times and fee configuration are those of the last live stored line with the reference, its discounts are reused, and deletion, amount and reference stay |
| IdReuse.LinesReuse | openmeter/billing/stdinvoiceline.go:920-962 | idempotent, keeps amounts and references, and hands one stored id to two lines iff they share a reference |
| ExternalIds.SetDiscountExternalIDs | openmeter/billing/invoicedetailedline.go:85-98 | places the ids of the named discounts and reports exactly which were found |
| ExternalIds.PlaceMeaning | openmeter/billing/app.go:266-288 | every line, detailed line and discount named by a map has the external id it names, and nothing else changes |
| ExternalIds.Line.Merge | openmeter/billing/app.go:266-288 | one round of the loop consumes exactly the keys of the line and its parts and, if none repeats, places exactly those |
| ExternalIds.Invoice.MergeIntoInvoice | openmeter/billing/app.go:244-299 | the shared maps are left with exactly the unmatched keys, the call succeeds iff none remains, and with distinct ids every named line, detailed line and discount has its external id and nothing else changed |
| ExternalIds.SecondMergeChangesNothing | openmeter/billing/app.go:244-299 | merging the same result again changes no line and no map |
| ProgressiveBilling.SumNetAmount | openmeter/billing/invoicelinesplitgroup.go:359-432 | fails iff a live child of a standard invoice that ends by the limit is no standard line; otherwise sums the net amounts of those children |
| ProgressiveBilling.ChildCounts | openmeter/billing/invoicelinesplitgroup.go:359-432 | a child counts with its amount, and its charges if asked for, unless it or its invoice was deleted, the invoice is a gathering one, or it ends after the limit |
| ProgressiveBilling.GetPreviouslyBilledAmount | openmeter/billing/stdinvoiceline.go:436-448 | zero outside a group, an error without the hierarchy or with a line that cannot be counted, otherwise the amount billed up to the line's start |
| ProgressiveBilling.OrderDoesNotMatter | openmeter/billing/invoicelinesplitgroup.go:359-432 | the sum does not depend on the order of the children |
| ProgressiveBilling.PreviousIsPrefixSum | openmeter/billing/stdinvoiceline.go:436-448 | for contiguous lines in any order among gathering and deleted ones, previously billed amounts are prefix sums: each line adds its own amount |
| LineGrouping.GroupByLineEngine | openmeter/billing/stdinvoiceedit.go:239-296 | fails iff a line has no engine or a non-empty edit is invalid; otherwise maps exactly the engines present to their parts |
| LineGrouping.ValidIff | openmeter/billing/stdinvoiceedit.go:193-237 | an edit is valid iff it edits something and its resolvers, lines and overrides are all valid and present |
| LineGrouping.ValidPartsIff | openmeter/billing/stdinvoiceedit.go:193-296 | all parts are valid iff the edit is valid or empty |
| LineGrouping.PartsPartition | openmeter/billing/stdinvoiceedit.go:261-296 | the parts are an order-preserving partition of the edit's created, updated and deleted lines |

## Left out

- Connector.Credit.CreateGrant: asks for a rollover ceiling that is not negative, which the code does not check; such a grant rolls over to a negative balance, which the next phase burns as negative grant usage, and queries resuming from a snapshot with that fail (`Counterexamples.NegativeCeilingBlocksQueries`). Runs of the engine with negative balances are not modelled otherwise.
- Connector.Credit.VoidGrantAt: locking and event publishing are not modelled, so a check that reads stale data before the lock is out of scope.
- Runs.PeriodAgrees: a non-empty period (`Runs.EmptyPeriodAgreesIff` has the empty one), and one direction only when resets or grant events follow within the period, since they may hide the difference in an end balance; `Runs.PeriodAgreesIff` is exact without them, and `Runs.PeriodSnapshotStandsIff` for every period.
- EngineRun.Run: says nothing about the history when a reset is recorded twice: the code's stable sort then puts both rollovers before the empty period between them, so that period's starting counters are not the reference's; no snapshot is taken from such a history; grants whose balance is missing are only excluded, and negative balances are not modelled.
- UsagePeriods.ResetsBetweenMeaning: models the resets of a period by their definition, not the stepping loop and its iteration cap.
- Phases.NextAfter: an interval is a fixed number of minutes; calendar months and years, and the iteration cap, are not modelled.
- Sub-minute timestamps: a query's rounding up to the minute and the truncation of inputs are not modelled.
- Floating point: the engine mixes decimals and floats; the model has no rounding.
- Unique and latest aggregations inside the state machine: `PeriodCache` treats unique counts on their own; latest values are never stored.
- The legacy usage representation beside the usage snapshot, kept only for old readers.
- Deleting all grants of an owner, listing and paging of grants, events, tracing and logging.
- ValidationIssues.ExtractionMeaning: an error type that unwraps differently on each call is not modelled.
- Currencies.ParsedForm: trimming knows the ASCII spaces only; the registry of fiat codes is a parameter, and formatting and rounding of amounts are not part of this model.
- LineGrouping.GroupByLineEngine: lines are never nil; the validity of a line is a flag.
- Field-by-field validation, JSON forms, clones and getters: they would only add easy members.
- The invoice state machine, rating, ledger and charges: their code is not part of this model.
