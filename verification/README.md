# Verified models of the Foundry's protocols

A Dafny model of the parts of the Foundry whose correctness is hard to see from any single function: protocols
that crash and resume, algorithms whose result must not depend on iteration order, and simulations that must
conserve what they count. Every main result is a statement over all inputs, all runs or all interleavings.

| files | what they model |
|---|---|
| `Activation*.dfy`, `Options`, `Packages`, `VersionStore`, `VersionPaths`, `RecordLog`, `Budget`, `Skills`, `Freezes` | Skill-package activation: `SkillPackageBridge.Promote` and `Rollback` as a step machine in which every durable write is one step, any step may fail, any process may crash, the clock may be set, and other processes freeze and thaw. The stores, the registry, the latch and the promotion guard are classes beside it. |
| `ChangeSet`, `DependencyGraph`, `Ordering` | The multi-repository change-set saga: Kahn's algorithm with sorted tie-breaks, and the dependency-ordered integration fold. |
| `Intake`, `IntakeProofs`, `IntakeTheorems`, `IntakeHistory`, `IntakeStore`, `IntakePipeline` | The resumable intake pipeline: what one call does to the durable run as a function, the pipeline and its store as classes proved to do exactly that, and what every sequence of calls guarantees. |
| `Deploy`, `DeployProofs`, `DeployReruns`, `DeployQuota`, `DeployActivity`, `Quota` | Interleaved deploys: the activity, the external-operation wrapper, the health and rollback policy, the ledger and the quota. |
| `Fallback` | Executor selection and the bounded fallback loop. |
| `Soak`, `SoakLosses` | The delivery/learning soak simulation. |
| `Audit` | The audit hash chain and its anchors. |

`dafny verify dfyconfig.toml` checks the whole project.

## What the models say about the code

Most of what the code promises holds as stated in the table below. Where a promise does not hold as written,
the model keeps the code as it is, shows the failing case, and states exactly when the promise does hold:

- Recovery keys terminal rows by action, skill and version. After an aborted attempt, a retry of the same version
  that switches the catalog and then crashes is never reported by anything that happens later
  (`ActivationWitness.AbortHidesLaterSwitch`). A commit claim is never wrong (`ActivationReports.CommitClaimsAreTrue`);
  which switches recovery reports, and which any continuation can still report, is decided exactly by the log at hand
  (`ActivationHidden.RecoveryReportsSwitchIff`, `ActivationHidden.SwitchIsEverReportedIff`).
- The promotion limit survives crashes, retries and a clock set back between operations, but not a clock set back
  between an operation's load of the budget and its reservation: for every limit there is a run that overruns it
  (`ActivationLadder.ClockSetBackOverruns`), and `ActivationBudget.LimitHoldsIffClockForward` gives the condition.
- An over-budget rollback is to freeze promotions, and to be refused where there is no freeze store. A refused one, or
  one that dies before its freeze, keeps its reservation, so its retry goes through unfrozen (`ActivationLadder.RetriedRollbackIsUnfrozen`, exactly in
  `ActivationRollback.RollbackGoesUnfrozenIff`).
- `WithExternalOp` says that the side effect runs at most once per key once a receipt is recorded. Two overlapping
  calls with one key break this (`DeployReruns.OverlappingCallsCanRunTwice`); `DeployReruns.RerunsExactlyWhenHeld`
  gives the exact condition and `DeployReruns.OneAtATimeNeverReruns` the discipline under which it holds.
- The deploy quota lives in memory. Its limit bounds the deploys of one worker life, and all lives together only by the
  limit times their number (`DeployProofs.DeploysStayWithinQuota`); that bound is attained
  (`DeployQuota.QuotaBoundIsAttained`), so the limit itself holds exactly without a restart
  (`DeployQuota.LimitHoldsExactlyWithoutRestart`).
- A stage record and the run's save are two writes. A lost save after the validation loses its spend for good, and
  with a terminal verdict leaves the run unfinished for good; an unrecognised verdict is recorded before it is
  refused, and the next call goes past it (`IntakeTheorems.ResumedEqualsUninterrupted`,
  `IntakeTheorems.StuckVerdictStays`, `IntakeTheorems.UnknownVerdictSlipsThrough`).
- Creating a run and recording its idea are two writes too. No stage reads the record that a start which dies between
  them lacks (`IntakeHistory.IdeaRecordIsNeverMissed`), so its records stop being a prefix of the forward order with the first one
  (`IntakeHistory.LostIdeaLeavesNoPrefix`), and resumed to its end it lacks the idea's record and nothing else
  (`IntakeTheorems.ResumedWithoutIdea`).
- `SelectCandidates` says that it uses exactly the priority of `Select`, but neither it nor the loop looks at the
  profile: an executor that the profile denies can be tried first (`Fallback.DeniedProfileStillFallsBack`) or after
  Select's own answer faults (`Fallback.DeniedExecutorDecides`). `Fallback.ProfileIsRespectedIff` says exactly when no
  denied executor is ever asked.
- The soak simulation encodes "not delivering" as finish tick 0, so a delivery whose finish tick is computed as 0
  disappears (`Soak.ZeroDurationLoses`), and deliveries can wait beside idle workers: one worker, duration 0 and two
  arrivals at the first tick are enough (`SoakLosses.DeliveryWaitsBesideIdle`). `SoakLosses.ConservedIff` and
  `SoakLosses.WorkConservingIff` decide both from the configuration, and `SoakLosses.ConservedWhateverArrivesIff` says
  for which durations work can be lost.
- The audit chain hashes link and payload without a delimiter and does not hash sequence numbers
  (`Audit.FirstLinkIsNotDelimited`, `Audit.SequenceNumbersAreNotPinned`).

## How things are represented

- Contents, metadata and operation keys are digested by free constructors in the activation model: a digest
  determines what was digested. The audit chain instead takes an arbitrary hash function with fixed-width output, and
  its tamper-evidence results end in "or here is a collision".
- Times are integers, money is `real`, versions are unbounded integers except where a path is parsed.
- The intake seams are functions; a schedule says at which stage of which call a seam fails, asks for a human, or
  the run's save is lost. `IntakeHistory` lets the seams answer differently on every call.
- What the deploy provider answers, what an executor attempt meets and what the readiness gate decides are parameters.
- Waiting for a lock is a step that changes nothing; a schedule may retry it.

## Model

| member | source | states |
|---|---|---|
| `ActivationLocks.LocksAlwaysHold` | internal/evolve/skill_packages.go:199-324 | After every schedule, at every point of an operation but the writing of a denial, the advisory lock and the process's read lock are held exactly between their acquisition and release; a denial is written under both or neither; and what they protect (no freeze row, no latch) is false while they are held |
| `ActivationLocks.NoPromotionWhileFrozen` | internal/evolve/skill_packages.go:199-324 | In every interleaving of promotions, rollbacks, freezes, thaws, failures and crashes, the step at which a promotion changes the catalog finds no durable freeze row and no latch in its own process |
| `ActivationLocks.OnlySwitchingChangesPins` | internal/evolve/skill_packages.go:684-735 | The catalog pins change in no step but the compare-and-switch |
| `ActivationLocks.OverBudgetCannotBlockItself` | internal/evolve/skill_packages.go:248-289 | Wherever an operation is about to freeze or mirror, it holds neither lock, its next step succeeds and moves on, and the durable row is then set |
| `ActivationLocks.LocalFreezeSticks` | internal/evolve/budget.go:109-160 | Any single step except that process's own thaw or death leaves a direct local freeze in place |
| `ActivationLocks.LocalFreezeHoldsThroughout` | internal/evolve/budget.go:109-160 | Over whole runs: a process that froze itself stays frozen until it thaws or dies |
| `ActivationProgress.NoOperationWaitsOnItself` | internal/evolve/skill_packages.go:119-479 | In every reachable state the next action of the operation under way ends it or strictly lowers the number of actions it has left |
| `ActivationProgress.EveryOperationEnds` | internal/evolve/skill_packages.go:119-479 | Whatever came before, an operation left to itself returns with every lock released within fifteen actions |
| `ActivationSteps.NextKeeps` | internal/evolve/skill_packages.go:119-479 | Every step of either operation, every failure, crash, freeze, thaw, registration and setting of the clock keeps the protocol's invariant |
| `ActivationSteps.AlwaysHolds` | internal/evolve/skill_packages.go:119-479 | The protocol's invariant (objects bound, pins readable, switches serial and paid for, log gapless with at most one open row, reservations well formed, registries in agreement) holds after every schedule |
| `ActivationTheorems.PinnedVersionAlwaysReads` | internal/evolve/skill_package_version_store.go:98-110 | In every reachable state, crash points included, a pinned skill's version reads back, the pin is the pin of what is read, and every version below it is stored too |
| `ActivationTheorems.DurableStateOnlyGrows` | internal/evolve/skill_package_version_store.go:150-204 | Between any two moments of any run, stored objects are unaltered and log rows, reservations and switches are only added |
| `ActivationTheorems.AuthorityNeverExceedsFirstVersion` | internal/evolve/skills.go:183-199 | After any run, every stored version of a skill - active, superseded or abandoned - has permissions and data classes inside version 1's and a budget at most version 1's |
| `ActivationTheorems.LogIsAlwaysReadable` | internal/evolve/skill_package_record_store.go:80-130 | In every reachable state the log's sequence numbers are 1, 2, 3, ... and every row is valid |
| `ActivationTheorems.AtMostOneRowIsOpen` | internal/evolve/skill_package_record_store.go:186-229 | In every reachable state an unsettled prepared row can only be the newest row |
| `ActivationTheorems.ReconciliationTellsTheTruth` | internal/evolve/skill_package_record_store.go:186-225 | Reconciling any reachable state leaves nothing open, adds at most one row, and that row says recovered-committed exactly when the catalog had switched to its version, aborted otherwise |
| `ActivationTheorems.SwitchesAreSerial` | internal/evolve/skill_packages.go:309-324 | Each switch raises its skill's version by exactly one from where the previous switch of that skill left it, and the catalog stands at the last one |
| `ActivationTheorems.EachSwitchHasItsOwnReservation` | internal/evolve/skill_packages.go:755-758 | Every switch is paid for by a reservation, and one reservation pays for at most one switch |
| `ActivationTheorems.ReservationsAreDistinct` | internal/evolve/skill_package_budget_store.go:94-124 | In every reachable state the reservations have distinct keys, are in order of time and numbered on, and a reload accepts them exactly when the clock does not stand before the last of them |
| `ActivationBudget.PromotionsStayWithinLimit` | internal/evolve/skill_package_budget_store.go:87-124 | With a positive limit, no trailing 30-day window anywhere in any run - crashes, retries, over-budget rollbacks and a clock set back between operations included - holds more promotions than the limit, as long as the clock is not set back under an operation between its load and its reservation |
| `ActivationBudget.LimitHoldsIffClockForward` | internal/evolve/skill_package_budget_store.go:87-124 | For any load time, reservation time and positive limit: an accepted reservation leaves every well-formed log within the limit exactly when the reservation is not earlier than the load |
| `ActivationBudget.StaleWindowOverruns` | internal/evolve/skill_package_budget_store.go:87-124 | For every load time after a reservation time and every positive limit, some well-formed log within the limit accepts a promotion that takes the trailing window over it |
| `ActivationLadder.ClockSetBackOverruns` | internal/evolve/skill_package_budget_store.go:87-124 | For every positive limit there is a run of the protocol - promotions up to the limit, the clock set on, a budget load, the clock set back, the reservation - with one promotion more than the limit in the trailing window |
| `ActivationTheorems.RegistryAgreesWithStore` | internal/evolve/skill_packages.go:329-332 | Once a process's history of a skill has advanced, its entries are consecutively numbered and each is the durably stored version of its number |
| `ActivationTheorems.HistoryOnlyGrows` | internal/evolve/skills.go:69-97 | Over whole runs a process's history of a skill is append-only until the process dies or registers the skill anew |
| `ActivationTheorems.RollbackRestoresPrevious` | internal/evolve/skill_packages.go:389-409 | The version a rollback activates is the one before the version it leaves, under the next number |
| `ActivationTheorems.TwoRollbacksCancel` | internal/evolve/skills.go:85-97 | Two consecutive rollbacks of a skill restore prompt, permissions, data classes and budget of the version active before the first |
| `ActivationReports.CommitClaimsAreTrue` | internal/evolve/skill_packages.go:333-343 | In every reachable state a row that claims a commit, live or recovered, names a version the catalog did switch to |
| `ActivationHidden.RecoveryReportsSwitchIff` | internal/evolve/skill_package_record_store.go:186-225 | For every reachable state and every switch made so far: recovery reports the switch exactly when the log already does or holds no abort for its identity |
| `ActivationHidden.SwitchIsEverReportedIff` | internal/evolve/skill_package_record_store.go:191-203 | For every reachable state and every switch made so far: some continuation of the run reports the switch exactly when the log already does, holds no abort for its identity, or the operation that made it is still on its way to its commit row |
| `ActivationWitness.AbortHidesLaterSwitch` | internal/evolve/skill_package_record_store.go:227-229 | A concrete run in which an abort at an identity, a retry and a crash after the switch leave a settled log, and no continuation of the run whatever reports the switch |
| `ActivationWitness.PromotionReachesSwitch` | internal/evolve/skill_packages.go:119-313 | An admissible promotion from any version that nothing disturbs stands before its switch after eleven actions, nine if it is not the first, having changed only its own version objects, reservation and row |
| `ActivationWitness.PromotionCompletes` | internal/evolve/skill_packages.go:119-347 | An admissible promotion from any version that nothing disturbs ends with objects, reservation, pin, switch history, registry and log all at the next version and every lock released |
| `ActivationRollback.RollbackCompletes` | internal/evolve/skill_packages.go:349-479 | A rollback that nothing disturbs, with the pinned and the previous version readable and at the head of the registry history, a budget that loads and a free slot for the copy, ends with pin, switch history, registry and log at the copy under the next number - over budget too, if there is a freeze store, and then promotions are frozen for the breach |
| `ActivationRollback.RollbackGoesUnfrozenIff` | internal/evolve/skill_packages.go:418-435 | A rollback at its reservation goes on with no freeze on its way exactly when its reservation breaches nothing or an earlier attempt has already made it |
| `ActivationLadder.RetriedRollbackIsUnfrozen` | internal/evolve/skill_packages.go:422-435 | A concrete run in which a caller without a freeze store is refused an over-budget rollback, retries it and goes through: the rollback is active, its charge is over the limit and promotions are not frozen |
| `ActivationRollback.RollbackRegainsAuthority` | internal/evolve/skill_packages.go:389-409 | A concrete run in which a promotion drops a permission and the rollback after it regains it, so the active version is not inside the one it replaced |
| `RecordLog.RecordStore.Append` | internal/evolve/skill_package_record_store.go:49-78 | Appends the row under the next number exactly when it is valid, otherwise changes nothing; the log stays gapless and valid |
| `RecordLog.RecordStore.Reconcile` | internal/evolve/skill_package_record_store.go:186-225 | The two loops leave exactly the reconciled log, with nothing open |
| `RecordLog.ReconcileSettlesEverything` | internal/evolve/skill_package_record_store.go:186-225 | For any gapless valid log: reconciliation settles every prepared row, only appends, keeps the log gapless and valid, and every row it adds settles a row that was open |
| `RecordLog.SecondReconcileIsNoOp` | internal/evolve/skill_package_record_store.go:186-225 | A second reconciliation at any later time and for any catalog appends nothing |
| `RecordLog.ReconcileWritesAtMostOne` | internal/evolve/skill_package_record_store.go:197-225 | When only the newest row can be open, reconciliation appends one recovered row for it or nothing |
| `Budget.BudgetStore.Load` | internal/evolve/skill_package_budget_store.go:30-85 | Accepts the reservation log exactly when it is well formed as of now, and returns it with the window folded from its last 30 days |
| `Budget.BudgetStore.ReserveOne` | internal/evolve/skill_package_budget_store.go:87-124 | The validity and time tests, the key search, the projected window, the breach test and the append together are the reservation: the log is extended exactly when it is accepted, and left alone by a malformed one, an earlier time, a known key and a breaching promotion |
| `Budget.ReservedWindowIsReloaded` | internal/evolve/skill_package_budget_store.go:126-141 | After an accepted reservation against a loaded window, a reload at its time accepts the log, and the window kept in memory is the one the reload folds exactly when no event lies between the cutoffs of the load and of the reservation |
| `Budget.RetryIsNotCharged` | internal/evolve/skill_package_budget_store.go:94-98 | After an accepted reservation, the same operation at any later time and against any window finds its reservation and is not charged |
| `Budget.AcceptKeepsRoom` | internal/evolve/skill_package_budget_store.go:99-124 | Accepting a reservation against a window loaded earlier keeps the log in order and every promotion within the limit of the window ending at it |
| `Budget.EveryWindowIsBounded` | internal/evolve/budget.go:83-107 | If each promotion had room when accepted, every trailing window at any time holds at most the limit |
| `Freezes.LatchRemembers` | internal/evolve/budget.go:109-160 | Over any sequence of latch calls: frozen exactly when a local freeze was not thawed since, or a mirrored one neither thawed nor cleared since; a local freeze always wins over the mirror |
| `Freezes.ProcessLatch.Freeze` | internal/evolve/budget.go:109-117 | Sets the latch as a local freeze with its reason |
| `Freezes.ProcessLatch.MirrorDurableFreeze` | internal/evolve/budget.go:123-134 | Mirrors a durable freeze unless a local freeze is in place, which then keeps its reason |
| `Freezes.ProcessLatch.ClearDurableFreezeMirror` | internal/evolve/budget.go:139-150 | Clears a mirrored freeze and nothing else |
| `Freezes.ProcessLatch.Unfreeze` | internal/evolve/budget.go:152-160 | Clears the latch whatever set it |
| `Freezes.FreezeStore.Freeze` | internal/evolve/freeze_store.go:34-54 | Writes the scope's row, waiting while a guard holds the scope's lock; the empty scope is the global one |
| `Freezes.FreezeStore.Unfreeze` | internal/evolve/freeze_store.go:60-83 | Deletes the scope's row under its lock and says whether there was one |
| `Freezes.FreezeStore.AcquirePromotionGuard` | internal/evolve/freeze_store.go:135-167 | Waits exactly while another guard holds the scope; otherwise returns a guard holding the lock exactly when the row is absent, and a frozen scope's reason with the lock released |
| `Freezes.PromotionGuard.Release` | internal/evolve/freeze_store.go:96-129 | Releases the lock the first time and is a no-op ever after, even if another guard holds the scope by then |
| `Skills.Subset` | internal/evolve/skills.go:302-314 | The loop answers exactly whether every element of the first list is in the second |
| `Skills.CheckL1Conditions` | internal/evolve/skills.go:183-199 | Passes exactly when the base is a real version and the proposal stays inside its permissions, data classes and budget; otherwise names the first failure in order |
| `Skills.AppliedMeansEveryGate` | internal/evolve/skills.go:244-300 | A candidate is applied exactly when it is personal, authority-preserving, shadowed and canaried, without regression, and within the change budget |
| `Skills.SkillRegistry.Register` | internal/evolve/skills.go:35-43 | Starts the skill's history with this one version, numbered 1 if it has no number |
| `Skills.SkillRegistry.Promote` | internal/evolve/skills.go:69-79 | Appends the proposal under the next number and touches no other skill |
| `Skills.SkillRegistry.Rollback` | internal/evolve/skills.go:85-97 | Appends a copy of the previous version exactly when there is one, otherwise changes nothing |
| `Skills.TwoRollbacksRestore` | internal/evolve/skills.go:85-97 | Rolling a history back twice restores the version rolled back from under a new number |
| `VersionStore.PinReadsBack` | internal/evolve/skill_package_version_store.go:98-110 | A pin reads back exactly when it is the pin of what is stored, and then reads what is stored |
| `VersionStore.StoredReadsBack` | internal/evolve/skill_package_version_store.go:42-96 | Storing a version and reading it back, by number or by pin, returns it under its new number |
| `VersionStore.ReadsAreStable` | internal/evolve/skill_package_version_store.go:150-204 | What reads back once reads the same after any further immutable writes |
| `VersionStore.VersionDirectory.EnsureVersionObjects` | internal/evolve/skill_package_version_store.go:21-40 | Writes content then metadata without altering any existing object; on success the version reads back |
| `VersionPaths.ParsesExactlyWhatIsWritten` | internal/evolve/skill_packages.go:890-908 | Parsing accepts a path with version n exactly when it is the path written for that skill and n, with n between 1 and the largest 64-bit integer |
| `VersionPaths.PathsAreDistinct` | internal/evolve/skill_packages.go:890-892 | No two skill and version pairs share a path, even when an identifier holds separators |
| `ChangeSet.TopoOrder` | internal/kernel/changeset.go:101-147 | Succeeds exactly when aliases are distinct, dependencies known and the graph acyclic; the result is the lexicographically least topological order; an unknown dependency is reported exactly when there is one and is a real edge to no repo |
| `ChangeSet.LeastOrderIsUnique` | internal/kernel/changeset.go:101-147 | There is only one least topological order, so ties leave nothing to chance |
| `ChangeSet.OrderIgnoresListOrder` | internal/kernel/changeset.go:101-147 | Listing the same repos in another order gives the same least order |
| `DependencyGraph.GreedyIsLeast` | internal/kernel/changeset.go:120-142 | Always taking the least ready repo yields an order no topological order precedes |
| `DependencyGraph.StuckHasCycle` | internal/kernel/changeset.go:143-146 | If no remaining repo is ready, there is a cycle made of remaining repos only |
| `ChangeSet.FreezeContracts` | internal/kernel/changeset.go:88-96 | Returns the sorted list of name@digest entries and the hash of its lines |
| `ChangeSet.FrozenContractsIgnoreOrder` | internal/kernel/changeset.go:88-96 | Two listings of the same contracts freeze to the same list |
| `ChangeSet.IntegrateInOrder` | internal/kernel/changeset.go:184-214 | Along a topological order the fold settles each repo: integrated exactly when it and all its transitive dependencies pushed, blocked when only it pushed, failed otherwise, with the receipts and failures that say so |
| `ChangeSet.IntegrationDecision` | internal/kernel/changeset.go:192-204 | Checking direct dependencies against those integrated so far decides the statement over transitive dependencies |
| `ChangeSet.FullyPushedByEdges` | internal/kernel/changeset.go:192-204 | A repo and all it reaches are pushed exactly when it is pushed and the same holds of each direct dependency |
| `ChangeSet.PushedBranches` | internal/kernel/changeset.go:235-248 | Whatever order the receipt map is iterated in, the sorted branches of the pushed repos |
| `ChangeSet.RunChangeSet` | internal/kernel/changeset.go:155-231 | Orderable: exact receipts, and success exactly when every repo pushed; unorderable: blocked with nothing integrated; in both, every repo has a receipt, marked failed exactly when it did not push, and the reconcile action lists exactly the failed repos and pushed branches, sorted |
| `ChangeSet.CountCheckIsRedundant` | internal/kernel/changeset.go:215-219 | With no failed repo the integrated count is the repo count, so the second half of the success test never decides |
| `Intake.CapsFromBudget` | internal/intake/types.go:90-104 | The two caps add up to the envelope, the research cap lies between zero and it, and a non-positive budget is no envelope |
| `IntakeTheorems.ResumedEqualsUninterrupted` | internal/intake/pipeline.go:273-303 | For deterministic seams, any schedule of seam failures, lost saves, pauses and resumes that finishes has the records, stage, status and mission of one uninterrupted call exactly when the verdict is a known one, and the whole stored run including the spend exactly when, besides, no validation save was lost or the validation cost nothing |
| `IntakeTheorems.ResumedWithoutIdea` | internal/intake/pipeline.go:262-303 | A start that died before recording its idea and is resumed to its end never has the records of the uninterrupted run; it has all of them but the idea's, with the same stage, status and mission, exactly when the verdict is a known one, and the same spend too exactly when, besides, no validation save was lost or the validation cost nothing |
| `IntakeTheorems.OneCleanCallSettles` | internal/intake/pipeline.go:273-303 | After any calls whatever, one call without faults finishes the run exactly when it is already done, or there is an envelope, no terminal verdict lost its save, the verdict is known or already recorded, and no strong authentication is demanded |
| `IntakeTheorems.SpendIsKeptIff` | internal/intake/stages.go:77-102 | A finished run's spend is the verdict's if the verdict is a known one and no call lost the save of the validation it recorded, and zero otherwise |
| `IntakeTheorems.StuckVerdictStays` | internal/intake/stages.go:84-89 | A terminal verdict on record whose save was lost leaves the run unfinished through every later call |
| `IntakeTheorems.UnknownVerdictSlipsThrough` | internal/intake/stages.go:128-151 | With an envelope and no strong authentication demanded, an unrecognised verdict stops the first call with the run unchanged, and the second call goes past it to a mission, with no spend accounted |
| `IntakeTheorems.NoEnvelopeNothingHappens` | internal/intake/pipeline.go:171-184 | Without a positive budget no number of calls changes anything after the idea is recorded |
| `IntakeTheorems.FinishedIsDetermined` | internal/intake/stages.go:48-152 | Any two finished states of the same idea under the same seams agree on records, stage, status and mission |
| `IntakeHistory.RecordsAreAPrefix` | internal/intake/types.go:51-60 | From a start that recorded its idea, whatever the seams answer on each call, the recorded stages are always a non-empty prefix of the forward order |
| `IntakeHistory.LostIdeaLeavesNoPrefix` | internal/intake/pipeline.go:262-271 | From a start that died before recording its idea, whatever the seams answer, the recorded stages are a prefix of the forward order exactly as long as nothing is recorded, and the idea never is |
| `IntakeHistory.RecordsAreWriteOnce` | internal/intake/store.go:110-122 | Whatever the seams answer, a record once written is never changed or dropped, and a finished run never changes at all |
| `IntakeHistory.StrongAuthNeverPasses` | internal/intake/stages.go:212-241 | Whatever the seams answer, once the recorded admission demands strong authentication no later call gains an approval, a mission or an end |
| `IntakeHistory.IdeaRecordIsNeverMissed` | internal/intake/pipeline.go:262-271 | A run whose idea record was lost goes through any calls, whatever the seams answer, exactly as one that has it, and never gains it |
| `IntakeStore.MemStore.CreateRun` | internal/intake/store.go:51-61 | Adds the run with an empty record map exactly when its identifier is free |
| `IntakeStore.MemStore.GetRun` | internal/intake/store.go:64-72 | Returns the stored run or that there is none |
| `IntakeStore.MemStore.UpdateRun` | internal/intake/store.go:98-106 | Replaces a known run and no other |
| `IntakeStore.MemStore.RecordStage` | internal/intake/store.go:110-122 | Adds the first record of a stage to a known run; a second is dropped without an error |
| `IntakeStore.MemStore.GetStage` | internal/intake/store.go:125-134 | Distinguishes an unknown run, a stage without a record and a recorded stage |
| `IntakePipeline.Pipeline.StageValidate` | internal/intake/stages.go:106-152 | Leaves in the store, and returns, what the validation stage specifies for its fault; only this run changes |
| `IntakePipeline.Pipeline.StageApprove` | internal/intake/stages.go:212-241 | Leaves in the store what the approval stage specifies, a pause where strong authentication is demanded; only this run changes |
| `IntakePipeline.Pipeline.StageStart` | internal/intake/stages.go:245-275 | Leaves in the store what the start stage specifies, a pause where readiness is missing; only this run changes |
| `IntakePipeline.Pipeline.RunOneStage` | internal/intake/stages.go:48-102 | Replays a recorded stage and executes any other, as specified; the run in memory stays the stored one but for a restored mission |
| `IntakePipeline.Pipeline.ResumeRun` | internal/intake/pipeline.go:273-303 | The loop over the stages leaves in the store exactly the specified run, touches no other run, and without an error returns the stored run; an unknown run is an error that changes nothing |
| `IntakePipeline.Pipeline.StartRun` | internal/intake/pipeline.go:235-271 | Refuses an empty idea and a taken identifier, changing nothing; otherwise the stored run is what one call makes of a fresh one, or the fresh one without its idea record when that write is lost, and every other run is unchanged |
| `DeployProofs.ReceiptsAreWriteOnce` | internal/kernel/externalop.go:41-77 | Over any interleaving of calls, crashes, restarts and reconciliations, a recorded receipt is never changed or lost |
| `DeployProofs.EveryReceiptIsSound` | internal/deploy/extops.go:48-86 | Every recorded receipt is a healthy deploy or a completed rollback, with the matching result code; never a failed rollback |
| `DeployProofs.AnswersAgree` | internal/kernel/externalop.go:50-62 | All answered calls with one key get the same receipt, however they interleave |
| `DeployProofs.OnlyGatedCallsDeploy` | internal/kernel/deploy_activity.go:56-70 | In every interleaving the provider is asked to deploy only for a call whose environment is granted and whose readiness gate passed |
| `DeployProofs.DeploysStayWithinQuota` | internal/kernel/deploy_activity.go:72-99 | Where a quota is enforced with a positive admission limit, over any interleaving the provider is asked to deploy for a profile at most its limit between worker restarts, and at most that many times the number of worker lives in all |
| `DeployQuota.QuotaBoundIsAttained` | internal/deploy/quota.go:35-39 | For every positive limit, gated input and number of restarts, some run uses up every worker life: the bound over all lives is attained |
| `DeployQuota.LimitHoldsExactlyWithoutRestart` | internal/deploy/quota.go:35-39 | The limit bounds the deploys of every run with a given number of restarts exactly when that number is zero |
| `DeployProofs.LateDeploysReservedEarlier` | internal/kernel/externalop.go:50-77 | A key's receipt is recorded once, and a deployment after it can only come from a call that had reserved the key before it was recorded |
| `DeployReruns.RerunsExactlyWhenHeld` | internal/kernel/externalop.go:50-77 | For any state with the key's receipt recorded: some continuation runs its side effect again exactly when another call with the key is already admitted, or holds its reservation and can be admitted now |
| `DeployReruns.OneAtATimeNeverReruns` | internal/kernel/externalop.go:22-29 | Where no two unfinished calls share a key, no deployment ever follows the recording of its key, through crashes, restarts and other keys |
| `DeployReruns.OverlappingCallsCanRunTwice` | internal/kernel/externalop.go:22-29 | Two overlapping calls with one key that no check refuses both reserve; the first records its receipt, and the second can then run the side effect again exactly when the quota has room for two |
| `DeployActivity.Execute` | internal/deploy/extops.go:48-86 | A receipt exists exactly when the provider deployed and the result is healthy with a URL to ask or was rolled back; it is sound, carries the deploy record and says healthy exactly when it was |
| `DeployActivity.OpLedger.Reserve` | internal/ledger/extops/store.go:89-122 | Inserts a reserved row for a new key and returns an existing row unchanged |
| `DeployActivity.OpLedger.MarkExecuted` | internal/ledger/extops/store.go:150-176 | Records a receipt for a reserved operation and for no other |
| `DeployActivity.OpLedger.MarkReconciled` | internal/ledger/extops/store.go:178-203 | Marks an executed operation, and no other, reconciled; its receipt stays |
| `DeployActivity.DeployActivities.RunOperation` | internal/kernel/externalop.go:41-77 | A settled key answers with its receipt and changes nothing; otherwise ledger, quota and answer are those of the machine's call taken to its end |
| `DeployActivity.DeployActivities.DeployProduct` | internal/kernel/deploy_activity.go:51-104 | Uninterrupted, the activity does to the ledger and the quota, and answers, exactly what the machine's call taken to its end does |
| `DeployActivity.SettleIsARun` | internal/kernel/deploy_activity.go:51-104 | A call taken to its end is one of the machine's runs, so what holds of every run holds of it |
| `DeployActivity.DeployActivities.EnvironmentGranted` | internal/kernel/deploy_activity.go:106-113 | The search loop finds the environment exactly when it is granted |
| `Quota.QuotaEnforcer.CanAcquire` | internal/deploy/quota.go:73-94 | Answers whether the profile is known and the delta fits every positive limit, and changes nothing |
| `Quota.QuotaEnforcer.Acquire` | internal/deploy/quota.go:96-122 | Takes all of the delta or none of it; what is taken fits and no other profile is touched |
| `Quota.QuotaEnforcer.Release` | internal/deploy/quota.go:124-145 | Gives back, clamped at zero, whatever the profile |
| `Quota.NeverOverLimit` | internal/deploy/quota.go:96-145 | Whatever non-negative amounts are taken and given back in any order, a known profile stays non-negative and within its limits |
| `Quota.TakeThenGiveRestores` | internal/deploy/quota.go:96-145 | Giving back what was taken restores the usage exactly when it was not negative before |
| `Fallback.Validate` | internal/kernel/executor_select.go:124-136 | Chooses the name exactly when it is allowlisted and its record is supported; otherwise names the first gate it fails |
| `Fallback.Lookup` | internal/executor/capability/load.go:93-101 | Finds the first record of the provider exactly when there is one |
| `Fallback.RouteClassed` | internal/kernel/executor_select.go:208-225 | Chooses the earliest preference that is allowlisted and eligible for the profile, and refuses exactly when there is none or the class is unrouted |
| `Fallback.Select` | internal/kernel/executor_select.go:98-120 | An explicit executor decides, else the routed class, else the default, else a refusal |
| `Fallback.SelectionIsDetermined` | internal/kernel/executor_select.go:86-120 | The selection rules leave exactly one answer |
| `Fallback.SelectCandidates` | internal/kernel/executor_select.go:148-185 | Returns, in preference order, the in-policy executors the snapshot has healthy and those it has tripped, and refuses with the reason when no candidate is left |
| `Fallback.FallbackStaysInPolicy` | internal/kernel/executor_select.go:169-180 | A name is a candidate or skipped exactly when it is a preference inside the policy, and never both |
| `Fallback.SelectedIsACandidate` | internal/kernel/executor_select.go:138-147 | With everything healthy, what Select answers is among the candidates exactly when the first record of its name is supported, and so always in a registry with one record a provider, as loading demands |
| `Fallback.FirstCandidateIsSelectedIff` | internal/kernel/executor_select.go:138-147 | In a registry with one record a provider and with everything healthy, the first candidate is Select's answer exactly when the task is not routed by class or the profile admits that candidate; what is asked after it is the subject of ProfileIsRespectedIff |
| `Fallback.DeniedProfileStillFallsBack` | internal/kernel/executor_select.go:169-180 | An executor the profile denies is refused by Select and still is a candidate of the fallback |
| `Fallback.TryCandidates` | internal/kernel/activities.go:594-627 | Asks the first candidates in order, at most the budget; all but the last were provider faults; the last decides or aborts, or all faulted and the budget or the list is used up; the skip list is the tripped ones and then the faulted ones |
| `Fallback.FallingOverIsDetermined` | internal/kernel/activities.go:594-627 | What is asked and what comes of it follow from the candidates and their answers alone |
| `Fallback.ExecuteTask` | internal/kernel/activities.go:550-629 | An empty allowlist refuses without asking anyone; whoever is asked is allowlisted, supported and healthy; a refused selection asks no one and keeps the skip list |
| `Fallback.ProfileIsRespectedIff` | internal/kernel/activities.go:594-627 | Whatever the attempts meet, executing asks only executors eligible for the profile exactly when each of the first healthy in-policy preferences, as many as the attempt budget allows, is eligible for it |
| `Fallback.DeniedExecutorDecides` | internal/kernel/activities.go:594-627 | An executor the profile denies decides the task when Select's own answer, the first preference, merely faults |
| `Soak.LearningNeverTouchesDelivery` | internal/evolve/capacity.go:71-142 | For every pair of configurations with the same workers, arrivals and duration, whatever their learning settings, the queue, delivery slots, starts and completions are identical after every number of ticks |
| `Soak.SoakReportsSameDelivery` | internal/evolve/capacity.go:66-71 | The reported p95 and completions are the same with learning on or off |
| `Soak.WorkIsAccountedFor` | internal/evolve/capacity.go:82-112 | For every configuration at every tick, deliveries start first-in first-out and arrivals equal completed plus in flight plus queued plus those whose finish tick is zero |
| `Soak.ConservedExactly` | internal/evolve/capacity.go:82-112 | Arrivals equal completed plus in flight plus queued exactly when no start of the run lies at the tick that makes its finish tick zero; ConservedIff decides this from the configuration |
| `SoakLosses.ConservedIff` | internal/evolve/capacity.go:82-112 | For every configuration and number of ticks, arrivals equal completed plus in flight plus queued exactly when the duration is positive, tick minus-duration is not reached, or no delivery - by the arrivals and workers up to then - is waiting to start at it |
| `SoakLosses.ConservedWhateverArrivesIff` | internal/evolve/capacity.go:82-112 | With workers at all, work is conserved whatever arrives exactly when the duration is positive or the simulation ends before tick minus-duration |
| `Soak.PositiveDurationConserves` | internal/evolve/capacity.go:82-112 | With a positive duration arrivals equal completed plus in flight plus queued at every tick |
| `Soak.ZeroDurationLoses` | internal/evolve/capacity.go:102-112 | With a zero duration and an arrival at the first tick, conservation fails from the first tick on |
| `Soak.StartsAreTimed` | internal/evolve/capacity.go:102-112 | Every start lies in simulated time and no earlier than the arrival it serves |
| `Soak.DeliveriesTakeTheirDuration` | internal/evolve/capacity.go:86-112 | With a positive duration, after every tick the busy workers hold exactly the started deliveries that have not run their duration, and the completions are exactly the others |
| `Soak.DeliveryComesFirst` | internal/evolve/capacity.go:99-134 | For every configuration: after any tick but minus-duration no delivery waits or every worker is delivering; after every tick learning has been admitted at most once more, and then only when saturated, with an empty queue, an idle worker and headroom |
| `SoakLosses.WorkConservingIff` | internal/evolve/capacity.go:99-112 | For every configuration and tick, no delivery waits beside an idle worker after the tick exactly when it is not tick minus-duration, there are no workers, or nothing is left over at it by the arrivals and workers up to then |
| `SoakLosses.DeliveryWaitsBesideIdle` | internal/evolve/capacity.go:102-112 | For every zero or negative duration and any workers, one delivery more than workers arriving at tick minus-duration waits while every worker is idle |
| `Soak.P95IsPercentile` | internal/evolve/capacity.go:144-156 | The reported value is one of the waits; more than 95 percent of the waits are at most it and at most 95 percent are below it |
| `Soak.FreeWorkers` | internal/evolve/capacity.go:86-92 | In place: frees exactly the workers whose delivery finished and counts them |
| `Soak.AssignWorkers` | internal/evolve/capacity.go:102-112 | In place: hands the queue to free workers in order and records each wait |
| `Soak.AdmitLearning` | internal/evolve/capacity.go:126-132 | In place: one learning task on the first idle worker, none if there is none |
| `Soak.RunSoak` | internal/evolve/capacity.go:71-142 | The loops over the worker array report exactly what the tick function computes, for every configuration |
| `Audit.VerifyRows` | internal/audit/verify.go:45-63 | Accepts exactly the chains in which every row hashes correctly and links to its predecessor; otherwise names the first faulty row, by its link if that is broken, else by its hash |
| `Audit.LastHashPinsTheChain` | internal/audit/verify.go:45-63 | Two accepted chains ending in the same hash contain a hash collision, or agree on links, payloads and hashes over the whole shorter one exactly when the links their overlap starts with have the same length |
| `Audit.FirstLinkIsNotDelimited` | internal/audit/verify.go:53-56 | Without equal-length first links two different one-row chains share their hash: link and payload are hashed without a delimiter |
| `Audit.SequenceNumbersAreNotPinned` | internal/audit/verify.go:45-63 | Renumbering rows never changes whether a chain is accepted |
| `Audit.AnchorDigest` | internal/audit/anchor.go:16-22 | Feeding the hasher row by row hashes the concatenated row hashes |
| `Audit.BuildAnchors` | internal/audit/anchor.go:24-38 | One anchor a chunk of the partition, in order, with its first and last sequence number and digest; a non-positive stride is 10000 |
| `Audit.ChunksPartition` | internal/audit/anchor.go:24-38 | The chunks put together are the rows; none is empty, all but the last are full |
| `Audit.AnchorPinsItsRows` | internal/audit/anchor.go:16-22 | Two accepted chunks with the same anchor digest collide in the anchor, or hold equally many rows and then collide in a row or agree on every link, payload and hash exactly when their first links have the same length |
| `Audit.AnchorsPinTheChain` | internal/audit/anchor.go:24-38 | Two accepted chains anchored with one stride to the same digests collide in a chunk, or hold equally many rows and then collide in a row or agree on every link, payload and hash exactly when their very first links have the same length |

## Left out

- File-level defences of `internal/evolve`: symbolic and hard link checks, inode checks, fsync and temporary names. A
  store is a map or a sequence whose writes are atomic steps, so torn writes are not modelled.
- SQL and transactions of the Postgres stores: an advisory lock, a unique key and a compare-and-write are kept as the
  guarantee they give, an error of the database as a failed step.
- JSON, YAML and SHA-256 themselves; the combined digest of `FreezeContracts` takes an arbitrary hash.
- Catalog validation and loading, and the `ConfigSource` path of the bridge: loading succeeds and returns the pins.
- Name, digest and reason patterns of log rows, the size limit of an audit reason, and the mirror file of the log.
- RecordLog.RecordStore.Append: checks versions, state, source and digest presence of a row, not the patterns of its
  names, digests, reason and time.
- Budget.BudgetStore.ReserveOne: does not model the refusal of a zero or non-UTC time and of a key that is no digest.
- ActivationTheorems.RegistryAgreesWithStore: speaks of registries changed through the bridge and `Register`; a caller
  that promotes on the registry directly is outside the model.
- Progress after an aborted version: a different proposal at the same number collides with the immutable object, so
  nothing is claimed about it beyond the admissible cases of `ActivationWitness.PromotionCompletes` and
  `ActivationRollback.RollbackCompletes`.
- VersionStore.VersionDirectory.EnsureVersionObjects: its success is tied to a non-empty prompt and the absence of a
  collision, not to file-system errors, which the step machine covers as failed steps.
- Intake provenance, blockers, next actions, policy digests and timestamps of a run; `ListRuns`; the minting of
  identifiers, which is a parameter of `IntakePipeline.Pipeline.StartRun`.
- Quotas of workflows, runners and missions are modelled, their callers are not; loading quota files is left out.
- The `failed` state of an external operation, which no code path writes.
- Health breaker updates after a provider fault; the fallback takes one snapshot, as the code does.
- The order in which `Eligible` lists records, because routing only asks whether a name is among them.
- `cmd/`, `internal/api`, authentication, billing, benchmarks, sandbox processes, heartbeats, metrics and tracing:
  transport, rendering and wrappers that would add only easy members.
