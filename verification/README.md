# Verified model of Codex Profile Guardian

This project models the parts of Codex Profile Guardian whose guarantees span many
steps, and proves those guarantees with Dafny: the circuit breaker of its gateway, the
transaction that publishes a failover group to that gateway, the analysis and rewriting of
rollout history, the forced close of the desktop application, and the undo of the remote
history reconcile. `dafny verify dfyconfig.toml` checks everything.

Each stateful component appears twice. A pure specification gives every operation as one
step on a value; the invariants, run theorems and round trips are proved about it. A class
or a method with loops performs the operation the way the source does (mutation, rollback,
one write at a time) and is proved equal to the specification. What an operation does is
stated a third time, independently: the outcome theorems say on the fields and inputs alone,
without naming the functions of the specification, when each operation is accepted, refused
or opens a route, and what everything looks like afterwards.

| files | component |
|---|---|
| `breaker_route`, `breaker_keys`, `breaker_spec` | one route version; keys and their order; the registry and its operations as steps |
| `breaker_invariant`, `breaker_restore`, `breaker_theorems`, `breaker_runs` | the invariant, export and restore, admission and durability, the run of a process |
| `breaker_evolution`, `breaker_store`, `breaker_life`, `breaker_backoff`, `breaker_story` | what a step does to one route and to the store; recovery and backoff over the life of an installation, with restarts; two such lives in full |
| `breaker_outcomes`, `breaker_configuration` | what observations, admissions, configurations, pins and restores leave of every version, on the fields |
| `breaker_registry` | `CircuitBreakerRegistry`: mutation, saving and rollback |
| `gateway_host`, `gateway_host_outcomes`, `gateway_host_runs` | prepare, activate, abort, reload, crash and restart of the gateway process; when each is accepted |
| `failover_store`, `publish`, `publish_outcomes`, `publish_restarts` | the shared document and its edits; controller and service; how publishes end, when they succeed and what is served then, also when the gateway restarts meanwhile |
| `lineage` | cycles among rollouts, and what a ready history means |
| `scan`, `rollouts` | the backward turn scan; header rewriting and its undo; copies of a thread |
| `processes` | ownership of processes, termination, the forced close |
| `reconcile` | which copy of a thread is kept, the moves, the patches and the way back |

What the outside world decides is an input: the answers of stores and file systems, clocks,
random fractions, lease availability, the fate of each control request, snapshots of the
process table, torn writes. Every theorem holds for all of them. Times and ratios are
reals, SHA-256 is injective, and JSON is a pair of functions of which only the law in
`RolloutRewrite.Lawful` is used: an encoded header is one line and decodes again with white
space after it (section 2 of RFC 8259). `RolloutRewrite.HeaderCodecIsLawful` gives a codec of
session headers that keeps it.

Three statements that one would expect turn out to be false of the code. Each has a concrete
counterexample and the exact condition:

- The saved breaker document can differ from memory without the uncertain latch: a repeated
  `restore_from_store` saves outside `_persist_locked`, so a save that commits and then
  reports an uncertain outcome is not latched (`BreakerRuns.UnlatchedCommitHappens`, a run of
  seven operations, and `BreakerTheorems.StepSynced`).
- A publish can end outside its four documented states when the uncertain marker itself
  cannot be written (`Publish.UnmarkedHappens`, `Publish.EndingsIffMarkedOrUntouched`).
- A protected rollout can grow although the preflight passed: the preflight compares the
  rendering of the provider, the rewrite its raw value (`RolloutRewrite.OverlookedHappens`,
  `RolloutRewrite.PreflightProtects`). Targets made from profiles are "openai" or start with
  "guardian_"; a target that a number renders as comes from the configuration file, through
  `repair_visibility` (backend/guardian.py:4800-4809).

A fourth holds of the program only because of the order in which it starts: the successes that
close a route are counted across restarts as long as a process attaches the store it finds before
it applies observations, as gateway/runtime.py:46-50 does. `BreakerLife.RecoveryIsEarned` proves it
for all such lives, `BreakerStory.HastyHappens` tells a life in which it fails without that order.

The backward scan drops a line that is longer than the limit, with an uncertain answer at most
when it is the first line of the file; what it promises is therefore stated for the lines
within the limit (`TurnScan.ScanFile`).

## Model

| member | source | states |
|---|---|---|
| BreakerRoute.FreshRuntime | gateway/breaker.py:347-358 | a new route satisfies what every filed route satisfies, with the given policy and switch |
| BreakerRoute.Reconfigured | gateway/breaker.py:366-399 | a higher revision keeps the route well formed, raises the epoch, frees the lease, and starts from nothing when the fingerprint changed |
| BreakerRoute.SuccessKeepsRouteOk | gateway/breaker.py:580-647 | after any applied success the link between state, `enabled`, `action_required` and cooldown holds, and epoch and lease change exactly with the state |
| BreakerRoute.FailureKeepsRouteOk | gateway/breaker.py:977-1077 | the same after any applied failure |
| BreakerRoute.CancelKeepsRouteOk | gateway/breaker.py:721-740 | the same after a cancelled probe |
| BreakerRoute.BackoffMonotone | gateway/breaker.py:1088-1107 | the backoff floor lies between base and maximum and never falls as opens accumulate |
| BreakerRoute.BackoffSaturates | gateway/breaker.py:1088-1107 | from the 63rd open on the floor is constant |
| BreakerRoute.CooldownBounds | gateway/breaker.py:1088-1107 | jitter and retry-after keep the cooldown between floor and maximum and at least the smaller of retry-after and maximum |
| BreakerRoute.TemporaryOpenCooldown | gateway/breaker.py:1088-1107 | every temporary open sets such a cooldown and does not lower the floor of the open before |
| BreakerInvariant.OpenHoldsNoTicket | gateway/breaker.py:1134-1144 | a version that is open or disabled holds no active ticket |
| BreakerInvariant.ConfigureRouteKeepsInv | gateway/breaker.py:318-410 | configuring a route keeps the invariant for every answer of the store |
| BreakerInvariant.ConfigureRoutesKeepsInv | gateway/breaker.py:271-316 | so does a batch with retirement of the routes it omits |
| BreakerInvariant.AcquireKeepsInv | gateway/breaker.py:412-513 | so does an admission, which issues at most one ticket, under a lease never used before |
| BreakerInvariant.ObservationKeepsInv | gateway/breaker.py:580-757 | so does every observation; an applied one consumes the very ticket it names |
| BreakerInvariant.ReleaseKeepsInv | gateway/breaker.py:788-801 | so does releasing pins, also when an underflow stops it half way |
| BreakerInvariant.RestoreKeepsInv | gateway/breaker.py:825-942 | so does restoring any document, valid or not |
| BreakerInvariant.StepKeepsInv | gateway/breaker.py:246-1437 | every public operation keeps the invariant and only drops tickets or issues them under new leases |
| BreakerRestore.RestoredRouteIsRecovered | gateway/breaker.py:843-942 | the export of a well-formed route is accepted exactly if its counters fit, and then gives that route back, up to the reopening of HALF_OPEN |
| BreakerRestore.RestoreAccepted | gateway/breaker.py:843-942 | any document is accepted if and only if its keys are distinct and each of its routes is acceptable by itself |
| BreakerRestore.RestoreEffect | gateway/breaker.py:843-942 | an accepted document, whatever it holds, carries over exactly the routes that name a current version as it is configured, and touches nothing else |
| BreakerRestore.ExportAccepted | gateway/breaker.py:1299-1336 | an export is accepted by an identically configured registry if and only if it fits the bounds of the format |
| BreakerRestore.RecoveryNeverShortens | gateway/breaker.py:889-929 | a restart reopens exactly HALF_OPEN, with a raised epoch and a cooldown that is not shortened, and a second restart changes nothing |
| BreakerRestore.ExportRestores | gateway/breaker.py:843-942 | the export of any state satisfying the invariant is accepted by an identically configured registry and reproduces every current route, leaving all else alone |
| BreakerRestore.ExportDetermines | gateway/breaker.py:1299-1336 | equal exports mean equal documents for each current route |
| BreakerRestore.OwnExportIsFixpoint | gateway/breaker.py:944-966 | restoring its own export changes what a registry exports exactly when a current route was HALF_OPEN |
| BreakerTheorems.PreviewForetellsAcquire | gateway/breaker.py:515-578 | a preview gives the answer an acquire at the same instant gives for a fresh attempt and a saving store |
| BreakerTheorems.ActionRequiredAdmitsManualOnly | gateway/breaker.py:448-486 | while action is required only manual probes are admitted, and a refusal changes nothing |
| BreakerTheorems.StepSynced | gateway/breaker.py:1288-1297 | after any step the saved document is the export of memory, if and only if the step is not the unlatched commit |
| BreakerTheorems.FailedSaveKeepsMemory | gateway/breaker.py:1374-1400 | an operation whose save fails leaves routes, current versions, tickets, pins and log as before |
| BreakerRuns.UnlatchedCommitHappens | gateway/breaker.py:944-966 | a run from an empty registry (configure, attach, acquire, fail, acquire, abandon, restore) at whose end document and memory part without the latch |
| BreakerRuns.RunInvariant | gateway/breaker.py:246-1437 | the invariant in every state of every run |
| BreakerRuns.RunSafety | gateway/breaker.py:1226-1260 | in every state of every run: no current, pinned or ticketed version is gone, tickets match epoch and lease, one guarded ticket per key and fingerprint across revisions |
| BreakerRuns.RunDurable | gateway/breaker.py:1288-1297 | in every state of every run that avoids the unlatched commit, an attached store with certain persistence holds the export of memory |
| BreakerRuns.AppliedAtMostOnce | gateway/breaker.py:1226-1260 | over every run no ticket is applied twice, whichever observations report it |
| BreakerOutcomes.FailureOutcome | gateway/breaker.py:977-1107 | a failure is ignored exactly if its ticket is not out; applied, it needs the user exactly by its kind, the protocol threshold or the probe it was, and opens the route exactly if it is a rate limit, hits a probe, completes the failure threshold or reaches the error rate in the kept window; every counter, timestamp, the cooldown, the other tickets and versions and the log are given |
| BreakerOutcomes.CooldownIsPause | gateway/breaker.py:1088-1107 | the cooldown of the n-th open in a row is base times 2^(n-1), with jitter, at least retry-after, at most the maximum |
| BreakerOutcomes.PauseDoubles | gateway/breaker.py:1095-1097 | each open doubles the pause before it, up to the maximum |
| BreakerOutcomes.FailuresAddUp | gateway/breaker.py:1030-1045 | in every run the failure counter of a version counts the applied failures of real traffic since the last success |
| BreakerOutcomes.ThresholdOpens | gateway/breaker.py:1056-1063 | in every run the failure that makes a streak without success as long as the threshold leaves the version open |
| BreakerOutcomes.SuccessOutcome | gateway/breaker.py:580-647 | a success is ignored exactly if its ticket is not out; applied, it closes the route exactly from UNKNOWN or as the last success recovery asks for, by a probe or by real traffic, and then clears `action_required` and the open count; all counters and the window are given |
| BreakerOutcomes.ReturnOutcome | gateway/breaker.py:721-757 | cancelling or abandoning returns the ticket and leaves the version as it was, except that a cancelled probe of the user asks for the user again |
| BreakerOutcomes.AdmissionOutcome | gateway/breaker.py:412-513 | for an attempt that is not out, with a saving store: refused with state, reason and retry time exactly if the route is disabled, needs the user, or is before `open_until`, or another probe of the same fingerprint is out; admitted otherwise, with the ticket and the state given |
| BreakerOutcomes.RefusedAtOnce | gateway/breaker.py:424-447 | a latched registry, an unknown or replaced version and an attempt already out are refused in this order without effect |
| BreakerConfiguration.ConfigureOutcome | gateway/breaker.py:318-410 | which registrations are refused and why; an accepted one leaves its version current, new, continued or reset by the fingerprint, and drops exactly the versions of its key that nobody needs |
| BreakerConfiguration.BatchOutcome | gateway/breaker.py:271-316 | a batch is refused whole exactly if it is empty, names a key twice or holds a refused registration; otherwise every registration takes effect as by itself, the omitted keys in scope are withdrawn, and no other key is touched |
| BreakerConfiguration.RetireOutcome | gateway/breaker.py:1416-1437 | exactly the omitted keys of the group or instance stop being current; of their versions the pinned and ticketed stay |
| BreakerConfiguration.PinOutcome | gateway/breaker.py:776-786 | no version, a version twice or one that is not filed is refused without effect; otherwise each version named has one pin more |
| BreakerConfiguration.ReleaseOutcome | gateway/breaker.py:788-801 | an underflow is refused; otherwise one pin less, and the version goes exactly if that was its last and nothing else needs it |
| BreakerConfiguration.RestoreOutcome | gateway/breaker.py:825-942 | any document is refused exactly by its shape, a repeated key, a number out of range or a state that contradicts switch or flag; otherwise each version a document route is about takes over every field of it, HALF_OPEN reopened with at least one base cooldown, and no other changes |
| BreakerEvolution.RestoreTakes | gateway/breaker.py:825-966 | a restore of any document leaves a version alone or gives it the evidence of the document route that names it |
| BreakerEvolution.RouteEvolution | gateway/breaker.py:318-966 | what any step may do to any version: configuration inherits, a restore takes over what names it, an applied observation of its own ticket changes it, everything else leaves its evidence alone |
| BreakerStore.StepStored | gateway/breaker.py:1288-1297 | after any step the document is the old one or the export of what landed, and memory is what landed or latched and unchanged |
| BreakerStore.AttachStepStored | gateway/breaker.py:944-975 | the same for attaching a store, with or without a restore, where nothing latches |
| BreakerLife.StartIsOrderly | gateway/runtime.py:32-50 | what the program does at its start, configuring and then restoring whatever the store holds, is among the lives considered |
| BreakerLife.EventKeepsLife | gateway/breaker.py:246-1437 | every operation and every restart keeps memory and document within the account, and the document from claiming a recovery memory does not know |
| BreakerLife.LifeBacked | gateway/breaker.py:588-614 | over the life of an installation, with restarts anywhere, no version is credited, in memory or in the document, with more successes than were applied or written since its last failure |
| BreakerLife.RecoveryIsEarned | gateway/breaker.py:588-636 | a half-open version closes, in memory or in the document, only after at least the recovery threshold of successes applied or written since its last failure, across cancels, revisions, policy changes, restores and restarts |
| BreakerStory.RecoverySpansRestart | gateway/runtime.py:32-50 | a life in which a route fails, succeeds once, survives a restart through the document, succeeds once more and closes |
| BreakerStory.HastyHappens | gateway/breaker.py:944-966 | the same life with a second process whose attempt fails before it restores: the route closes with one success after that failure where two are asked for |
| BreakerBackoff.BackoffNeverFalls | gateway/breaker.py:1088-1107 | while a route keeps its fingerprint and does not close, its backoff floor under any fixed policy never falls, whatever processes come and go |
| BreakerRegistry.CircuitBreakerRegistry.constructor | gateway/breaker.py:247-269 | a new registry is empty and not attached |
| BreakerRegistry.CircuitBreakerRegistry.Persist | gateway/breaker.py:1288-1297 | saving exports the current routes, and latches an uncertain outcome |
| BreakerRegistry.CircuitBreakerRegistry.Invalidate | gateway/breaker.py:1360-1372 | exactly the tickets of one version are dropped |
| BreakerRegistry.CircuitBreakerRegistry.PruneNoncurrent | gateway/breaker.py:1411-1414 | exactly the unneeded versions of one key are dropped |
| BreakerRegistry.CircuitBreakerRegistry.RestoreRuntime | gateway/breaker.py:1374-1382 | the rollback of an observation restores tickets and routes as they were at the start |
| BreakerRegistry.CircuitBreakerRegistry.RestoreConfigure | gateway/breaker.py:1384-1400 | the rollback of a configuration restores routes and current versions as they were at the start |
| BreakerRegistry.CircuitBreakerRegistry.ConfigureRoute | gateway/breaker.py:318-410 | install, save, then log and prune or roll back equals the atomic step |
| BreakerRegistry.CircuitBreakerRegistry.ConfigureRoutes | gateway/breaker.py:271-316 | the batch with a detached store, one save and a full rollback equals the atomic step |
| BreakerRegistry.CircuitBreakerRegistry.Retire | gateway/breaker.py:1416-1437 | exactly the unregistered routes of the group or instance stop being current, and only unneeded versions go |
| BreakerRegistry.CircuitBreakerRegistry.EnterHalfOpen | gateway/breaker.py:1109-1132 | transition, save and rollback equal the atomic step |
| BreakerRegistry.CircuitBreakerRegistry.Acquire | gateway/breaker.py:412-513 | admission in place equals the atomic step that `AdmissionOutcome` describes |
| BreakerRegistry.CircuitBreakerRegistry.RecordSuccess | gateway/breaker.py:580-647 | consuming the ticket, recording, saving and rolling back equals the atomic step that `SuccessOutcome` describes |
| BreakerRegistry.CircuitBreakerRegistry.RecordFailure | gateway/breaker.py:977-1077 | consuming the ticket, recording a failure of any of the four kinds, saving and rolling back equals the atomic step that `FailureOutcome` describes |
| BreakerRegistry.CircuitBreakerRegistry.RecordCancelled | gateway/breaker.py:721-740 | the same for a cancelled attempt |
| BreakerRegistry.CircuitBreakerRegistry.Abandon | gateway/breaker.py:742-757 | the same for an abandoned attempt |
| BreakerRegistry.CircuitBreakerRegistry.PinVersions | gateway/breaker.py:776-786 | pins are counted only if all versions are filed |
| BreakerRegistry.CircuitBreakerRegistry.ReleaseVersions | gateway/breaker.py:788-801 | pins are returned one by one, stopping at the first underflow |
| BreakerRegistry.CircuitBreakerRegistry.RestoreLocked | gateway/breaker.py:843-942 | the restoring loop equals the restore of the whole document |
| BreakerRegistry.CircuitBreakerRegistry.Restore | gateway/breaker.py:825-841 | restore, save and rollback equal the atomic step |
| BreakerRegistry.CircuitBreakerRegistry.AttachStore | gateway/breaker.py:968-975 | a store is attached only after a successful save |
| BreakerRegistry.CircuitBreakerRegistry.RestoreFromStore | gateway/breaker.py:944-966 | load, restore, save and attach equal the step that has the unlatched commit |
| GatewayHost.StepKeepsInv | gateway/app.py:312-598 | every control operation keeps memory, provider and hashes denoting one configuration, and the active file too unless somebody rewrote it |
| GatewayHost.StepActivates | gateway/app.py:416-561 | a control operation leaves the active configuration alone, activates exactly the prepared candidate everywhere at once under a higher revision, or takes the host down with a failed rollback |
| GatewayHost.RestartKeepsInv | gateway/app.py:824-890 | a restarted host is coherent and adopts a candidate only if its base is the active file and its revision is higher |
| GatewayHostOutcomes.PrepareOutcome | gateway/app.py:312-414 | a candidate is accepted exactly if the host runs, the file is the one it knows, the candidate differs in its group alone at a higher revision, and no other candidate is held; it is then held as given, for the present revision and file |
| GatewayHostOutcomes.ActivateOutcome | gateway/app.py:416-561 | a candidate goes live exactly if it is named by revision and hash, in time, its pending file and base are untouched and no write fails; then it runs, is on file, and none is held |
| GatewayHostOutcomes.AbortOutcome | gateway/app.py:563-598 | an abort is acknowledged exactly if there is no candidate or it is the one named; then none is left and nothing else changed |
| GatewayHostOutcomes.AbortMakesRoom | gateway/app.py:563-598 | after an acknowledged abort the next good candidate is accepted |
| GatewayHostOutcomes.ReloadOutcome | gateway/app.py:937-970 | a reload is accepted exactly for the running document in some layout with no candidate held |
| GatewayHostOutcomes.RestartOutcome | gateway/app.py:824-890 | a start adopts a candidate exactly if its envelope is whole, in time, made for this very file and succeeds the running document |
| GatewayHostRuns.CrashAfterReplace | gateway/app.py:460-540 | after a crash past the replacement the restarted host runs the new configuration whole and does not adopt it again |
| GatewayHostRuns.CrashBeforeReplace | gateway/app.py:460-540 | after a crash before it the old configuration runs, with at most the same candidate |
| GatewayHostRuns.EventAdvances | gateway/app.py:416-561 | operations, relayouts and crashes keep the invariant and never go back to an earlier configuration |
| GatewayHostRuns.HostRunInvariant | gateway/app.py:312-598 | the invariant in every state of every run with crashes |
| GatewayHostRuns.ActiveRevisionsRise | gateway/app.py:416-561 | over every run active revisions never fall and no revision is active with two configurations or hashes |
| GatewayHostRuns.ActivatedIsNeverAdopted | gateway/app.py:824-890 | once a revision was active, no later host of the run holds a candidate of that revision or below, prepared or adopted |
| GatewayProcess.GatewayProcessHost.constructor | gateway/app.py:168-275 | starting from disk gives exactly the recovered host, which satisfies the invariant |
| GatewayProcess.GatewayProcessHost.PrepareConfig | gateway/app.py:312-414 | preparing in place equals the atomic step |
| GatewayProcess.GatewayProcessHost.ActivateConfig | gateway/app.py:416-561 | activating write by write equals the atomic step, and every disk state in between has the old active file or the whole new one |
| GatewayProcess.GatewayProcessHost.AbortConfig | gateway/app.py:563-598 | aborting equals the atomic step |
| GatewayProcess.GatewayProcessHost.ReloadConfig | gateway/app.py:937-970 | reloading equals the atomic step |
| GatewayProcess.GatewayProcessHost.Expire | gateway/app.py:892-907 | a candidate is dropped exactly when it is late or its base is no longer active |
| FailoverDocument.OnlyOneSaves | backend/failover.py:726-760 | of the processes that loaded one revision at most one saves, with the same instance and a valid document under the next revision |
| FailoverDocument.SameRevisionSameDocument | backend/failover.py:726-738 | a process holding the stored revision holds the stored document |
| FailoverDocument.EditServes | backend/failover.py:1324-1420 | every edit keeps a set active group present and enabled |
| FailoverDocument.EditOutcome | backend/failover.py:1324-1399 | after a create the group is there, after an update it has the new body and switch, after a delete it is gone, and every other group is as before; why an edit is refused, and that an update without change saves nothing |
| FailoverDocument.SavedIsSound | backend/failover.py:726-760 | a save succeeds exactly for the expected revision, the same instance, the next revision and a sound document, if the write does |
| FailoverDocument.CommitOutcome | backend/failover.py:726-760 | a process that holds the stored document saves what its edit wants; one that holds an older one changes nothing |
| FailoverDocument.ActKeepsInv | backend/failover.py:726-760 | a load or commit of any process adds at most one document, made from the one then stored |
| FailoverDocument.NoUpdateIsLost | backend/failover.py:1697-1702 | over any interleaving stored revisions strictly rise, no update is lost, the instance never changes, and a set active group serves |
| FailoverDocument.FreshInstallation | backend/failover.py:708-720 | the document of a new installation satisfies the invariant |
| Publish.VerifyKeeps | backend/gateway_controller.py:390-450 | a verified status is that of the running configuration, at the described revision; asking may only expire a candidate |
| Publish.ControllerPrepareKeeps | backend/gateway_controller.py:94-136 | preparing through the controller, whatever state the gateway is in, touches only the candidate; a record means a gateway at rest and describes the configuration that was running |
| Publish.ControllerActivateOutcomes | backend/gateway_controller.py:138-178 | with or without its reply, an activation ends with the new group served, nothing changed or the host down; a receipt means it is served |
| Publish.RollbackServesPrevious | backend/gateway_controller.py:180-252 | a completed compensation serves the previous group one revision above the one taken back |
| Publish.RollbackNeverReturns | backend/gateway_controller.py:180-252 | no compensation, complete or not, brings an earlier revision back |
| Publish.AbortMeansUntouched | backend/gateway_controller.py:254-273 | an abort succeeds only if the gateway still serves what it served before |
| Publish.TransactedEndings | backend/failover.py:1401-1453 | every run of the transaction ends in one of the four documented states or with an unwritable marker; with a rival save it is never published |
| Publish.PublishEndings | backend/failover.py:1401-1453 | the same for every publish, including those refused at once (what is served is stated by `PublishServes`) |
| Publish.UnmarkedHappens | backend/failover.py:766-807 | a concrete publish that leaves gateway and document apart with no lock |
| Publish.UnmarkedIffNeeded | backend/failover.py:1424-1450 | the marker is missing if and only if it cannot be written and an abort, a compensation or its document failed |
| Publish.EndingsIffMarkedOrUntouched | backend/failover.py:1401-1453 | the four endings hold if and only if the marker can be written, is not needed, or the activation left the gateway alone |
| Publish.LockHolds | backend/failover.py:762-764 | once locked, no sequence of publishes changes anything |
| Publish.PublishesStayInStep | backend/failover.py:1401-1453 | after any sequence of publishes, whatever becomes of their requests, the gateway serves the group the document names, or the lock is set |
| PublishOutcomes.PublishServes | backend/failover.py:1762-1792 | a published group is served with its primary profile as primary, its backup profile as backup and its settings, at the next revision, in memory, provider and file; without a profile it is turned away; what each other ending leaves |
| PublishOutcomes.PublishGoesThrough | backend/failover.py:1401-1453 | on a gateway at rest a publish succeeds if and only if it is not turned away, each request is answered in time by the right process, no write fails, nobody else saves and the document is saved |
| PublishOutcomes.PublishIsTakenBack | backend/failover.py:1424-1453 | if the document cannot be saved or the reply of the activation is lost, and the compensation goes well, the publish ends compensated |
| PublishOutcomes.FailedActivationIsAborted | backend/failover.py:1424-1453 | an activation that came to nothing is aborted: the publish is rejected, nothing else is served, no candidate is left |
| PublishRestarts.RestartedEndings | backend/gateway_controller.py:180-252 | the four endings also hold when the gateway dies and restarts between the requests or inside the activation |
| PublishService.ProductionGatewayController.Prepare | backend/gateway_controller.py:94-136 | the controller's requests in order equal the specified preparation, and the record is filed under a new handle |
| PublishService.ProductionGatewayController.Activate | backend/gateway_controller.py:138-178 | the same for the activation; the record is dropped exactly when there is a receipt |
| PublishService.ProductionGatewayController.Rollback | backend/gateway_controller.py:180-252 | the same for the compensation |
| PublishService.ProductionGatewayController.Abort | backend/gateway_controller.py:254-273 | the same for the abort |
| PublishService.FailoverManagementService.PublishGroup | backend/failover.py:1401-1453 | publishing statement by statement equals the specified transaction; published, the routes are the profiles of primary and backup with the settings of the group; a missing profile is rejected; a lock is never overridden |
| LineageCycles.Walk | backend/history_lineage.py:128-135 | one walk follows edges over unfinished nodes without visiting one twice, until it leaves the map, meets a finished node or meets itself |
| LineageCycles.WalkFrom | backend/history_lineage.py:127-136 | one iteration keeps exactly one representative for each cycle among the finished nodes |
| LineageCycles.FindCycles | backend/history_lineage.py:126-136 | the whole walk yields one representative for each cycle of the map and enters no node twice |
| LineageCycles.IssueCountIsCycleCount | backend/history_lineage.py:126-136 | the number of reported cycles is the number of cycles, and none is reported exactly when there is none |
| LineageCycles.AcyclicEnds | backend/history_lineage.py:126-136 | without a cycle every chain of edges leaves the map |
| Lineage.Collect | backend/history_lineage.py:69-102 | the first loop fills the tables with exactly the rollouts by name, the edges, the protected threads and the issues of single entries |
| Lineage.Link | backend/history_lineage.py:104-124 | the second loop protects exactly the threads of named sources and reports exactly the broken links |
| Lineage.Inspect | backend/history_lineage.py:61-136 | on the raw entries: exactly the issues that hold are reported; a thread is protected exactly if it has an entry that is paginated, has a base or has a rollout name of its own, or one that such an entry names; no issue is found if and only if the history is clean |
| Lineage.IssuesHold | backend/history_lineage.py:69-124 | each kind of issue, told on the entries, is found exactly if it holds |
| Lineage.EdgesAreBases | backend/history_lineage.py:88-102 | the edges are exactly the valid bases of entries with a rollout name, the last of equal names winning |
| Lineage.ReadyChainsEnd | backend/history_lineage.py:69-136 | in a clean history every entry with a modern trait is paginated, its chain of bases is finite, each link resolves to exactly one paginated rollout, and each offset lies within it |
| Lineage.AncestorsAreProtected | backend/history_lineage.py:104-112 | clean or not, every rollout reached through valid bases from a modern entry belongs to a protected thread |
| TurnScan.SplitCutsAtNewlines | backend/guardian.py:2512-2513 | the parts of a split contain no newline and join to the file |
| TurnScan.SplitAppend | backend/guardian.py:2512-2513 | splitting two halves and joining the line they share is splitting the whole |
| TurnScan.EventOfText | backend/guardian.py:2524-2534 | a line carries the event its text parses to, whatever carriage returns follow; without text it carries none |
| TurnScan.LastEventIs | backend/guardian.py:2523-2534 | the event of the line scan is the one of the last line that carries any |
| TurnScan.ScanBlock | backend/guardian.py:2505-2535 | one block keeps every complete line seen so far quiet, tracks the open or dropped line, and an event it returns is the newest so far |
| TurnScan.ScanFile | backend/guardian.py:2486-2540 | an event returned has no later event on a line within the limit; none returned means no such line carries one; uncertain means the scan stopped at the cap, at an unreadable block or at a first line that is too long, with all lines seen quiet |
| TurnScan.RecentTurnState | backend/guardian.py:2478-2540 | for every block size, on a readable file within the cap and without an overlong line the result is the last event of the line scan |
| RolloutFile.CutAt | backend/guardian.py:2765-2773 | header and body are determined by cutting after a line |
| RolloutRewrite.RewriteKeepsBody | backend/guardian.py:4317-4356 | the rewrite leaves every body byte for byte |
| RolloutRewrite.RewriteSetsProvider | backend/guardian.py:4326-4336 | the rewritten header decodes to the target provider and the rest of the old header |
| RolloutRewrite.RewriteTouches | backend/guardian.py:4317-4331 | exactly the session headers that name another provider are rewritten |
| RolloutRewrite.RewriteIsIdempotent | backend/guardian.py:4328-4330 | a rewritten file is not rewritten again |
| RolloutRewrite.OffsetsKeptIffFits | backend/guardian.py:4332-4350 | length and offsets are kept if and only if the new header fits into the old line |
| RolloutRewrite.TornWriteKeepsBody | backend/guardian.py:4335-4341 | a write torn at any byte of the header leaves the body alone |
| RolloutRewrite.PreflightProtects | backend/guardian.py:3495-3509 | a rollout that passed the preflight keeps its length if and only if it is not an overlooked non-string provider |
| RolloutRewrite.PreflightIsExact | backend/guardian.py:3495-3509 | the preflight refuses a rollout exactly if rewriting it would make it longer, but for the overlooked ones |
| RolloutRewrite.HeaderCodecIsLawful | backend/guardian.py:4326-4336 | a codec of session headers with string and number providers satisfies the law the rewrite relies on |
| RolloutRewrite.NumberOutgrows | backend/guardian.py:3497-3505 | every header whose provider is a number passes the preflight for the target it renders as, and grows |
| RolloutRewrite.OverlookedHappens | backend/guardian.py:3497-3498 | the session header of a paginated rollout with provider 5, inventoried and past the preflight, grows |
| RolloutRewrite.RolloutFolder.RequireLineage | backend/guardian.py:3488-3510 | the preflight accepts exactly a ready lineage whose protected rollouts all pass |
| RolloutRewrite.RolloutFolder.RewriteOne | backend/guardian.py:4317-4355 | one file becomes its rewritten form, in place or by replacement, and no other changes |
| RolloutRewrite.RolloutFolder.RewriteRollouts | backend/guardian.py:4305-4356 | refused without touching a file, or every inventoried rollout is rewritten, no other file is, and the count is that of the changed files |
| RolloutRewrite.RunOutcome | backend/guardian.py:4305-4356 | in a run that is not refused every inventoried rollout has the target provider and its old body, and a protected one its length unless overlooked |
| RolloutRewrite.RunExtent | backend/guardian.py:4305-4356 | a run is refused exactly if a protected rollout would grow without being overlooked; it leaves files without an entry alone, and counts the files that changed |
| RolloutRewrite.SecondRun | backend/guardian.py:4305-4356 | a second run changes no file |
| RolloutRewrite.RolloutFolder.Snapshot | backend/guardian.py:2735-2763 | the snapshot lists the first lines in order |
| RolloutRewrite.RolloutFolder.RestoreFirstLines | backend/guardian.py:2775-2799 | restoring puts the listed first lines before the present bodies |
| RolloutRewrite.SnapshotRestores | backend/guardian.py:2775-2799 | with the bodies in place the snapshot brings back every file it covers and no other |
| RolloutRewrite.RewriteIsUndone | backend/guardian.py:3246-3246 | wherever a rewrite stopped, also inside a header write, restoring the first lines brings back every file |
| RolloutCopies.BodyIsPrefix | backend/guardian.py:3324-3333 | the block-wise comparison answers whether one body begins the other, for every block size |
| RolloutCopies.LongestDecides | backend/guardian.py:3394-3400 | comparing with a longest copy alone shows whether any two copies continue one another |
| RolloutCopies.Judge | backend/guardian.py:3389-3404 | copies are identical exactly if all bodies are equal, divergent exactly if two bodies do not continue one another |
| ProcessOwnership.AboveIsOnTrail | backend/codex_lifecycle.py:139-151 | once the walk stops every consistent ancestor is on its trail, cyclic parent maps included |
| ProcessOwnership.IsDesktopOwned | backend/codex_lifecycle.py:135-151 | the walk answers whether an eligible, start-time-consistent chain leads to a desktop process |
| ProcessOwnership.IsRelated | backend/codex_lifecycle.py:109-124 | the walk answers whether a runtime server has a consistent live desktop ancestor |
| ProcessOwnership.DesktopOwnedProcesses | backend/codex_lifecycle.py:128-152 | exactly the owned processes are returned |
| ProcessOwnership.RelatedProcesses | backend/codex_lifecycle.py:105-125 | exactly the related processes are returned |
| ProcessTermination.ProcessTerminator.Pin | backend/codex_lifecycle.py:250-267 | handles are given exactly when every process is eligible and pinned to its own instance or gone |
| ProcessTermination.ProcessTerminator.Terminate | backend/codex_lifecycle.py:248-286 | done exactly if the whole batch is eligible and pinned, the guard then holds and none reached cannot be ended; then exactly the live ones that had not exited are ended, desktop processes first; otherwise which error |
| ProcessTermination.ProcessTerminator.EndAll | backend/codex_lifecycle.py:272-283 | the processes are ended in order up to the first that cannot be |
| ForcedClose.LookAt | backend/codex_lifecycle.py:326-351 | one snapshot settles the close exactly if it failed, the tree grew after a kill, nothing is left or a desktop process is new, in this order; otherwise it yields what is known and still running |
| ForcedClose.FirstLook | backend/codex_lifecycle.py:326-362 | the first turn ends a batch exactly if something is left, a guard is given and all of it is owned and eligible; otherwise its verdict |
| ForcedClose.EndBatch | backend/codex_lifecycle.py:363-368 | what the terminator makes of a batch, and which instances are ended |
| ForcedClose.WaitForExit | backend/codex_lifecycle.py:326-355 | after the batch, the first snapshot that calls for a verdict gives it |
| ForcedClose.ForceClose | backend/codex_lifecycle.py:289-369 | against any snapshots: whether a batch is ended and that it is everything known, owned and eligible; of a batch that goes through, every live process not yet gone is ended; the exact condition of each verdict; a success means the last snapshot holds nothing related, known or spawned by what is known |
| ReconcilePlan.BodyPrefix | backend/remote_sync.py:811-823 | the block-wise comparison answers whether one body begins the other |
| ReconcilePlan.SupersetIffChain | backend/remote_sync.py:942-944 | a superset exists if and only if any two bodies continue one another |
| ReconcilePlan.UnderMeans | backend/remote_sync.py:952-961 | a path lies under a root exactly if it is the root or continues it after a slash |
| ReconcilePlan.NameMeans | backend/remote_sync.py:952-961 | the name of a path is what follows its last slash |
| ReconcilePlan.Choose | backend/remote_sync.py:941-949 | refused exactly for diverging copies; otherwise the chosen copy continues all others, is the recorded one if that does, and else lies on the side the database says if any does, the foremost by size and path |
| ReconcilePlan.Destination | backend/remote_sync.py:952-961 | the destination lies on the side the database says: the present path, the recorded one, or a new one, in this order |
| ReconcilePlan.PlanThread | backend/remote_sync.py:937-962 | the plan of a thread: the preferred copy, its destination in each of the three cases and the copies set aside, or a refusal exactly for diverging copies |
| Reconcile.MovesAreUndone | backend/remote_sync.py:1078-1081 | replayed in reverse the move log restores the file map, also where a vacated path was taken again |
| Reconcile.ReplayRelocates | backend/remote_sync.py:966-984 | if no file moves twice, each moved file is at its new path with its bytes, all others are where they were, and there are no more |
| Reconcile.ReconcileRun.Relocate | backend/remote_sync.py:970-982 | a move succeeds exactly from a file to a free path without a fault, and is logged exactly if it was made |
| Reconcile.QuarantineMeans | backend/remote_sync.py:966-972 | a file below the home directory goes to the same place below the quarantine of this run; no other has one |
| Reconcile.ReconcileRun.MoveLosers | backend/remote_sync.py:966-974 | the losers are moved exactly if all have a quarantine path, no fault occurs and every move finds its file and a free path |
| Reconcile.ReconcileRun.MoveAll | backend/remote_sync.py:966-984 | all moves are made exactly if no fault is met, every loser has a quarantine path and the moves can be replayed; whatever fails, the file map is the start with the logged moves replayed |
| Reconcile.ReconcileRun.PatchProvider | backend/remote_sync.py:852-883 | patched exactly if the file is there with a session header and no fault matters; whatever fails or tears, undoing the log still gives what it gave before |
| Reconcile.ReconcileRun.PatchAll | backend/remote_sync.py:989-1000 | the same for all final paths, told on the files before the first patch |
| Reconcile.ReconcileRun.Undo | backend/remote_sync.py:1075-1081 | the handler undoes patches and then moves, each from the last to the first |
| Reconcile.ReconcileRun.Reconcile | backend/remote_sync.py:964-1081 | the run succeeds if and only if no fault is met, every loser has a quarantine path, the moves can be replayed, every final path has a session header and the closing steps go through; then all moves are made and the provider is set everywhere; otherwise the file map is as it was found |
| Reconcile.SuccessConserves | backend/remote_sync.py:966-1000 | a successful run keeps every body, and adds and loses no file |
| Reconcile.ApartMovesOnce | backend/remote_sync.py:937-962 | plans over separate files move no file twice and leave a kept copy in place alone |
| Reconcile.PlanIsCarriedOut | backend/remote_sync.py:964-1000 | after a success each kept copy is at its destination and each other copy in quarantine, with their bodies |

## Left out

- Validation of identifiers, category names, policies from JSON and timestamps (gateway/breaker.py:1483-1630, backend/failover.py:231-568): settled by reading one branch each.
- Event ids, timestamps and the batching of transition events: the log holds version, epoch, states and reason, and the events of one restore are in document order.
- Attaching a second, different store to a registry: one store is modelled.
- Registry runtimes are values filed in a map; aliasing between an old runtime object and its clone is not modelled.
- BreakerRuns.RunInvariant: a version that would be installed is not filed already, because `configure_route` with no current version does not look for a retained one and revisions of activated configurations strictly rise (gateway/config.py:274-282).
- BreakerLife.RecoveryIsEarned: a process that finds a document applies no observation and replaces no version before it attaches the store, because what it did before would not be in the document and the restore would bring back successes older than its failures; the program restores straight after configuring (gateway/runtime.py:46-50). Documents given to `restore` directly are the registry's own export.
- BreakerBackoff.BackoffNeverFalls: a new process takes over the route as the document shows it, because the source skips a document route of another revision and starts that route afresh.
- BreakerRuns.AppliedAtMostOnce: speaks of one process, because lease numbers start again in the next; tickets do not outlive their process.
- BreakerOutcomes.FailuresAddUp: the streak contains no restore, because a restore takes the counter from its document (`BreakerConfiguration.RestoreOutcome`).
- BreakerOutcomes.AdmissionOutcome: speaks of a store that saves, a lease that can be made and counters with room, because what a failing save leaves is stated by `BreakerTheorems.FailedSaveKeepsMemory`.
- BreakerConfiguration.ReleaseOutcome: speaks of one version, because a longer release is one release after another.
- Counters in memory are unbounded where the source raises only at 2^63 - 1; epochs and lease numbers have the limit.
- Credentials of the gateway: their files and lookups appear only as checks that pass or fail.
- Publish.EndingsIffMarkedOrUntouched: says nothing of a publish during which another process saves, because that save may coincide with the one wanted.
- Draining of the gateway, and restarts of the managing process in the middle of a publish.
- Database references, archive flags and compressed files in `inspect_lineage` (backend/history_lineage.py:138-154): one test each.
- A turn event whose type is a list or an object makes the set lookup of the source raise; the parse function of the scan gives no event there.
- A header with a lone surrogate cannot be encoded in UTF-8 and raises; the codec law covers headers that can be encoded.
- File times, the order in which files are rewritten, leftover temporary files, and an error raised by the undo itself.
- The database half of the reconcile and its undo, and the comparisons of body hashes after a patch, which by `RolloutRewrite.RewriteKeepsBody` find nothing on an intact file system.
- `close_codex_gracefully` and window messages: its forced branch repeats the forced close.
- ForcedClose.ForceClose: the clock is an oracle, so that the loop ends is not claimed; a run may stop for lack of further snapshots.
- HTTP, SSH, Win32, DPAPI, SQLite, TOML and ZIP; quota, OAuth, desktop profiles, updater, diagnostics and the user interface.
