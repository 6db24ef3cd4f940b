# Verified models of toby's state machines

This project models six parts of toby, a launcher for sandboxed tools, and proves
what they promise. `dafny verify dfyconfig.toml` checks all of it.

* **Resource registry** (`Backoff`, `Resource*`): shared processes keyed by a
  canonical key. Every mutex-held block is one step; goroutines and timer callbacks
  are pending work that may run at any later moment with the generation and deadline
  it captured. One inductive invariant carries every theorem over runs. The methods
  of the class `Registry` perform these steps in place; its history, kept for the
  proofs, is always a run of the machine.
* **Models gateway** (`Gateway*`): the route store with revisions and tombstones, the
  reconcile loop as a program-counter machine, the relay's published generation, and
  runs that add, activate, revoke and wait. A Caddy load succeeds, is rejected or
  fails, and a failed load may still have taken effect.
* **Image store** (`Oci*`): any number of processes that prepare and remove images.
  Every lock attempt, every reference read, every write and every deletion is a step,
  and a process may die after any of them. Deleting an object takes two steps, since
  the deletion of a tree is not atomic.
* **Configuration patches** (`Patch*`): pointers of RFC 6901, operations of RFC 6902,
  and the compiler from Ensure and Remove intents to operations.
* **Tool ordering** (`Tool*`): the topological sort and the dependency closure.
* **Seed copies and approvals** (`Seed*`, `Approval*`): hard-link and byte accounting
  of the seed copier, and approval records with one-shot grants.

Each part has a pure specification, theorems about it over all inputs or all runs,
and, where the program updates state in place or loops, methods proved equal to the
specification.

## What turned out not to hold

* At the last revision (2^64 - 1) a revoke hands out that revision again, so a
  removal wait can succeed while the route is still served: at once, or after a
  snapshot that was already taken is loaded and applied.
  `GatewayExhaustion.DishonestIffLastSnapshotOut` gives the exact condition.
* Counting references before an object is removed skips references that cannot be
  read or decoded (`internal/oci/removal_linux.go:452-461`). With every file readable
  no reference ever dangles; `OciMissed.MissDanglesIffHarmful` says exactly which
  miss can make one dangle. Leases are safe regardless.
* A removal that dies inside an object's tree leaves a remnant that a later prepare
  may accept as the object; `OciDamage.RemnantIffInterrupted` says exactly when an
  object in use is one.
* A removal with force selects references at one catalog read and objects at the
  next; a reference published in between is not among the selected ones
  (`OciSelection.CandidateKeepsNoReferenceIff`).
* A seed inode with more names than its link count is split into several files
  (`SeedTheorems.ExactIffWithinLinks`).
* Ensuring an array at a pointer that is missing or not an array is not idempotent
  (`PatchTheorems.SecondEnsureIsSilentIff`).

## Model

| member | source | states |
|---|---|---|
| `ResourceTheorems.OneProcessPerKey` | internal/agent/resource/startup.go:15-143 | In every run each key has at most one started, unreaped process, and it belongs to the generation of the key's entry |
| `ResourceTheorems.GenerationNeverReturns` | internal/agent/resource/registry.go:113-120 | Once a key has moved past a generation it never has that generation again, across restarts, deletion and re-creation of its entry |
| `ResourceTheorems.StaleWorkChangesNothing` | internal/agent/resource/stop.go:66-123 | Timer callbacks, exit reports, stop reports and start failures captured for a generation the key has moved past leave the key's cell exactly as it is, at every later point of the run |
| `ResourceTheorems.GenerationsDistinct` | internal/agent/resource/registry.go:113-120 | No two keys ever have entries of the same generation |
| `ResourceTheorems.BindingHolds` | internal/agent/resource/lease.go:71-118 | An active lease or open connector implies a ready entry of the same generation; a serving entry is idle exactly when it has no leases and no connectors; failed entries have neither |
| `ResourceTheorems.IdleExpirySparesUsers` | internal/agent/resource/idle.go:32-47 | If idle expiry changes anything, no lease of the key is other than closed and no connector is open |
| `ResourceTheorems.ChannelsUsedOnce` | internal/agent/resource/lease.go:93-118 | The ready channel of a lease receives at most one result, and done channels are closed exactly once, exactly when the lease or connector is closed |
| `ResourceTheorems.ShutdownReapsEverything` | internal/agent/resource/shutdown.go:38-86 | When the shutdown channel is closed there is no live process and no worker, and every lease and connector is closed |
| `ResourceTheorems.LiveIsCovered` | internal/agent/resource/startup.go:50-143 | Every live process is covered by an outstanding goroutine of its generation, and no generation is consumed once the registry is closing |
| `ResourceTheorems.NoEntryLeaks` | internal/agent/resource/retention.go:34-97 | Outside shutdown no entry rests cold, and every failed entry has an armed retention callback or a worker that still holds it past its deadline |
| `ResourceTheorems.RetentionDeletes` | internal/agent/resource/retention.go:58-97 | Past its deadline a failed entry is deleted by the retention callback if nothing holds it, and otherwise by the report of the worker that holds it |
| `ResourceRuns.RunInv` | internal/agent/resource/registry.go:63-120 | The inductive invariant of ownership, binding and timers holds in every state of every run |
| `ResourceRuns.TakeKeeps` | internal/agent/resource/startup.go:15-258 | Every action, at any interleaving, keeps the invariant |
| `ResourceRuns.AcquireKeeps` | internal/agent/resource/acquire.go:66-137 | An acquire keeps the invariant in every phase of the entry |
| `ResourceRuns.ReleaseKeeps` | internal/agent/resource/lease.go:71-91 | A release keeps the invariant in every phase of the entry |
| `ResourceRuns.PublishKeeps` | internal/agent/resource/startup.go:56-131 | The start worker's publication keeps the invariant, whether wanted, late or unwanted |
| `ResourceRuns.ReportKeeps` | internal/agent/resource/startup.go:197-258 | The report of a failed start keeps the invariant |
| `ResourceRuns.ExitKeeps` | internal/agent/resource/failure.go:10-56 | The exit watcher's report keeps the invariant, current or stale |
| `ResourceRuns.StopKeeps` | internal/agent/resource/stop.go:66-123 | The stop worker's report keeps the invariant, including the restart for waiting leases |
| `ResourceRuns.FireKeeps` | internal/agent/resource/idle.go:32-47 | Any timer callback, due or cancelled, keeps the invariant |
| `ResourceRuns.BeginShutdownKeeps` | internal/agent/resource/shutdown.go:38-86 | Closing the registry keeps the invariant for all entries at once |
| `ResourceInvariant.StaleCallback` | internal/agent/resource/startup.go:145-159 | A callback whose generation is not current changes nothing |
| `ResourceInvariant.StartKeeps` | internal/agent/resource/startup.go:15-54 | Starting a generation on a startable cell establishes the invariant |
| `ResourceRegistry.Registry.constructor` | internal/agent/resource/registry.go:63-83 | A new registry is the initial state, with an empty history |
| `ResourceRegistry.Registry.InvalidateLeasesLocked` | internal/agent/resource/lease.go:113-118 | The loop closes every lease of the entry and no other |
| `ResourceRegistry.Registry.InvalidateConnectorsLocked` | internal/agent/resource/connector.go:90-95 | The loop closes every connector of the entry and no other |
| `ResourceRegistry.Registry.FailLocked` | internal/agent/resource/failure.go:58-97 | Counts the failure, sets the retry deadline by the clamped backoff and arms retention |
| `ResourceRegistry.Registry.StartGeneration` | internal/agent/resource/startup.go:15-54 | Consumes one generation number and rebinds the waiting leases to it |
| `ResourceRegistry.Registry.TimeoutStartLocked` | internal/agent/resource/startup.go:161-165 | A start past its deadline fails its entry with the computed backoff delay and closes its leases |
| `ResourceRegistry.Registry.AcquireLease` | internal/agent/resource/acquire.go:66-137 | Performs the machine's acquire step, and says on the fields of the entry which answer is given: during the shutdown, for another idle timeout, for an occupied entry, within the backoff with the retry deadline, and without a generation number left; in every other case the lease belongs to a new generation with its start deadline, waits for the starting or the next one, or is active at once, and no answer but the last changes anything |
| `ResourceRegistry.Registry.Log` | internal/agent/resource/registry.go:85-120 | Every method records its step: the history of the object is at all times a run of the machine that ends in its present state |
| `ResourceRegistry.Registry.Promises` | internal/agent/resource/registry.go:85-120 | So the theorems over runs hold of the object, whatever was called on it |
| `ResourceRegistry.Registry.Spawn` | internal/agent/resource/startup.go:56-80 | The factory starts a process: it is the key's only one |
| `ResourceRegistry.Registry.FactoryReturns` | internal/agent/resource/startup.go:56-120 | The factory's return decides between publication and cleanup |
| `ResourceRegistry.Registry.ProcessExits` | internal/agent/resource/failure.go:10-15 | An exit leaves the key without a process |
| `ResourceRegistry.Registry.DetachedReaped` | internal/agent/resource/stop.go:125-138 | The worker of an unwanted process leaves, which happens during shutdown only |
| `ResourceRegistry.UseOnce` | internal/agent/resource/acquire.go:23-64 | A client on a new registry: the first lease starts a process, becomes active, carries a connector, and leaves the process running and idle |
| `ResourceRegistry.Registry.ReleaseLease` | internal/agent/resource/lease.go:71-91 | Performs the release step; this lease is closed exactly once and off its entry, every other lease is untouched; the last user of a ready generation leaves it idle for its idle timeout, the last waiter of a start gives the start up |
| `ResourceRegistry.Registry.Connect` | internal/agent/resource/connector.go:17-45 | Performs the machine's step; an active lease is enough: outside shutdown the connector opens on the lease's generation, which is the entry's |
| `ResourceRegistry.Registry.Disconnect` | internal/agent/resource/connector.go:60-88 | Performs the machine's step; the connector is closed exactly once and no lease changes |
| `ResourceRegistry.Registry.OfferInstance` | internal/agent/resource/startup.go:56-131 | The start worker's publication performs the machine's step; in time the generation serves and every waiter has been sent its result, from its start deadline on it has failed and every waiter was told |
| `ResourceRegistry.Registry.ReportFailedStart` | internal/agent/resource/startup.go:133-258 | The report of a failed start performs the machine's step; every lease of the key is closed afterwards and was told the failure, and during the shutdown a reaped start leaves nothing or a cold entry |
| `ResourceRegistry.Registry.ObserveExit` | internal/agent/resource/failure.go:10-56 | The exit watcher's report performs the machine's step; no lease or connector is bound to the generation afterwards, and one that served has failed with everybody told of the exit |
| `ResourceRegistry.Registry.FinishStop` | internal/agent/resource/stop.go:55-123 | The stop worker's report performs the machine's step; a process that outlived its stop fails the entry, otherwise those who wait get a new generation with a new number, or are told that none is left, and without them the entry is gone |
| `ResourceRegistry.Registry.Fire` | internal/agent/resource/idle.go:32-47 | Any timer callback, due or cancelled, performs the machine's step; one of another generation leaves the entry alone, the idle timer acts only when every lease and connector is closed, and one that arrives as scheduled stops the idle generation, fails the late start, forgives the failures or deletes the failed entry |
| `ResourceRegistry.DelayIsPlausible` | internal/agent/resource/failure.go:67-97 | Every delay the object's methods use is one the machine allows |
| `ResourceRetry.RetryWithinMaximum` | internal/agent/resource/failure.go:67-97 | At every moment of every run no entry is kept from starting for longer than the maximum backoff |
| `ResourceRetry.FailureFixesDeadline` | internal/agent/resource/failure.go:58-97 | While an entry stays failed its retry deadline does not move, and it is at most the maximum backoff past the failure |
| `ResourceTiming.NoStartDuringBackoff` | internal/agent/resource/acquire.go:82-91 | In every run, as long as the retry deadline of a failed entry lies ahead, its key keeps the failed entry and both its deadlines unless the registry begins to close, and gets no new lease and no goroutine for a new generation |
| `ResourceTiming.BackoffConsumesNothing` | internal/agent/resource/acquire.go:82-91 | Nor does any step of that key consume a generation number or change anything else the keys share |
| `ResourceDeadlines.FailureDelays` | internal/agent/resource/failure.go:58-97 | Whenever an entry fails in a run, the failure is counted on top of those it remembers and it is kept for at least half the ideal delay of that count and at most the maximum, and retained for the retention after that; only giving a start up costs nothing |
| `ResourceSteady.ForgivenessIsEarned` | internal/agent/resource/failure.go:58-65 | The failures of an entry shrink only after its generation has been ready for the whole stable period, or when its process is gone because it was told to stop |
| `ResourceDeadlines.IdleStopWaits` | internal/agent/resource/idle.go:7-47 | Outside shutdown an idle generation stops only after it has been idle, without interruption, for its whole idle timeout |
| `ResourceDeadlines.StartTimeoutWaits` | internal/agent/resource/startup.go:145-165 | A starting generation that is neither given up nor reported fails only after the whole start timeout since its number was consumed |
| `ResourceDeadlines.NobodyWaitsInVain` | internal/agent/resource/lease.go:93-118 | A waiting lease stops waiting only when its caller releases it or is sent exactly one result, an active lease or the cause of its end |
| `ResourceEffects.AcquireAnswers` | internal/agent/resource/acquire.go:66-137 | The answer to an acquire, each error with its exact condition on the entry, and what a success leaves |
| `ResourceEffects.ReapedRestarts` | internal/agent/resource/stop.go:88-123 | A reaped stop starts a new generation for those who wait, with all failures forgiven; it leaves nothing when nobody waits and a failure when no number is left |
| `ResourceEffects.CallbackActs` | internal/agent/resource/retention.go:58-97 | A callback that arrives as it was scheduled does its work |
| `ResourceRegistry.Registry.BeginShutdownLocked` | internal/agent/resource/shutdown.go:38-86 | The loop over all entries equals the machine's closing step: every user of every key was told of the shutdown and whatever served is stopping |
| `ResourceRegistry.Registry.FinishShutdownLocked` | internal/agent/resource/shutdown.go:65-84 | The final loop equals the machine's last step |
| `Backoff.BackoffBase` | internal/agent/resource/failure.go:67-77 | The doubling loop computes the initial delay times a power of two capped at the maximum, without any intermediate value above the maximum |
| `Backoff.DoubledIsPower` | internal/agent/resource/failure.go:67-77 | Repeated doubling is multiplication by a power of two |
| `Backoff.RetryDelay` | internal/agent/resource/failure.go:58-97 | Whatever the jitter answers, the delay is positive, at most the maximum and at least half the ideal delay |
| `Backoff.BaseMonotone` | internal/agent/resource/failure.go:67-77 | More failures never shorten the delay before jitter |
| `Backoff.Normalize` | internal/agent/resource/options.go:41-81 | Options are rejected exactly when negative or inverted; accepted ones are usable, keep every one of the eight durations the caller set and have the program's defaults, in nanoseconds, for the others |
| `GatewayTheorems.PublishedIsHeldAndLoaded` | internal/providergateway/reconcile.go:26-303 | At every point of the loop, in every run, the published generation is the one the loop holds and has loaded, and its last configuration is never behind the applied revision; the capability map is the exact inverse index of the routes |
| `GatewayRemoval.RemovalWaitIsHonest` | internal/providergateway/reconcile.go:423-455 | Below exhaustion a removal wait succeeds only when nothing is published or the published generation last loaded a snapshot at or above the removal revision, one without the route |
| `GatewayRemoval.TombstoneDropIsHonest` | internal/providergateway/routes.go:202-225 | Below exhaustion a route leaves the store only in a confirmation, only as a tombstone, and only when the published generation, if any, has loaded its removal |
| `GatewayTheorems.NeverAuthorizedAfterRevoke` | internal/providergateway/routes.go:130-176 | In every run, a revoke at the last revision included, a revoked route is never authorized again until it is added anew |
| `GatewayTheorems.AuthorizedOnlyAfterLoad` | internal/providergateway/gateway.go:245-272 | In every run an authorized route was added, then part of a successfully loaded configuration, then activated, in that order, and neither added nor revoked since the activation |
| `GatewayTheorems.ActivationSucceeds` | internal/providergateway/gateway.go:266-272 | In every run activate never fails for a run that waits for its own revision |
| `GatewayActivation.ActivatedIsAuthorized` | internal/providergateway/routes.go:107-128 | In every run every route of an activated acquisition is authorized from then on until a revoke names it |
| `GatewayActivation.AuthorizedIffActivated` | internal/providergateway/routes.go:241-290 | In every run a route is authorized exactly when an acquisition holding it was activated and no revoke has named it since |
| `GatewayActivation.WaitingCanServe` | internal/providergateway/reconcile.go:26-303 | From every state of every run in which the loop waits and the relay is open the run can go on until exactly the desired routes are served and the current revision is applied |
| `GatewayActivation.PendingCanBeAuthorized` | internal/providergateway/gateway.go:245-272 | So an acquisition that waits can come to have all its routes authorized, whatever the loop has been through |
| `GatewayActivation.FailureStands` | internal/providergateway/reconcile.go:354-382 | A recorded failure stands until its revision or a later one is retried, or one at least as high is applied |
| `GatewayActivation.RejectionFails` | internal/providergateway/reconcile.go:203-250 | A configuration that is rejected or cannot be rendered is a failure of its revision, applies nothing and unpublishes nothing |
| `GatewayActivation.FailedIsNotAttempted` | internal/providergateway/reconcile.go:346-352 | The loop does not attempt a revision whose failure stands |
| `GatewayActivation.FailedLoadKeepsServing` | internal/providergateway/reconcile.go:203-250 | A load that fails without being rejected keeps a generation that serves and releases one that never loaded |
| `GatewayRemoval.RevisionDeterminesRoutes` | internal/providergateway/routes.go:178-200 | Below exhaustion two snapshots with the same revision hold the same routes, and revisions never decrease |
| `GatewayRemoval.RunExact` | internal/providergateway/routes.go:130-225 | Below exhaustion no snapshot in use names a route revoked at or below its revision |
| `GatewayRemoval.ConfirmExactSnap` | internal/providergateway/routes.go:202-225 | Confirming a revision drops no route that an exact snapshot at or above it still names |
| `GatewayExhaustion.DishonestIffLastSnapshotOut` | internal/providergateway/routes.go:150-165 | At every revoke at the last revision, in every run, a removal wait can afterwards succeed while the route is still served exactly when a snapshot of the last revision was already on its way to the relay, published and being applied, or published and applied |
| `GatewayExhaustion.LastSnapshotLeads` | internal/providergateway/reconcile.go:203-286 | From every such state there is a continuation, through retry, acquisition, load, publication and confirmation, in which the wait turns dishonest |
| `GatewayExhaustion.SettledIsHonest` | internal/providergateway/reconcile.go:354-455 | From every other state no continuation whatsoever makes the wait dishonest |
| `GatewayWitness.ExhaustionBreaksRemoval` | internal/providergateway/routes.go:150-165 | A run from the initial state to a revoke at the last revision after which the wait succeeds at once while the route is served, and its tombstone never goes |
| `GatewayWitness.ExhaustionBreaksRemovalLater` | internal/providergateway/reconcile.go:226-285 | A run from the initial state to a revoke after which the last revision is not applied and nothing is published, and the wait still may turn dishonest |
| `GatewayWitness.ReachRevision` | internal/providergateway/routes.go:46-225 | Cycles of adding, revoking and confirming reach every even revision |
| `GatewayRoutes.FreshRemovalIffNotExhausted` | internal/providergateway/routes.go:130-176 | A revoke hands out a revision no snapshot has carried exactly when the revision space is not exhausted |
| `GatewayTheorems.RunInv` | internal/providergateway/reconcile.go:13-303 | The protocol invariant holds in every state of every run, whatever the revision |
| `GatewayInvariant.TakeKeeps` | internal/providergateway/reconcile.go:26-303 | Every step of the loop and of its environment, the revoke at the last revision included, keeps the protocol invariant |
| `GatewayInvariant.ConfirmKeepsSnap` | internal/providergateway/routes.go:202-225 | Confirming a revision leaves every snapshot naming the desired routes up to its revision, and the loaded ones loaded |
| `GatewayRoutes.AddKeepsIndex` | internal/providergateway/routes.go:46-105 | Adding routes keeps capabilities the exact inverse index |
| `GatewayRoutes.RevokeKeepsIndex` | internal/providergateway/routes.go:107-176 | Revoking and activating keep the index |
| `GatewayRoutes.ConfirmKeepsIndex` | internal/providergateway/routes.go:202-225 | Dropping tombstones keeps the index |
| `GatewayRoutes.DesiredNeedsRevision` | internal/providergateway/routes.go:107-225 | No operation below exhaustion changes the desired routes without changing the revision |
| `GatewayStore.RouteStore.CheckJoin` | internal/providergateway/routes.go:64-86 | The validation pass accepts exactly the valid routes whose identifiers and capabilities are new and distinct, and otherwise names the fault of the first route that cannot join |
| `GatewayStore.RouteStore.Add` | internal/providergateway/routes.go:46-105 | Adds all routes or changes nothing, with the exact conditions of the empty, oversized and exhausted cases; added routes are desired and inactive at the next revision, the others stay as they were |
| `GatewayStore.RouteStore.Activate` | internal/providergateway/routes.go:107-128 | Succeeds exactly when all listed routes are desired; then each of them is active and authorized, every other route is what it was, and a failure changes nothing |
| `GatewayStore.RouteStore.Revoke` | internal/providergateway/routes.go:130-176 | No listed route is desired or authorized afterwards; those that were desired are tombstones of the returned revision, the others keep what they had, and the revision grows by one exactly when a route was desired and one is left |
| `GatewayStore.RouteStore.Confirm` | internal/providergateway/routes.go:202-225 | Confirming a new revision that has been handed out drops exactly the tombstones at or below it and their capabilities and changes no other route; any other confirmation changes nothing |
| `GatewayStore.RouteStore.Snapshot` | internal/providergateway/routes.go:178-200 | The snapshot holds exactly the desired routes |
| `OciTheorems.ReferencesNeverDangle` | internal/oci/removal_linux.go:47-157 | With any number of preparing and removing processes, each possibly dying after any step, and every reference file readable, every published reference names an object that opens |
| `OciTheorems.HarmlessMissesNeverDangle` | internal/oci/removal_linux.go:427-464 | The same as long as no removal fails to read a reference to an object it has locked and not yet found referenced |
| `OciMissed.MissDanglesIffHarmful` | internal/oci/removal_linux.go:446-462 | A reference that a removal cannot read may end up naming a deleted object, with everything else read, exactly when it names an object the removal has locked and has counted no reference to |
| `OciMissed.HarmfulMissDangles` | internal/oci/removal_linux.go:446-462 | From every such miss there is a run, moving all other references away, that ends with the reference naming a deleted object |
| `OciMissed.MissedReferenceDangles` | internal/oci/removal_linux.go:452-455 | A concrete run from the empty store to a reference whose object was deleted |
| `OciTheorems.HeldNeverDeleted` | internal/oci/object_linux.go:118-146 | While a prepared image is held its object is neither deleted nor damaged, in every run, whatever is missed or left unfinished |
| `OciTheorems.RetainedObjectOpens` | internal/oci/prepare.go:263-323 | As long as no miss is harmful, under a shared lease the object always opens and is still the one the reference names: the errors for a missing published object cannot happen |
| `OciTheorems.ReferencedAreIntact` | internal/oci/removal_linux.go:131-157 | If no removal is cut short inside an object and no miss is harmful, every referenced object is whole |
| `OciTheorems.HeldAreIntact` | internal/oci/removal_linux.go:131-157 | If no removal is cut short inside an object, every held object is whole, whatever is missed |
| `OciDamage.RemnantIffInterrupted` | internal/oci/removal_linux.go:139-155 | An object in use, named by a reference or held, is a remnant exactly when a removal of it died between its first and its last step and nobody published the object since |
| `OciDamage.RemnantIsAdopted` | internal/oci/prepare.go:196-214 | A concrete run in which a removal dies inside an object and a later prepare publishes a reference to the remnant and holds it |
| `OciTheorems.RunInv` | internal/oci/prepare.go:177-260 | The protocol invariant holds in every state of every careful run |
| `OciInvariant.TakeKeeps` | internal/oci/removal_linux.go:47-157 | Every step of every process keeps the protocol invariant |
| `OciInvariant.NextCompatible` | internal/oci/coordination.go:28-52 | A step never leads to conflicting reference or object locks |
| `OciInvariant.OthersKnowRefs` | internal/oci/prepare.go:186-260 | What one process knows about references survives every step of another |
| `OciInvariant.OnlyLockedObjectsChange` | internal/oci/object_linux.go:22-45 | A process changes only objects it has locked exclusively |
| `OciEffect.FinishedRemovesReferences` | internal/oci/removal_linux.go:110-157 | In every run a removal that is through has deleted every reference it was asked to remove, and none of them has come back |
| `OciEffect.FinishedRemovesObjects` | internal/oci/removal_linux.go:110-157 | And every object it had locked, except those for which it read a reference outside its request |
| `OciEffect.ExistingIsAdopted` | internal/oci/prepare.go:197-216 | An object that opens is adopted as it is, never published over |
| `OciEffect.PublicationNames` | internal/oci/prepare.go:197-256 | A preparation publishes its reference to the object it has prepared, which opens, and touches no other |
| `OciSelection.SelectedReferenceIds` | internal/oci/removal_linux.go:273-295 | Selects exactly the chosen references and, under force, those of the chosen objects |
| `OciSelection.RemovalObjectCandidates` | internal/oci/removal_linux.go:297-345 | Refuses exactly when a referenced object is chosen without force; otherwise the exact candidate and busy-allowed sets |
| `OciSelection.ReferenceObjectCounts` | internal/oci/removal_linux.go:427-464 | The count of each object is the number of readable, not excluded references to it |
| `OciSelection.CandidateKeepsNoReferenceIff` | internal/oci/removal_linux.go:38-76 | With references selected at the first catalog read and objects at the second, every reference naming a candidate is selected exactly when, under force, each was at the first read selected or a reference to a selected object |
| `OciSelection.QuietReadsSelectAll` | internal/oci/removal_linux.go:273-345 | In particular when no reference to the object appeared between the two reads |
| `OciSelection.LateReferenceIsNotSelected` | internal/oci/removal_linux.go:59-91 | A reference published between the reads stays unselected, and only the count under the object's lock sees it |
| `PatchPointer.ParseFormat` | internal/configpatch/pointer.go:11-35 | Parsing undoes formatting for every nonempty token list |
| `PatchPointer.FormatParse` | internal/configpatch/pointer.go:11-35 | Formatting undoes parsing exactly on the pointers of the grammar in section 3 of RFC 6901 |
| `PatchPointer.UnescapeIsDecode` | internal/configpatch/pointer.go:19-22 | Replacing ~1 before ~0 decodes every token as the single pass of section 4 of RFC 6901 |
| `PatchPointer.EscapeIsEncode` | internal/configpatch/pointer.go:28-32 | The two replacements of formatting are one escaping pass |
| `PatchPointer.IndexIffNumeral` | internal/configpatch/pointer.go:37-57 | A token addresses element i exactly when it is the numeral of i and i is in range |
| `PatchPointer.ParsePointer` | internal/configpatch/pointer.go:11-24 | The loop over the split tokens computes the parse |
| `PatchPointer.FormatPointer` | internal/configpatch/pointer.go:26-35 | The builder loop computes the format |
| `PatchPointer.ParseArrayIndex` | internal/configpatch/pointer.go:37-57 | Accepts exactly the canonical numerals below the length |
| `PatchDocument.LookupPath` | internal/configpatch/compile.go:170-192 | The lookup loop finds what the path names, or the same error |
| `PatchDocument.ApplyAppend` | internal/configpatch/apply.go:67-94 | Replaying concatenated operations is replaying the parts in order |
| `PatchDocument.RootStaysObject` | internal/configpatch/apply.go:89-93 | Operations keep the root of an object document an object |
| `PatchDocument.RenderedApplies` | internal/configpatch/compile.go:49-68 | Operations with formatted pointers address what the token paths address |
| `PatchCompile.CompileEnsure` | internal/configpatch/compile.go:40-97 | The loop emits exactly the operations the recursive description lists, with the same errors |
| `PatchCompile.EnsureExisting` | internal/configpatch/compile.go:131-152 | Appends to an array that lacks the value, replaces anything else that differs |
| `PatchCompile.CompileRemove` | internal/configpatch/compile.go:99-129 | Emits the removals from the last matching element to the first, or the removal of the node |
| `PatchMeaning.EnsureApplies` | internal/configpatch/compile.go:40-97 | Compilation succeeds exactly when ensuring has a meaning; its operations then all apply and give that meaning |
| `PatchMeaning.CompiledEnsureApplies` | internal/configpatch/compile.go:40-97 | The same for the operations with pointers as text |
| `PatchMeaning.RemovalsFilter` | internal/configpatch/compile.go:113-123 | Descending index removals, applied one by one, never fail and leave the order-preserving filter |
| `PatchMeaning.CompiledRemoveApplies` | internal/configpatch/compile.go:99-129 | The operations of every removal apply and give exactly the filtered array, the deleted node or the unchanged document |
| `PatchApply.Validate` | internal/configpatch/patch.go:39-63 | Accepts exactly the patches with parsable pointers, valid raw operations and no member both ensured and removed; the source of a move or copy has to be a pointer |
| `PatchApply.ApplyOperations` | internal/configpatch/apply.go:67-94 | The fold of operations |
| `PatchApply.CompileIntents` | internal/configpatch/compile.go:12-38 | Replaying all compiled operations on the original gives the document simulated step by step |
| `PatchApply.Apply` | internal/configpatch/apply.go:46-65 | Refuses invalid patches and those whose raw operations fail or leave no object; otherwise gives what the intents mean on the document the operations leave, which without intents is the replay itself; the result is an object |
| `PatchRaw.RawEdits` | internal/configpatch/apply.go:67-94 | A raw add, remove or replace succeeds exactly when the node that holds its target is there and takes it; members and elements are edited as RFC 6902 says, with the elements behind shifted, and every pointer leaving the path finds what it found |
| `PatchRaw.EditedFinds` | internal/configpatch/apply.go:67-94 | An added or replaced value is found at its pointer, a removed member is not found, and other members of the object stay |
| `PatchRaw.RawCopies` | internal/configpatch/apply.go:67-94 | Copy adds what it finds, with the exact condition of success |
| `PatchRaw.RawMoves` | internal/configpatch/apply.go:67-94 | Move removes and adds what was removed, and fails below its own source, with the exact condition of success |
| `PatchRaw.RawTests` | internal/configpatch/apply.go:67-94 | Test changes nothing and succeeds exactly on the value it names |
| `PatchRaw.RawAppend` | internal/configpatch/apply.go:67-94 | Operations are replayed in order, each on what the one before left |
| `PatchRaw.OrderMatters` | internal/configpatch/apply.go:46-65 | A concrete patch: its operation comes before its intents, and the other order gives another document |
| `PatchRaw.RemovedExactly` | internal/configpatch/compile.go:99-129 | What a removal leaves: an array without the equal elements and the others as often as before, an equal node gone, and everything else untouched |
| `PatchTheorems.EnsuredTarget` | internal/configpatch/compile.go:40-97 | Ensuring succeeds exactly where the pointer does not run into a scalar or off an array, and determines the node there |
| `PatchTheorems.EnsuredExactly` | internal/configpatch/compile.go:131-164 | Which node an ensure leaves, case by case |
| `PatchTheorems.EnsuredIsPresent` | internal/configpatch/compile.go:131-164 | Afterwards the wanted value is the node or an element of it, and an array keeps its elements in front |
| `PatchTheorems.UnrelatedPointersKeep` | internal/configpatch/compile.go:40-97 | Every pointer that leaves the ensured one finds what it found before |
| `PatchTheorems.SecondEnsureIsSilentIff` | internal/configpatch/compile.go:131-164 | A second compilation emits nothing exactly when the wanted value is no array or the pointer named an array before |
| `PatchTheorems.EnsuringAnArrayTwiceNests` | internal/configpatch/compile.go:154-164 | Ensuring an array at a missing pointer nests it on the second application |
| `PatchTheorems.ScalarPatchResult` | internal/configpatch/compile.go:12-38 | Scalar intents on one pointer leave the old elements without the removed values followed by the missing ensured values in order, and nothing else changes |
| `PatchTheorems.ScalarPatchTwice` | internal/configpatch/apply.go:46-65 | Carrying out the intents of such a patch twice is doing so once |
| `PatchTheorems.ScalarPatchAppliesOnce` | internal/configpatch/apply.go:46-65 | The same for what apply computes on an object document |
| `PatchTheorems.WithoutAllIsKept` | internal/configpatch/compile.go:15-25 | Removing values one intent at a time is one order-preserving filter |
| `ToolOrder.TopologicalOrder` | internal/tools/order.go:18-44 | Succeeds exactly on distinct nonempty names without a dependency cycle; the result is a permutation with every tool after its in-set dependencies, each the smallest ready one; the blocked names each wait for another of them |
| `ToolOrder.LessIffSmallerAt` | internal/tools/order.go:27-36 | Names are compared as in a dictionary: the first difference decides and a proper prefix is smaller |
| `ToolOrder.SmallestReady` | internal/tools/order.go:27-36 | The scan finds the smallest ready name, or none exactly when nothing is ready |
| `ToolOrder.DependenciesEmitted` | internal/tools/order.go:48-55 | True exactly when every in-set dependency was emitted |
| `ToolOrder.OrderedIsAcyclic` | internal/tools/order.go:18-44 | A complete dependency order excludes every cycle |
| `ToolOrder.StuckIsCyclic` | internal/tools/order.go:37-39 | When nothing is ready the graph really has a cycle |
| `ToolOrder.GreedyIsUnique` | internal/tools/order.go:26-42 | There is only one greedy order of a set of tools |
| `ToolOrder.OrderIndependent` | internal/tools/order.go:13-15 | The result does not depend on the order of the input |
| `ToolOrder.SortableIndependent` | internal/tools/order.go:13-17 | Whether sorting succeeds does not depend on the order of the input |
| `ToolRegistry.NewRegistry` | internal/tools/registry.go:33-61 | Accepts exactly distinct nonempty names, known dependencies and an acyclic graph, and indexes the tools |
| `ToolRegistry.Gather` | internal/tools/registry.go:104-120 | The recursive gather adds the dependencies of everything it adds and nothing that is not forced, and fails only if no closed set avoids an unknown name |
| `ToolRegistry.GatherAll` | internal/tools/registry.go:122-126 | Gathers the least closed set of the requested names |
| `ToolRegistry.Build` | internal/tools/registry.go:102-150 | On an accepted registry fails exactly for unknown names; otherwise the least dependency-closed set in dependency order |
| `ToolRegistry.SelectionIsUnique` | internal/tools/registry.go:138-149 | The wanted names determine the selection and its order, whatever order the closure map is read in |
| `ToolRegistry.SelectionSorts` | internal/tools/registry.go:145-148 | A selection from an accepted registry never meets a cycle |
| `SeedTheorems.CopyIsFaithful` | internal/storage/seed_linux.go:154-238 | Two destinations are linked exactly when their sources share an inode; bytes count once per inode; the metadata total is the summed length of stored paths; all within the limits |
| `SeedComplete.CopiedIsAdmissible` | internal/storage/seed_linux.go:154-238 | A copy that succeeds contains no foreign entry, no link out of the tree, no name that is not one component, nothing longer or deeper than the limits, and no path twice |
| `SeedComplete.CopiedIffAcceptable` | internal/storage/seed_linux.go:154-238 | A sane source is copied exactly when that holds and its entries, its bytes and the path bytes to be remembered at any time keep within the limits |
| `SeedComplete.PlainFaults` | internal/storage/seed_linux.go:154-238 | Which fault a folder, link or foreign entry is refused for |
| `SeedComplete.RegularFaults` | internal/storage/seed_linux.go:400-546 | Which fault a regular file is refused for |
| `SeedTree.TreePathsDistinct` | internal/storage/seed_linux.go:99-152 | Every entry of a tree with proper names has a path of its own |
| `SeedTree.CopiedTreeIsShallow` | internal/storage/seed_linux.go:99-111 | A copied tree has no directory with more names on its path than the depth limit |
| `SeedTheorems.CompleteTreeDrainsTable` | internal/storage/seed_linux.go:441-447 | Once every name of every inode was met the link table is empty and the metadata total zero |
| `SeedTheorems.LinksNeverFail` | internal/storage/seed_linux.go:423-437 | On a sane tree the link-count and link-source errors cannot happen |
| `SeedTheorems.ExactIffWithinLinks` | internal/storage/seed_linux.go:423-453 | For sources whose names agree on their inodes' attributes, links are rebuilt exactly iff no inode has more names than links |
| `SeedTheorems.OverflowSplits` | internal/storage/seed_linux.go:529-545 | The first name beyond the link count becomes a file of its own for good |
| `SeedTheorems.TwoNamesSplit` | internal/storage/seed_linux.go:529-545 | A concrete source: two names of an inode with link count one are copied into two files |
| `SeedTheorems.RunKeeps` | internal/storage/seed_linux.go:99-152 | The accounting invariant survives every further entry |
| `SeedCopier.Copier.ReserveBytes` | internal/storage/seed_linux.go:622-628 | Reserves exactly when the budget allows, without underflow |
| `SeedCopier.Copier.LinkRegular` | internal/storage/seed_linux.go:423-449 | One more name of a remembered file; neither the remaining count nor the metadata total underflows, for any source |
| `SeedCopier.Copier.CopyRegular` | internal/storage/seed_linux.go:400-546 | A regular file is linked or copied and remembered |
| `SeedCopier.Copier.CopySymlink` | internal/storage/seed_linux.go:572-620 | Copies a symbolic link exactly when it stays inside the tree, its length keeps within the limits and its path is new, charged by its length; every refusal with its exact condition |
| `SeedCopier.Copier.CopyPlain` | internal/storage/seed_linux.go:154-238 | One entry, with its name check and every limit in the program's order |
| `SeedCopier.Copier.CopyDirectory` | internal/storage/seed_linux.go:99-152 | The recursive walk of a tree is the run over its entries in order |
| `ApprovalTheorems.RedeemedAtMostOnce` | internal/approval/registry.go:155-178 | No approval is redeemed twice in any interleaving |
| `ApprovalTheorems.RedemptionFollowsApproval` | internal/approval/registry.go:117-178 | A redemption follows an approve that changed the record, for the action the record holds |
| `ApprovalTheorems.ApprovedAtMostOnce` | internal/approval/registry.go:117-153 | At most one approve of a record observes the change |
| `ApprovalTheorems.AskingRunsOnlyByRedemption` | internal/approval/service.go:49-90 | When the policy does not allow, Authorize succeeds only by the one redemption of an earlier approved grant |
| `ApprovalTheorems.FinalIsForever` | internal/approval/registry.go:180-265 | Records are never forgotten, their identity never changes, and completed and denied are absorbing together with the response |
| `ApprovalTheorems.CompletedWasSaved` | internal/approval/registry.go:182-207 | A completed record was saved while executing and holds the bytes that were saved |
| `ApprovalTheorems.DeniedWasRefused` | internal/approval/registry.go:131-153 | A denied record was rejected while pending or met the end of all records while open, and holds no response |
| `ApprovalTheorems.RefusedIsDenied` | internal/approval/registry.go:131-153 | Every refusal of a pending or open record denies it at once |
| `ApprovalTheorems.SavedIsCompleted` | internal/approval/registry.go:182-207 | Every save of an executing record completes it with those bytes |
| `ApprovalTheorems.ApprovedIsExecuting` | internal/approval/registry.go:131-153 | Every approval of a pending record leaves it executing and unredeemed |
| `ApprovalTheorems.OthersUntouched` | internal/approval/registry.go:117-265 | An event touches the record it names and no other, unless it ends them all |
| `ApprovalTheorems.ClosesOnBecomingFinal` | internal/approval/registry.go:143-152 | The decided channel closes in exactly the step that makes the record final, and was open before |
| `ApprovalTheorems.RecordsStayWellFormed` | internal/approval/registry.go:48-90 | At most one pending record per action and parameters, at most 64 records, channels closed exactly once when final, a response exactly when completed |
| `ApprovalTheorems.TakeKeeps` | internal/approval/registry.go:48-265 | Every operation keeps the record invariant and moves records only forward |
| `ApprovalModel.Resolve` | internal/permission/permission.go:22-46 | Denies exactly on an explicit deny or an unset rule with a denying default outside yolo; allows exactly when nothing insists on asking and yolo, the rule or the default allows |
| `ApprovalRegistry.Registry.FindHeld` | internal/approval/registry.go:56-62 | The scan finds the one pending record that holds the request |
| `ApprovalRegistry.Registry.Create` | internal/approval/registry.go:48-90 | Shares an identical pending record, refuses beyond the bound, otherwise adds one |
| `ApprovalRegistry.Registry.Decide` | internal/approval/registry.go:131-153 | Changes pending records only and reports the status either way; an approval leaves the record executing and unredeemed, a denial leaves it denied, without a response, and closes its channel |
| `ApprovalRegistry.Registry.RedeemGrant` | internal/approval/registry.go:158-178 | Succeeds exactly for an executing, unredeemed record of the same action |
| `ApprovalRegistry.Registry.SaveResponse` | internal/approval/registry.go:182-207 | Completes executing records only |
| `ApprovalRegistry.Registry.DenyAll` | internal/approval/registry.go:251-265 | Denies every open record and leaves final ones alone |
| `ApprovalRegistry.Registry.Authorize` | internal/approval/service.go:49-90 | A grant is redeemed instead of resolving the policy; the request runs exactly when redeemed or allowed |

## Left out

- Object identity of registry entries: an entry is a value found under its key, so a pointer kept across deletion and re-creation is represented by the generation it captured.
- Descriptive fields: `updatedAt`, `lastError`, `startedAt`, the collected shutdown errors, progress reports and log lines influence no decision.
- Clocks: time is an abstract nondecreasing number that stands still inside one mutex-held block; nothing is said about when a callback runs, only what it does.
- Factories, contexts and stop sequences: their outcomes are nondeterministic; `stopInstance` is the choice between reaped and not reaped.
- Canonical keys and scopes of resources (`internal/agent/resource/builder.go`, `scope.go`): pure validation that would add easy members only.
- The reconcile loop and the status and relay fields it shares with waiting runs are a machine of atomic steps on values, not methods on an object, because runs interleave with the loop between any two steps; update in place is not captured there, and generation tokens, progress operations and retry delays are not represented.
- Route field validation, credential and header comparison of `authorize`, Caddy rendering: each is one boolean or one outcome of a step.
- Release of a gateway run while the gateway shuts down skips the removal wait; only the wait itself is modelled.
- Termination and fairness: no wait is shown to end.
- Catalog reading and the reporting of removal results: candidates and selected references of a removing process may be any sets, and the selection functions are proved on their own.
- Registry pulls, builds, extraction, digests, safe file-system primitives: an object key is opaque, locks, renames and file replacement are atomic steps.
- Raw patch operations follow the RFC where the library that executes them might differ; a removal of the whole document is an error.
- JSON and TOML text, floating-point numbers and number normalisation: documents are values with integers.
- The group catalog of the tool registry, launch help and the sorted rendering of the cycle message: lookups and presentation.
- SeedCopier.Copier.CopyPlain: does not model file modes, ownership or the re-stat of opened files, because those only abort the copy; whether a symbolic link stays inside the tree is a flag of the entry.
- ApprovalModel.Resolve: takes rules as values; parsing rule names is not part of this model.
- Identifier and token generation: a new identifier is any unused one; that the retry loop ends is not shown.
- The blocking part of Wait on approvals: a waiter reads a final record, which `ApprovalTheorems.FinalIsForever` shows can never change.
