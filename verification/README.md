# Verified models of vibeD's control-plane protocols

This project states and proves, in Dafny 4.11, what vibeD's concurrent components guarantee across
several functions at once. `dafny verify dfyconfig.toml` checks everything.

There are two kinds of model:

- **Classes** follow code that updates fields in place. Their methods are proved equal to a
  specification function on the old and the new contents.
- **Step systems** follow protocols with several parties. `Apply(world, step)` is one atomic action of
  one party (a step whose guard fails changes nothing), `Run(steps)` is any sequence of steps, and the
  theorems speak about every `Run(steps)`. A lost, late, repeated or failed action is just another step.

| Module | Component |
|---|---|
| `InjectToken`, `InjectTracker` | the asynchronous inject tracker: entries, cancellation, semaphore, done channels |
| `AppStatus`, `Backoff`, `ReconcilePass`, `PassLaws`, `VibedApp`, `Episodes` | conditions, requeue delay, one reconcile pass as a function and as an in-place update, what each arm of it does, runs of passes over stale versions |
| `ControlPlane` | users, stale reads, reconcile workers, inject goroutines, optimistic status writes and restarts together |
| `Quota`, `QuotaProtocol` | the reservation table, and every interleaving of count, reserve, create, release, delete and expiry |
| `DeployHistory`, `DeployProtocol`, `DeployService` | capped version history, interleaved deploy/rollback/delete, and the sequential service |
| `EventBridge` | the dashboard mirror against a changing cluster with disconnects |
| `RunnerAgent`, `RingBuffer` | the in-pod agent with late supervisors and staging dirs; its circular log buffer |
| `ConfigMapStore` | replicas updating one ConfigMap with retry on conflict |
| `EventBus` | publishers, subscribers, unsubscribe and cancellation |
| `WorkerdLoader` | app/port maps, the port search, the rendered config |
| `TtlCache`, `IdentityCache` | the TTL cache, identity resolution |
| `ClaimFingerprint`, `OidcSync` | the quoted claim fingerprint, department resolution, the OIDC user sync |
| `RouteTable`, `RouterQueue` | Caddy routes and the update filter; the router's work queue with failures and restarts |

## What the proofs found

These properties do not hold as one would first state them. For each, the first members named give failing
inputs or runs and the others the exact condition under which it holds.

- `injectToken` confuses two deliveries when a target contains the separator: `TokensCanClash`;
  `ClashIffExtends` says for which pairs of targets.
- A ceiling is exceeded by a deploy that creates and releases between another caller's count and its reserve
  (`LostHandoffExceeds`), or by a reservation that expires before its create (`EarlyExpiryExceeds`);
  `GateExact`. A reservation that expires after its create counts as released at that moment.
- A create that takes effect and is answered with an error deletes the blob of the version it has just recorded:
  `LostCreateRun`; `SoundRunIff`.
- A log buffer's snapshot depends on how the bytes were split into writes: `LongLineDepends`,
  `LongTailDepends`; `SplitIndependentIff` (a terminated line above 65536 bytes, or a trailing one above 65537).
- A staging directory is made before it is registered, so another inject can delete it in between:
  `UnregisteredStageCanBeLost`; `MadeStageIsLostIff`.
- A renaming `Update` of the ConfigMap store is not checked against other artifacts: `RenamingUpdateClashes`;
  `NamesStayUniqueIff`.
- An identity is served for longer than one TTL after it was read when storing it took time, although the
  comment at internal/auth/identity.go:114-119 promises one TTL: `SlowReadOutlivesTtl`; `IdentityAgesOneTtlIff`.
- A sync that counts as persisted, and lets the next ones be skipped for a TTL, need not have stored the claimed
  department, although the comments at internal/auth/identity.go:158-164 and internal/auth/auth.go:641-643 say
  that the store matches the claims. The department may be unresolvable even when nothing fails, because two
  names can share a slug: `UnresolvedDepartmentIsSkipped`, `SlugCollisionIsUnresolvable`,
  `PersistedCanDifferFromClaims`; `DepartmentStoredIff`, `PersistedMatchesAllClaimsIff`.
- A routable app whose URL has no host keeps a stale route: `HostlessUrlLeavesStaleRoute`;
  `StaleWithoutHostIff`. The controller's own URLs always have one (`PublishedUrlHasHost`), so this needs
  a status written by someone else.
- A PATCH refused for another reason than a missing id is followed by a POST, which duplicates the route and
  reports success: `RefusedPatchDuplicates`; `ReconcileWorksIff`, `IdsStayUniqueIff`.
- A deletion not yet worked off is forgotten by a router restart, and the route stays until the id is created
  again: `DeletionLostAtRestart`; `RestartLosesIff`, `OrphansExactly`, `UnqueuedStays`.
- Two ids the loader accepts share all their rendered names: `AcceptedIdsCanClash`; `IdentsClashIff`,
  `RenderIsUnambiguousIff`. DNS labels never do.

## Model

| member | source | states |
|---|---|---|
| `InjectToken.TokenInjective` | internal/controller/asyncinject.go:59-61 | for targets without the separator, equal tokens mean equal target, generation and source ref |
| `InjectToken.ClashIffExtends` | internal/controller/asyncinject.go:59-61 | for arbitrary targets, exactly which pairs can share a token |
| `InjectToken.TokensCanClash` | internal/controller/asyncinject.go:59-61 | two different deliveries with one token |
| `InjectTracker.EveryRunIsSafe` | internal/controller/asyncinject.go:89-248 | in every run: an unfinished attempt is the tracked one of its uid or cancelled; done channels are closed once, exactly when a result is recorded; results are handed out at most once and only under their own uid and token; slots in use equal the goroutines inside and never exceed 8 |
| `InjectTracker.OneLiveAttemptPerApp` | internal/controller/asyncinject.go:174-206 | at most one unfinished, uncancelled attempt per app |
| `InjectTracker.NoSlotLeaked` | internal/controller/asyncinject.go:211-225 | the semaphore is empty exactly when no goroutine holds a slot |
| `InjectTracker.ApplyPersists` | internal/controller/asyncinject.go:211-237 | no step changes an attempt's key, payload or recorded result |
| `InjectTracker.PeekHandsOutOwnResult` | internal/controller/asyncinject.go:159-172 | a finished peek returns the recorded result of an unconsumed attempt with the caller's uid and token |
| `InjectTracker.EvictionIsByAge` | internal/controller/asyncinject.go:241-248 | eviction drops a tracked attempt exactly if it has a result older than five minutes |
| `InjectTracker.PeekAnswers` | internal/controller/asyncinject.go:159-172 | the exact answer of a peek: finished, in flight or nothing by uid, token, result and its age; the result is consumed and nothing else changes |
| `InjectTracker.LaunchStarts` | internal/controller/asyncinject.go:179-195 | a launch returns the tracked attempt exactly under the same token with no expired result; otherwise it queues a new one with the payload and cancels the one it replaces |
| `InjectTracker.ForgetDrops` | internal/controller/asyncinject.go:199-206 | a forgotten app is untracked and its attempt cancelled, nothing else |
| `InjectTracker.AcquireIff` | internal/controller/asyncinject.go:211-225 | a queued attempt gets a slot exactly while fewer than eight are in use |
| `InjectTracker.ResultsAreRecorded` | internal/controller/asyncinject.go:211-237 | what a goroutine records: its outcome, or the cancellation it met while waiting |
| `InjectTracker.SlotIsReleased` | internal/controller/asyncinject.go:211-225 | a goroutine that has recorded gives its slot back |
| `InjectTracker.AsyncInjector.EvictExpiredLocked` | internal/controller/asyncinject.go:241-248 | removes exactly the tracked entries whose result is older than the TTL |
| `InjectTracker.AsyncInjector.PeekLocked` | internal/controller/asyncinject.go:159-172 | the in-place peek equals the tracker's Peek and consumes what it returns |
| `InjectTracker.AsyncInjector.LaunchLocked` | internal/controller/asyncinject.go:179-195 | the in-place launch equals Launch: reuse under the same token, else cancel and replace |
| `InjectTracker.AsyncInjector.ForgetLocked` | internal/controller/asyncinject.go:199-206 | cancels and drops the tracked attempt, nothing else |
| `InjectTracker.AsyncInjector.RecordLocked` | internal/controller/asyncinject.go:211-237 | records a result once, for an attempt that holds a slot or was cancelled while waiting for one, cancels its context and closes its done channel |
| `AppStatus.SetConditionMerges` | internal/controller/vibedapp_controller.go:770-791 | the set type reads back, its transition time moves only on a flip, other types read as before, types stay distinct |
| `AppStatus.StatusEqualIff` | internal/controller/vibedapp_controller.go:710-731 | the comparison sees every field; only condition times escape it |
| `AppStatus.SuppressionIsLossless` | internal/controller/vibedapp_controller.go:710-731 | if each type was set at most once, statusEqual means equal, transition times included |
| `AppStatus.SettingTwiceCanBeLost` | internal/controller/vibedapp_controller.go:710-731 | without that discipline statusEqual would hide a change |
| `Backoff.TransitionalRequeueAfter` | internal/controller/vibedapp_controller.go:276-310 | the doubling loop computes min(60s, base·2^⌊t/base⌋), and its intermediate stays below 120s when base is below 60s |
| `Backoff.DelayMonotone` | internal/controller/vibedapp_controller.go:276-289 | the delay never decreases with the time spent not Ready |
| `Backoff.NotReadyForIs` | internal/controller/vibedapp_controller.go:296-310 | the time since the Ready condition last turned, while it is not True; zero if unset or ahead of the clock |
| `Backoff.DelayDoubles` | internal/controller/vibedapp_controller.go:276-289 | within the first base period the delay is the base, and each further period doubles it up to a minute |
| `ReconcilePass.PassKeepsStatusOk` | internal/controller/vibedapp_controller.go:342-534 | every pass keeps: condition Ready True implies phase Ready, what each phase needs of URL, target, pod IP and sandbox, and distinct condition types |
| `ReconcilePass.PassSetsEachTypeOnce` | internal/controller/vibedapp_controller.go:342-534 | a pass sets each condition type at most once |
| `ReconcilePass.SuppressedPassChangedNothing` | internal/controller/vibedapp_controller.go:665-679 | a pass whose write is suppressed had computed the very status it read |
| `ReconcilePass.WaysIntoReady` | internal/controller/vibedapp_controller.go:422-505 | phase Ready is entered only by a fast-lane deploy or by a Starting pass whose inject reported running without error |
| `ReconcilePass.InjectionOnlyMattersWhenAsked` | internal/controller/vibedapp_controller.go:422-460 | outside Starting with a ready probe, the tracker's answer has no influence on a pass |
| `PassLaws.ReadyReachedIff` | internal/controller/vibedapp_controller.go:422-505 | a general-lane app reaches Ready exactly from Starting with a pod, a ready probe, a running inject, a service and a publication; then with their URL and target, the deploy time, condition Ready True, the same pod and sandbox, and no requeue |
| `PassLaws.RunningLaw` | internal/controller/vibedapp_controller.go:473-505 | after a running inject: retries on a failed service or publication, else Ready; fields, condition, requeue |
| `PassLaws.InjectedLaw` | internal/controller/vibedapp_controller.go:455-480 | an unfinished, failed or not yet running inject: condition and retry, no other change |
| `PassLaws.StartingLaw` | internal/controller/vibedapp_controller.go:422-448 | Starting without a pod, with an unreachable agent, or with one that is not ready |
| `PassLaws.ClaimingLaw` | internal/controller/vibedapp_controller.go:378-420 | every gate and claim answer: phase, fields, condition, requeue |
| `PassLaws.NewAppLaw` | internal/controller/vibedapp_controller.go:373-376 | a new app starts claiming |
| `PassLaws.ReadyLaw` | internal/controller/vibedapp_controller.go:507-523 | a replaced pod sends a Ready app back to Starting with that pod; otherwise it rests |
| `PassLaws.OtherPhasesLaw` | internal/controller/vibedapp_controller.go:525-534 | Failed rests; an unknown phase becomes Pending |
| `PassLaws.FastLaneLaw` | internal/controller/vibedapp_controller.go:611-649 | every deploy and publication answer of the workerd lane |
| `PassLaws.SuspendLaw` | internal/controller/vibedapp_controller.go:547-580 | every release answer; parking clears pod, sandbox and target and forgets the inject |
| `PassLaws.RestoreLaw` | internal/controller/vibedapp_controller.go:582-592 | a restored app goes back to claiming |
| `PassLaws.InvalidSpecFails` | internal/controller/vibedapp_controller.go:342-352 | an invalid spec fails the app with the reason on both conditions and no retry |
| `ReconcilePass.PassWithinEpisode` | internal/controller/vibedapp_controller.go:342-534 | a pass inside a not-Ready episode ends it by turning Ready or stays in it with the same start time |
| `Episodes.PassRespectsEpisodes` | internal/controller/vibedapp_controller.go:342-534 | every pass over a version of an episode stays in it or turns Ready, and computes its delay on the start of the episode |
| `Episodes.EpisodeDelaysNeverDecrease` | internal/controller/vibedapp_controller.go:276-310 | over any sequence of passes, stale reads and lost writes, requeue delays never decrease within one not-Ready episode |
| `VibedApp.WorkingCopy.SetConditionByType` | internal/controller/vibedapp_controller.go:770-791 | the in-place merge equals SetCondition |
| `VibedApp.WorkingCopy.ReconcileSuspension` | internal/controller/vibedapp_controller.go:547-594 | suspend and restore updated in place equal the specification, or touch nothing when not concerned |
| `VibedApp.WorkingCopy.ReconcileFastLane` | internal/controller/vibedapp_controller.go:611-649 | the workerd lane updated in place equals the specification |
| `VibedApp.WorkingCopy.ReconcileClaiming` | internal/controller/vibedapp_controller.go:378-420 | gate and claim outcomes updated in place equal the specification |
| `VibedApp.WorkingCopy.PublishRoute` | internal/controller/vibedapp_controller.go:481-505 | service and route publication updated in place equal the specification |
| `VibedApp.WorkingCopy.ReconcileStarting` | internal/controller/vibedapp_controller.go:422-505 | the Starting phase updated in place equals the specification |
| `VibedApp.WorkingCopy.Reconcile` | internal/controller/vibedapp_controller.go:342-534 | the whole in-place pass equals Pass; it keeps the status invariant, moves a transition time only with its status, and if statusEqual finds no difference there is none |
| `ControlPlane.EveryRunIsSafe` | internal/controller/vibedapp_controller.go:313-679 | the joint invariant of objects, workers, tracker, commits and usage holds in every run, with stale reads, conflicts and restarts |
| `ControlPlane.ReadyIsJustified` | internal/controller/vibedapp_controller.go:422-505 | every committed general-lane move into Ready starts at Starting and consumed a completed running=true attempt of the same uid, pod target, generation and source as the committed object |
| `ControlPlane.AttemptsJustifyOnce` | internal/controller/asyncinject.go:137-172 | no attempt's result backs two commits |
| `ControlPlane.PersistedStatusIsSound` | internal/controller/vibedapp_controller.go:342-534 | every reachable persisted status satisfies the status invariant |
| `ControlPlane.MeteringAlternates` | internal/controller/vibedapp_controller.go:665-704 | an app's usage events alternate ready, stopped from the first on, and readies minus stops is 1 exactly when the persisted phase is Ready |
| `ControlPlane.FinishStoresIff` | internal/controller/vibedapp_controller.go:665-704 | exactly when a status is stored, what is stored, and that usage is recorded iff the phase enters or leaves Ready |
| `ControlPlane.BeginConsultsIff` | internal/controller/vibedapp_controller.go:422-460 | exactly when a pass consults the inject tracker; a deleted app only drops its inject |
| `ControlPlane.PeekDecides` | internal/controller/asyncinject.go:137-153 | what each answer of the first peek leads to |
| `ControlPlane.LaunchDecides` | internal/controller/asyncinject.go:137-153 | what is launched, and what the end of the attempt or of the grace period leads to |
| `Quota.PruneKeepsHoldings` | internal/quota/enforcer.go:146-162 | pruning removes no unexpired reservation |
| `Quota.DropHolds` | internal/quota/enforcer.go:122-141 | a release removes exactly its own reservation and leaves no empty inner map |
| `Quota.DropTwice` | internal/quota/enforcer.go:122-141 | a repeated release changes nothing |
| `Quota.Enforcer.ReservedCountLocked` | internal/quota/enforcer.go:146-162 | counts exactly the unexpired reservations of the key and prunes the others |
| `Quota.Enforcer.TryReserve` | internal/quota/enforcer.go:111-142 | succeeds exactly when listed plus unexpired is below the maximum, with a fresh id and one added reservation that expires after two minutes |
| `Quota.Enforcer.Release` | internal/quota/enforcer.go:122-141 | drops one id, removing the inner map when it becomes empty |
| `Quota.Enforcer.ReleaseAll` | internal/quota/enforcer.go:190-194 | undoes what a call took: the unexpired reservations are those it started from |
| `Quota.Enforcer.Authorize` | internal/quota/enforcer.go:178-255 | a redeploy passes; a new deploy is authorized exactly if the tenant, owner and department counts are known and each with its unexpired reservations is below its maximum (the department override winning), and otherwise gets the first count error or the first exceeded ceiling with maximum and total; all or nothing, one fresh reservation per ceiling that is on |
| `Quota.Enforcer.Admit` | internal/quota/enforcer.go:197-246 | stops at the first ceiling that keeps the deploy out and says why; undone as a whole there |
| `Quota.Ceilings` | internal/quota/enforcer.go:197-255 | the ceilings built from a request have distinct keys |
| `Quota.CeilingsOf` | internal/quota/enforcer.go:197-255 | which key, maximum and count each ceiling of a request has |
| `QuotaProtocol.GateExact` | internal/quota/enforcer.go:105-142 | a gate may admit one more deploy under every ceiling the load respects if and only if what the count missed is made up for by what it saw twice |
| `QuotaProtocol.CoveredGateIsSound` | internal/quota/enforcer.go:105-142 | the gate is sound when no deploy created and lost its reservation since the count and none expired before its create |
| `QuotaProtocol.CeilingHolds` | internal/deploy/service.go:353-471 | in every interleaving whose gates are sound, live apps plus reserved-but-uncreated deploys never exceed the ceiling |
| `QuotaProtocol.CeilingHoldsWhenCovered` | internal/deploy/service.go:353-471 | the same under the hypotheses on handoffs and expiry |
| `QuotaProtocol.CreateConserves` | internal/deploy/service.go:432-471 | a create moves one deploy from pending to live for each of its keys; the load stays |
| `QuotaProtocol.ReserveGrantedIff` | internal/quota/enforcer.go:111-142 | a reserve is granted exactly if the listed apps and unexpired reservations are below the ceiling; otherwise the deploy fails |
| `QuotaProtocol.CountListsLive` | internal/quota/enforcer.go:267-299 | a count lists exactly the live apps of the key |
| `QuotaProtocol.CreateMakesApp` | internal/deploy/service.go:428-446 | a create makes one live app under the deploy's keys |
| `QuotaProtocol.EveryRunKeepsTable` | internal/quota/enforcer.go:111-162 | in every interleaving each reservation in the table belongs to the deploy that took it, for its key, and no empty inner map remains |
| `QuotaProtocol.ReleaseFrees` | internal/quota/enforcer.go:128-140 | a release takes its reservation out of the table |
| `QuotaProtocol.FreedForGood` | internal/quota/enforcer.go:111-162 | a reservation that left the table never comes back, in any continuation |
| `QuotaProtocol.ReleasedHoldsNothing` | internal/quota/enforcer.go:178-247 | a deploy past its gate whose releases have run holds nothing in any continuation, whatever other callers do between its ceilings |
| `QuotaProtocol.LostHandoffExceeds` | internal/quota/enforcer.go:105-110 | a reachable run passes a ceiling of one through a create and release between count and reserve |
| `QuotaProtocol.EarlyExpiryExceeds` | internal/quota/enforcer.go:146-162 | a reachable run passes a ceiling of one through an early expiry |
| `DeployHistory.ComputeNextVersion` | internal/deploy/versions.go:81-89 | the loop gives a version above every retained one |
| `DeployHistory.EvictionIsExact` | internal/deploy/versions.go:93-110 | a key is evicted exactly when it is non-empty, was referenced, and no kept record refers to it |
| `DeployHistory.AppendCapped` | internal/deploy/versions.go:93-110 | keeps exactly the newest min(history + 1, max) records in order, and evicts exactly the set keys of the others that no kept record refers to |
| `DeployHistory.KeptIsNewest` | internal/deploy/versions.go:93-110 | nothing is forgotten early: the kept records are a suffix, and one is dropped only when max newer ones are kept |
| `DeployHistory.KeptIsOk` | internal/deploy/versions.go:93-110 | appending the next version keeps at most 20 strictly increasing records with the new one newest |
| `DeployHistory.NewestIsHighest` | internal/deploy/versions.go:81-89 | whatever was evicted, the next version is the newest plus one |
| `DeployHistory.RollbackRedeploys` | internal/deploy/versions.go:133-181 | a rollback records the same source as a higher version and never evicts its blob |
| `DeployHistory.FindForRollback` | internal/deploy/versions.go:144-156 | the search finds the version if and only if it is retained |
| `DeployHistory.VersionKeysAreSeparate` | internal/deploy/versions.go:54-62 | version keys of dot-free names never equal a legacy key or another app's or version's key |
| `DeployProtocol.EveryRunIsSafe` | internal/deploy/service.go:372-476 | the joint invariant of objects, blobs and in-flight operations holds in every interleaving in which no create is lost |
| `DeployProtocol.HistoryIsSound` | internal/deploy/versions.go:81-181 | in every interleaving of deploy, redeploy, rollback, delete and clean-up, lost updates and deletes included: the history is the newest min(20, all) of the records ever written to the object, every retained record's blob is stored, the spec names the newest record's source, versions strictly increase |
| `DeployProtocol.EveryRunKeepsTails` | internal/deploy/versions.go:93-110 | every stored or read history is the newest twenty of the records ever written |
| `DeployProtocol.PutBlobLaw` | internal/deploy/service.go:372-401 | an upload takes the version after the newest read and stores exactly its own blob |
| `DeployProtocol.WriteDeployLaw` | internal/deploy/service.go:428-465 | a create or update takes effect exactly if not refused and the object is as read; then it adds the uploaded record and nothing else |
| `DeployProtocol.WriteRollbackLaw` | internal/deploy/versions.go:144-176 | the same for a rollback, with the source of the last retained record of that version |
| `DeployProtocol.CleanUpLaw` | internal/deploy/service.go:441-476 | which blobs are deleted after a write, a refused create and any other error |
| `DeployProtocol.DeleteLaw` | internal/deploy/query.go:232-265 | a delete removes the object and then exactly the blobs of all retained versions and the legacy one |
| `DeployProtocol.SoundRunIff` | internal/deploy/service.go:441-447 | that holds all along a run, clean-ups included, if and only if no create of a new object was lost |
| `DeployProtocol.LostCreateLosesBlob` | internal/deploy/service.go:441-447 | a lost create makes the next clean-up delete the blob of the only retained version |
| `DeployProtocol.LostCreateRun` | internal/deploy/service.go:441-447 | a first deploy that ends with an app whose only version has no blob |
| `DeployService.Service.Record` | internal/deploy/service.go:403-476 | writing a version and pruning what it evicts keeps blobs and histories matched |
| `DeployService.Service.Deploy` | internal/deploy/service.go:372-476 | a deploy appends the next version of its source, drops only the oldest of more than twenty, runs it, and keeps stored blobs exactly the referenced ones |
| `DeployService.Service.Rollback` | internal/deploy/versions.go:133-181 | a rollback succeeds exactly for an existing app and a retained version with a source; it then appends that source as the next version; otherwise nothing changes |
| `DeployService.Service.Delete` | internal/deploy/query.go:218-265 | a delete of an existing app removes the object and every stored version blob of it; an unknown app is refused and nothing changes |
| `DeployService.Service.StoredAreReferenced` | internal/deploy/service.go:372-476 | after any successful sequence, an app's stored version blobs are exactly the keys its history refers to |
| `EventBridge.SyncCatchesUp` | pkg/server/eventbridge.go:144-158 | after a sync the remembered uids and the name-keyed fold of all events are exactly the listed apps, whatever was missed, and no status was repeated |
| `EventBridge.SyncPublishes` | pkg/server/eventbridge.go:144-219 | exactly what a sync publishes: one deletion per vanished app under its own name and owner, then one status per listed app that differs from what was remembered |
| `EventBridge.MirrorFollowsCluster` | pkg/server/eventbridge.go:102-219 | in every run with disconnects and relists, the fold of all published events is the cluster's state at the consumed position, and no app gets two equal statuses in a row |
| `EventBridge.Watcher.Status` | pkg/server/eventbridge.go:183-208 | publishes and remembers a status exactly when it differs from the last |
| `EventBridge.Watcher.Removed` | pkg/server/eventbridge.go:162-176 | forgets the app and publishes its deletion |
| `EventBridge.Watcher.SyncList` | pkg/server/eventbridge.go:144-158 | the loops equal Sync for the order in which the map was walked, and publish exactly the deletions and changes |
| `RunnerAgent.EveryRunIsSafe` | internal/runneragent/agent.go:314-566 | the invariant of processes, calls and workdir holds in every interleaving |
| `RunnerAgent.RunningMeansCurrentProcess` | internal/runneragent/agent.go:352-566 | state is running iff there is a current process; it has the current generation, is unrecorded, and the workdir holds no source but its own |
| `RunnerAgent.ExitCodeIsTheLastProcess` | internal/runneragent/agent.go:483-511 | the reported exit code is that of the last started process, from its own recorded outcome and only then |
| `RunnerAgent.StateIsDue` | internal/runneragent/agent.go:352-566 | in every run the state is exactly the due one: running with a current process, failed after a failed start, else exited, failed or idle by the last process and its recorded code |
| `RunnerAgent.CurrentExitIsRecorded` | internal/runneragent/agent.go:483-511 | what the exit of the current process leaves in every field; any other exit leaves nothing |
| `RunnerAgent.InjectLeaves` | internal/runneragent/agent.go:349-376 | what an inject leaves in every field, on success and on each failure |
| `RunnerAgent.StopLeaves` | internal/runneragent/agent.go:529-543 | what a stop leaves in every field |
| `RunnerAgent.LateSupervisorIsIgnored` | internal/runneragent/agent.go:483-511 | after any continuation, however long, the supervisor of a process once superseded changes no field of the agent |
| `RunnerAgent.SupersededForGood` | internal/runneragent/agent.go:483-566 | once superseded, a process stays so in every continuation and its outcome is never recorded later |
| `RunnerAgent.OutcomeIsFinal` | internal/runneragent/agent.go:483-511 | an outcome is dealt with once; nothing revises it in any continuation |
| `RunnerAgent.RegisteredStageIsKept` | internal/runneragent/agent.go:573-587 | a staging dir present while registered survives every step until it is unregistered |
| `RunnerAgent.MadeStageIsLostIff` | internal/runneragent/agent.go:318-331 | an unregistered staging dir is lost exactly to an inject that gets to clear it |
| `RunnerAgent.UnregisteredStageCanBeLost` | internal/runneragent/agent.go:318-331 | a run in which a stage is registered after its directory was removed |
| `RunnerAgent.Agent.StopProcessLocked` | internal/runneragent/agent.go:529-543 | bumps the generation and goes idle exactly when there is a process |
| `RunnerAgent.Agent.ResetWorkdirLocked` | internal/runneragent/agent.go:573-587 | nothing changes if the directory cannot be read; the walk removes exactly the entries that are not in-flight stages, up to a failing one |
| `RunnerAgent.Agent.StartProcessLocked` | internal/runneragent/agent.go:450-477 | a started process gets the next generation and clears exit code and error |
| `RunnerAgent.Agent.InjectLocked` | internal/runneragent/agent.go:349-376 | the locked part, on every failure path: where it stops and what it leaves; the log is cleared before a start is tried; a failed start marks the state without touching the generation again |
| `RunnerAgent.Agent.SuperviseLocked` | internal/runneragent/agent.go:483-511 | records exit code, state and error for the current generation, nothing otherwise |
| `RingBuffer.SplitIndependentIff` | internal/runneragent/ringbuffer.go:35-108 | every snapshot of every buffer depends on the concatenated bytes alone if and only if no terminated segment exceeds 65536 bytes and the trailing one does not exceed 65537 |
| `RingBuffer.FittingIsIndependent` | internal/runneragent/ringbuffer.go:35-54 | fitting bytes leave the same lines and partial however they are cut |
| `RingBuffer.SplitConcat` | internal/runneragent/ringbuffer.go:39-47 | splitting in two goes with the carried partial equals splitting at once |
| `RingBuffer.SplitRejoins` | internal/runneragent/ringbuffer.go:39-47 | the lines with their newlines and the rest are the text, and no line holds a newline |
| `RingBuffer.SnapshotIs` | internal/runneragent/ringbuffer.go:73-108 | a snapshot is the last n of the newest lines that fit and the pending partial, all for n <= 0 |
| `RingBuffer.LogBuffer.AppendLine` | internal/runneragent/ringbuffer.go:58-68 | the circular slots hold the newest capacity lines after each append |
| `RingBuffer.LogBuffer.WriteBytes` | internal/runneragent/ringbuffer.go:35-54 | the loop commits exactly the complete lines and handles an over-long partial |
| `RingBuffer.LogBuffer.NewestLines` | internal/runneragent/ringbuffer.go:98-103 | the modular walk copies the newest k lines in order |
| `RingBuffer.LogBuffer.TakeSnapshot` | internal/runneragent/ringbuffer.go:73-108 | the last n of (newest capacity lines, then the pending partial), all of them for n <= 0 |
| `RingBuffer.LogBuffer.Reset` | internal/runneragent/ringbuffer.go:111-122 | an empty buffer |
| `ConfigMapStore.EveryRunIsSafe` | internal/store/configmap.go:64-347 | the invariant tying object version, contents, commit order and pending calls holds for any number of replicas |
| `ConfigMapStore.CommitsAreSerial` | internal/store/configmap.go:64-91 | contents are the committed calls replayed in commit order; a call is in that order exactly when it returned success, once |
| `ConfigMapStore.ContentsAreTheLastWritten` | internal/store/configmap.go:64-204 | in every run an id is there exactly if the last committed operation about it is a create or update, and then reads its text and name |
| `ConfigMapStore.LastWrittenIs` | internal/store/configmap.go:64-204 | that is the entry about the id after which no other one is |
| `ConfigMapStore.CommitWrites` | internal/store/configmap.go:64-204 | a commit writes what its operation says to its own id and no other |
| `ConfigMapStore.EvalIs` | internal/store/configmap.go:70-200 | exactly when each operation is refused and why, and what it stores otherwise |
| `ConfigMapStore.ResultSize` | internal/store/configmap.go:335-341 | the bytes of a result |
| `ConfigMapStore.ReadDecides` | internal/store/configmap.go:70-200 | a read leads to a refusal or to a write of the result over the version read |
| `ConfigMapStore.ConflictRetries` | internal/store/configmap.go:70-90 | a conflict is retried and given up after the fifth |
| `ConfigMapStore.MissingMapIsMade` | internal/store/configmap.go:301-329 | only a create makes a missing ConfigMap, and fails if another call was first |
| `ConfigMapStore.RefusalsAreJustified` | internal/store/configmap.go:169-204 | each already-exists, not-found or too-large answer is the serial store's answer at a moment between call and return |
| `ConfigMapStore.OnlyCommitsChangeContents` | internal/store/configmap.go:301-347 | refusals, server errors, conflicts and exhausted retries change nothing |
| `ConfigMapStore.ExhaustionMeansOthersCommitted` | internal/store/configmap.go:70-90 | retries run out only if at least five other calls committed meanwhile |
| `ConfigMapStore.ContentsWithinLimit` | internal/store/configmap.go:331-347 | key plus value bytes never exceed 900·1024 |
| `ConfigMapStore.NamesStayUniqueIff` | internal/store/configmap.go:76-89 | create and delete keep names unique; an update does exactly when no other artifact has the name it brings |
| `ConfigMapStore.NamesUniqueInEveryRun` | internal/store/configmap.go:64-200 | in every run whose committed updates keep their artifact's name, names are unique |
| `ConfigMapStore.RenamingUpdateClashes` | internal/store/configmap.go:169-186 | an update that renames can produce two artifacts of one name |
| `ConfigMapStore.Total` | internal/store/configmap.go:335-338 | the loop sums keys and values in any order |
| `ConfigMapStore.HasName` | internal/store/configmap.go:76-82 | the loop finds a collision if and only if there is one |
| `ConfigMapStore.Attempt` | internal/store/configmap.go:70-204 | one attempt's closure equals the serial operation on the data it read |
| `EventBus.EveryRunIsSafe` | internal/events/bus.go:81-134 | the invariant of publishers, subscribers and channels holds in every interleaving |
| `EventBus.ChannelsAreSafe` | internal/events/bus.go:81-134 | no send hits a closed channel, no channel closes twice, no buffer exceeds 64 |
| `EventBus.ReceivedWhileRegistered` | internal/events/bus.go:81-134 | what reached a subscriber was published while it was registered, each event once |
| `EventBus.EventsAreAccountedFor` | internal/events/bus.go:95-102 | an event published in a subscriber's window is pending, delivered or dropped, and only one of these; no other event is |
| `EventBus.OfferDeliversIff` | internal/events/bus.go:95-102 | an offer delivers exactly while fewer than 64 events wait, and drops otherwise |
| `EventBus.LockOffersToAll` | internal/events/bus.go:92-96 | a publisher offers to every subscriber registered when it takes the lock |
| `EventBus.SubscriptionEnds` | internal/events/bus.go:108-134 | what subscribing, cancelling, deregistering, closing and receiving do |
| `EventBus.EventIdsAreDistinct` | internal/events/bus.go:82-83 | event numbers grow and their ids are distinct texts |
| `EventBus.Bus.Publish` | internal/events/bus.go:81-103 | every registered channel with room gets the event, full ones and others stay |
| `EventBus.Bus.Subscribe` | internal/events/bus.go:108-116 | a new open, empty channel under a new id |
| `EventBus.Bus.Unsubscribe` | internal/events/bus.go:117-126 | deregisters and closes on the first call only |
| `WorkerdLoader.EverySequenceIsSafe` | internal/workerd/loader.go:98-179 | after any operations the maps are inverse, and every port lies below the base plus the peak number of apps |
| `WorkerdLoader.PortsAreStableAndDistinct` | internal/workerd/loader.go:98-154 | an app keeps its port until removed; no two apps share one |
| `WorkerdLoader.OperationsRegister` | internal/workerd/loader.go:98-154 | exactly which apps are registered after each operation |
| `WorkerdLoader.ValidIdIff` | internal/workerd/loader.go:247-252 | exactly the non-empty ids without a slash and without two dots in a row |
| `WorkerdLoader.NewAppGetsLeastPort` | internal/workerd/loader.go:170-179 | a new app gets the smallest unused port |
| `WorkerdLoader.Pigeonhole` | internal/workerd/loader.go:170-179 | the search cannot pass more taken ports than there are entries |
| `WorkerdLoader.Loader.AssignPortLocked` | internal/workerd/loader.go:170-179 | the loop ends and assigns the least free slot in both maps |
| `WorkerdLoader.Loader.PutApp` | internal/workerd/loader.go:98-129 | assigns only for a valid new id whose script was written; fails exactly on an invalid id, a file or a reload error; returns the app's port |
| `WorkerdLoader.Loader.RemoveApp` | internal/workerd/loader.go:133-154 | removes the app from both maps; a missing app is no error |
| `WorkerdLoader.IdentsClashIff` | internal/workerd/loader.go:235-245 | two ids get one identifier exactly when they differ only outside [A-Za-z0-9] |
| `WorkerdLoader.ComputeGoIdent` | internal/workerd/loader.go:235-245 | the loop maps each character as specified |
| `WorkerdLoader.RenderIsUnambiguousIff` | internal/workerd/loader.go:204-230 | sockets, services and workers are linked app by app, and all their names are distinct, if and only if no two ids clash |
| `WorkerdLoader.DnsLabelsRenderUnambiguously` | internal/deploy/service.go:46 | for DNS-label ids of any reachable table the service, socket and worker names are distinct, each port leads to its own app's script, and ports differ |
| `WorkerdLoader.AcceptedIdsCanClash` | internal/workerd/loader.go:235-252 | two accepted ids with the same rendered names |
| `TtlCache.EveryRunIsSafe` | internal/auth/identity.go:61-112 | the invariant of cache and calls holds in every interleaving |
| `TtlCache.NeverTooLarge` | internal/auth/identity.go:77-112 | the cache never exceeds its maximum, or one entry if the maximum is less |
| `TtlCache.HitsAreFresh` | internal/auth/identity.go:61-87 | a hit was fetched by a call for the same key and is given at most one TTL after it was stored |
| `TtlCache.GetHitsIff` | internal/auth/identity.go:61-73 | in every run a call is answered from the cache exactly by a live entry with the value it wants |
| `TtlCache.LookupIff` | internal/auth/identity.go:61-73 | a lookup answers exactly while the entry is there and not past its expiry, with caching on |
| `TtlCache.StoredReads` | internal/auth/identity.go:77-87 | a put makes the key read the value for one TTL, drops the victim and keeps every other entry |
| `TtlCache.OneTtlIff` | internal/auth/identity.go:61-87 | a live entry is served within one TTL of its read in every continuation if and only if it was stored at the time of the read |
| `TtlCache.ComputedIsFinal` | internal/auth/identity.go:77-87 | what a call fetched and stored is never revised |
| `TtlCache.StoredIsBounded` | internal/auth/identity.go:77-87 | a put with its eviction keeps the bound |
| `TtlCache.Cache.Get` | internal/auth/identity.go:61-73 | present, unexpired and caching on |
| `TtlCache.Cache.EvictSoonestSampled` | internal/auth/identity.go:94-112 | drops the soonest to expire of a sample of min(16, size) entries, and nothing from an empty map |
| `TtlCache.Cache.Put` | internal/auth/identity.go:77-87 | stores with expiry now plus TTL, evicting one entry exactly for a new key in a full cache |
| `IdentityCache.Resolver.Resolve` | internal/auth/identity.go:134-156 | asks the store exactly on a miss, answers and caches what it found field by field, never a miss |
| `IdentityCache.IdentityAgesOneTtlIff` | internal/auth/identity.go:134-156 | in every interleaving of Resolve calls, a cached identity is served within one TTL of its read in every continuation if and only if the call that read it stored it at that time |
| `IdentityCache.PromptReadsAgeOneTtl` | internal/auth/identity.go:134-156 | a cached answer was read for that user by its source call, and is at most one TTL old if that call alone was prompt |
| `IdentityCache.SlowReadOutlivesTtl` | internal/auth/identity.go:144-155 | a run that serves a slow read for longer than one TTL |
| `ClaimFingerprint.EscapedEnds` | internal/auth/identity.go:189-191 | the escapes of a quoted field form a prefix code, whatever characters count as printable |
| `ClaimFingerprint.FingerprintInjective` | internal/auth/identity.go:189-191 | equal fingerprints mean four equal claims, whatever they contain |
| `OidcSync.ResolveDeptIs` | internal/auth/auth.go:690-711 | a claim resolves to the id its department then has, a new one being dept- and the slug, exactly unless it is empty or neither found nor created |
| `OidcSync.SlugIsSlug` | internal/auth/auth.go:714-731 | a slug holds lower-case letters, digits and single inner hyphens only |
| `OidcSync.SlugKeepsLetters` | internal/auth/auth.go:714-731 | a slug keeps every letter and digit in order |
| `OidcSync.SlugCollisionIsUnresolvable` | internal/auth/auth.go:702-731 | two department names with one slug: the second cannot be resolved although nothing fails |
| `OidcSync.UserStore.ResolveOidcDepartment` | internal/auth/auth.go:690-711 | lookup, insert and second lookup equal the specification |
| `OidcSync.UserStore.SyncOidcUser` | internal/auth/auth.go:644-684 | the in-place edits equal the specification on every path |
| `OidcSync.SyncedIs` | internal/auth/auth.go:644-684 | a persisted sync leaves the claimed role and email, any other leaves the users as they were, other users are untouched, refusal is exactly a foreign provider |
| `OidcSync.SyncUserIs` | internal/auth/auth.go:644-684 | exactly how a sync ends and every field it leaves, for a known and for a new user |
| `OidcSync.DepartmentStoredIff` | internal/auth/auth.go:644-711 | a persisted sync has stored the claimed department if and only if the claim is empty, it could be resolved, or the user was in it already |
| `OidcSync.PersistedMatchesAllClaimsIff` | internal/auth/auth.go:641-711 | exactly when a persisted record says what all four claims say |
| `OidcSync.PersistedCanDifferFromClaims` | internal/auth/auth.go:641-711 | inputs at which a persisted record differs from each kind of claim |
| `OidcSync.OidcSyncer.SyncClaims` | internal/auth/identity.go:184-204 | skips exactly on a fresh equal fingerprint; resolves the department from the claim; caches exactly persisted syncs |
| `OidcSync.EveryRunIsSafe` | internal/auth/identity.go:184-204 | the invariant of store, cache and syncs holds in every interleaving with administrators editing users and departments |
| `OidcSync.SkippedSyncsWerePersisted` | internal/auth/identity.go:184-204 | a skipped sync had the same subject and the same four claims in a sync that persisted its user and was stored within the TTL; role and email are on record, the department exactly under its condition; refused and unpersisted syncs never cause a skip |
| `OidcSync.UnresolvedDepartmentIsSkipped` | internal/auth/identity.go:184-204 | for every claim naming an unresolvable department: a run that persists the user without it and skips the next sync |
| `RouteTable.EnsuredIs` | internal/router/caddy.go:71-97 | the id has exactly the given route, other routes keep place and content, ids stay unique |
| `RouteTable.DeletedIs` | internal/router/caddy.go:101-113 | the id has no route, other routes keep place and content, ids stay unique |
| `RouteTable.PushedIs` | internal/router/reconciler.go:113-164 | a push that duplicates nothing gives the id exactly the wanted route if it succeeds and changes nothing if it fails; other routes keep place and content |
| `RouteTable.PushedSpares` | internal/router/caddy.go:71-113 | whatever the answers, routes of other ids are untouched |
| `RouteTable.ReconcileWorksIff` | internal/router/caddy.go:71-113 | ids stay unique and success means the wanted route, exactly unless the PATCH of a present id is refused and the POST is not |
| `RouteTable.PushSucceedsIff` | internal/router/caddy.go:71-113 | exactly when a push reports success, for every answer |
| `RouteTable.WantedIs` | internal/router/reconciler.go:133-183 | which app gets a route, and which: the published target before the pod, a bare pod address with the app port |
| `RouteTable.FilterPassesIff` | internal/router/reconciler.go:93-109 | the filter passes an update exactly if a watched field changed |
| `RouteTable.FilterIsLossless` | internal/router/reconciler.go:93-164 | dropping the rejected updates yields the same table, in the same order, as reconciling every update |
| `RouteTable.StaleWithoutHostIff` | internal/router/caddy.go:190-201 | a reconcile misses the wanted route exactly for a routable app without a host whose route was not right already |
| `RouteTable.HostlessUrlLeavesStaleRoute` | internal/router/caddy.go:190-201 | a URL without a host, and the route that stays |
| `RouteTable.PublishedUrlHasHost` | internal/controller/vibedapp_controller.go:853-867 | the URLs the controller publishes always have a host |
| `RouteTable.HostOfPublishedUrl` | internal/router/reconciler.go:146-151 | a URL built from host, port and path is taken apart to its host |
| `RouteTable.Caddy.EnsureRoute` | internal/router/caddy.go:71-97 | PATCH, then POST after any answer outside 2xx; refuses an incomplete route |
| `RouteTable.Caddy.DeleteRoute` | internal/router/caddy.go:101-113 | removes the id's route, an absent one being success; an empty id is an error |
| `RouteTable.Caddy.Reconcile` | internal/router/reconciler.go:113-164 | the in-place reconcile equals its specification, error included |
| `RouterQueue.RouterWantIsProper` | internal/router/reconciler.go:93-183 | the route an app should have depends on the fields the filter watches only |
| `RouterQueue.EveryRunIsSafe` | internal/router/reconciler.go:66-164 | the invariant of apps, queue and routes holds in every run that duplicates nothing |
| `RouterQueue.SettledRoutesAreRightIff` | internal/router/reconciler.go:66-164 | with filtering, failures, delays and restarts: an id with nothing queued has exactly the wanted route if and only if no restart lost its deletion; ids are unique, foreign routes stay |
| `RouterQueue.RoutedIffReady` | internal/router/reconciler.go:133-164 | a settled id has a route iff its app is Ready with URL and upstream, and then the right one |
| `RouterQueue.FineWorkSettles` | internal/router/reconciler.go:113-164 | working off an id with proper answers settles it, unless its route is incomplete |
| `RouterQueue.EventsAreQueued` | internal/router/reconciler.go:66-79 | which events queue an id |
| `RouterQueue.IdsStayUniqueIff` | internal/router/caddy.go:83-96 | ids stay unique all along a run if and only if no reconcile of it duplicates |
| `RouterQueue.RefusedPatchDuplicates` | internal/router/caddy.go:83-96 | a run with successful reconciles that ends with two routes of one id |
| `RouterQueue.RestartLosesIff` | internal/router/reconciler.go:117-130 | after a restart an id is queued or right, exactly unless its deletion was queued and its route still there |
| `RouterQueue.OrphansExactly` | internal/router/reconciler.go:117-130 | the ids with a stale route are exactly those whose deletion some restart lost and that were not created since |
| `RouterQueue.UnqueuedStays` | internal/router/reconciler.go:117-130 | such a route stays in every continuation until the id is created again |
| `RouterQueue.DeletionLostAtRestart` | internal/router/reconciler.go:117-130 | a run that leaves the route of a deleted app with nothing queued |

## Left out

- Kubernetes clients, informers, watches, Caddy HTTP, object storage, the filesystem and process calls: their answers are step or method parameters. Except for the object writes of DeployProtocol, an error answer means that the call had no effect.
- Hypotheses on answers: bound claims carry a pod IP without `|`, published URLs and fast-lane targets are not empty (`GoodEnv`); live app names are unique and fixed per uid (`EventBridge.Possible`); version keys are fresh; route ids are injective in namespace and name; the router runs as one replica.
- Clocks: one reading per reconcile pass and per Authorize; the cache modules take separate readings for lookup and store.
- Pointers: tracker entries are indices into a heap that keeps every attempt; Go contexts are a cancelled flag.
- Crash between a status write and its usage event: the two are one step, so metering is stated for crash-free hand-over only.
- Progress: nothing is proved about redeploys being re-injected, exit from Failed, or goroutines being scheduled.
- Wrap-around of 64-bit counters (generation, reservation ids, event numbers) is not modelled; integers are unbounded.
- Quota.Enforcer.Authorize: is one call run by itself, on the counts it is given; calls of several callers interleave in QuotaProtocol.
- QuotaProtocol.CeilingHoldsWhenCovered: assumes that only gated new deploys add apps to a key.
- DeployService.Service.StoredAreReferenced: holds for sequences in which every call succeeds; a redeploy whose update is refused leaves an unreferenced blob.
- RunnerAgent.EveryRunIsSafe: what a user process writes into the workdir, the text of log lines and the file names inside a payload are not modelled; stopping is atomic because the supervisor's exit step commutes with it.
- EventBus.EveryRunIsSafe: the write-locked sections are single steps that wait for the read locks to be given back.
- ConfigMapStore.EveryRunIsSafe: nobody deletes or edits the ConfigMap outside the store; the sibling ConfigMap of version entries and its key prefixes are not modelled; a text and the name it unmarshals to are stored together.
- WorkerdLoader.Render: the sorted order of ids and the text layout of config.capnp are not modelled; the theorems hold for any order.
- ClaimFingerprint.FingerprintInjective: claims are sequences of Unicode characters; bytes that are not valid UTF-8 are not modelled.
- OidcSync.ResolveDeptIs: department ids are not empty, and lower-casing is modelled for ASCII letters.
- RouteTable.ReconcileWorksIff: the JSON body and TLS are not modelled; which of two routes of one id Caddy would address afterwards is left open.
- Share links, audit, metrics, authorization checks, token verification, SQLite and memory stores, pagination, log streaming, classifier rules, configuration, the MCP tools, the API layer and the web UI: easy branches or glue.
