# backup-maker-controller: a verified model of the control loop

The controller watches two custom resources. A `ScheduledBackup` (SB) is rendered into helper objects and a CronJob
whenever its spec changes. A `RequestedBackupAction` (RBA) is rendered into Jobs once. Two reconcilers create objects,
two observers aggregate the health of Jobs into the status, and all four share one lock, one API server with optimistic
concurrency, and a cache that may be behind. This project models that protocol and the algorithms it is built from,
and proves what holds in every run.

## How the model is laid out

* **The step machine.** `ControlPlane` holds the state (lock list, any number of workers, RBAs, SBs with all their
  versions, objects with labels and pod counts) and one event per call to the outside: Obtain, read, hydrate, render,
  apply one document, examine one reference, judge, status get, status update, Done, user edits, Job progress, crash.
  All nondeterminism sits in the event (which cached version was read, whether a call failed, whether a successful call
  was reported as such), so a run is a list of events and "in every run" is a quantifier over lists.
  `LockProtocol`, `ActionProtocol`, `ActionTheorems`, `ActionExactness`, `HealthTheorems`, `BackupProtocol`,
  `BackupFreshness`, `BackupTraces` and `BackupStanding` prove invariants and theorems over all runs; `ActionSweeps`,
  `BackupSweeps` and `BackupLapses` build concrete ones. The histories the theorems speak of (the calls of an RBA, the
  installations of an SB) are tied to the objects in the cluster by `StoreProtocol`.
* **The Reconcile methods.** `Reconcilers` holds the four `Reconcile` methods with their retry, apply and health loops,
  written step by step. Each drives the machine, so whatever it does is a legal run to which the theorems apply, and
  between any two of its steps all other workers, users and the cluster may do anything (`Interfere`). Its contract says
  exactly what it did to its own object, as if it had run alone; `Isolation` is the reason why it can.
* **The GPG key.** `SecretProtocol` is a second machine: any number of hydrators, also under different locks, share one
  Secret through stale reads and versioned writes. `Hydration` holds `hydrateGPGSecret` itself, on the mutable `Secret`
  of `Gpg`, with other hydrators interfering.
* **The parts.** `Locking` (in-place list removal, lock identifiers), `References` (apiVersion encoding), `Rendering`
  (manifest splitting and kind filters), `Variables` (dotted-path merge in any map order), `Aggregate` (the shared
  variable map and the key it carries), `KeyDelivery` (a key from the Secret to a render pass), `Cluster` (labels,
  upsert, apply loop), `Health` (verdict and report loops), `SaveRetries` (conflicts of a status write).

A RequestedBackupAction is read from the API server; a ScheduledBackup and every Secret come from a cache that may
return any earlier version. "Caught up" is therefore a hypothesis of some theorems and is spelled out in
`BackupFreshness.CaughtUp` (reads caught up, no recorded hash lost) and `BackupTraces.Fresh` (reads caught up only).

## What turned out to be false

* The SB observer overwrites the whole status from its cached snapshot. With a stale cache it takes back a recorded
  hash, and the same generation is applied again: `BackupSweeps.StaleObserverCausesReapply` is a run without any fault,
  for every spec. Exactly when this happens is `StaleObserverLosesRecordExactly`: the last complete application was
  recorded after the version read, and is of another spec than what had been recorded by then (a spec edited away and
  back again is recorded twice under the same hash, and nothing is lost). The next Reconcile starts over exactly when
  the version the observer had read does not show the current spec's hash (`StaleObserverCausesReapplyExactly`). With a
  caught-up cache no update is lost (`NoLostBackupUpdate`).
* The same overwrite can skip an edit for good: the spec goes from `a` to `c` and back to `a`, and before the reconciler
  comes an observer that still sees `a` applied. The edit back then looks applied, Reconcile leaves at once, and the
  cluster holds what `c` asked for (`BackupSweeps.StaleObserverHidesEdit`, a run without any fault). Exactly when a pass
  hides an edit is `StaleObserverHidesEditExactly`. An unchanged look means in general only that the spec was applied
  once before (`UnchangedLookMeansAppliedBefore`).
* An edit is skipped for good even if every read is caught up and no status write is lost: `a` is applied, a pass over
  `c` replaces its documents and then fails halfway, and the spec goes back to `a`. The hash of `a` is still the one
  recorded, Reconcile leaves at once, and the cluster holds what `c` asked for (`BackupLapses.FailedPassHidesEdit`). An
  unchanged look then means applied completely last, not in place (`UnchangedLookMeansAppliedLast`): a document of that
  installation stands exactly when no later one of its list named the same object, this SB has made no call on the
  object since, and nobody else has.
* The same happens when `c` is applied completely but the status write that records it fails for good
  (`BackupLapses.LostRecordHidesEdit`; exactly when, is `LostRecordHidesEditExactly`). Under caught-up reads, whatever
  else is lost or fails, an unchanged look means recorded last, and which documents of the recorded installation stand is
  `UnchangedStandsExactly`. What a user can check is the condition: as long as the status write that announces a pass is
  not lost, `BackupObjectsInstallation` = True rules both cases out (`SuccessMeansInPlace`). It is not the other way
  round: a pass that fails while rendering leaves False with every document in place (`FailedRenderHidesNothing`).
* The reconciler's own stale read repeats an application too (`StaleReadCausesReapply`): it goes on over a version
  exactly when that version does not show the hash of its own spec (`ReconcilerGoesOnExactly`).
* References collected for an SB are never stored (`pkg/controllers/scheduledbackup_controller.go:146-162`), so its
  observer always publishes an empty report and `Healthy = true` (`BackupHealthIsVacuous`). Reference properties are
  stated for RBAs only.
* A Job that has not run to its end can count as succeeded. A published `Healthy = true` takes exactly those Jobs for
  finished too early of which, when they were listed, either nothing had been heard since they were created or the last
  report said that they had not run to their end (`HealthTheorems.PublishedTooEarlyExactly`). Reconcile followed by
  observe stores it before a single pod was started (`ActionSweeps.HealthyBeforeAnyPod`).
* Reconcile reports success even when its last status write was lost (`Reconcilers.ActionOutcome`), and then the whole
  action is applied again:
  `ActionSweeps.LostWriteRunsTwice` ends with two Jobs. In every reachable state another pass can follow exactly when
  Processed is not stored (`AnotherPassExactly`), and a complete pass stores it exactly when its write is not lost
  (`CompletePassStoresExactly`).
* The two call sites that pick the key to render use the names as written in the spec, not the getters with defaults: a
  spec that relies on the default names stores its key pair and then renders an empty key
  (`Aggregate.KeyFoundExactlyWhenNamed`).
* The creation path ignores a failed key generation and hydrates an aggregate without keys
  (`FailedGenerationHydratesWithoutKeys`). In every run this is the only way to lack keys (`LacksKeysExactly`).
* A key stored under the name of the e-mail entry is hidden by the e-mail address in memory
  (`EmailNameHidesPrivateKey`), and with an empty address, should the generator accept one, the complete pair on the
  server is replaced (`EmptyEmailReplacesPair`); exactly when, is `Gpg.UpdateKeepsPairExactly`.
* Specs that share one Secret keep its key pair exactly when they are compatible (`CompatibleExactly`); one that shares
  only one of the two names replaces a complete pair (`IncompatibleReplacesPair`).
* The comment at `pkg/factory/aggregate_factory.go:127` speaks of a fresh Secret, but the client used may read from the
  manager's cache. The model lets the second read return any version; the proof rests on the versioned update.
* The 15 minute requeue of the SB reconciler is never taken, because every hydration error asks for a requeue.

## Model

| member | source | states |
|---|---|---|
| LockProtocol.MutualExclusion | pkg/controllers/requestedbackupaction_controller.go:76-84 | in every run of the four reconcilers no two workers are inside for the same namespaced name; the lock list is duplicate-free and names exactly the workers inside; nothing stays locked when all rest |
| LockProtocol.StepKeepsLocks | pkg/locking/inmemory.go:13-26 | every step, Obtain, Done and restart included, keeps the list equal to the sessions held, although Done removes by identifier alone |
| LockProtocol.OthersElsewhere | pkg/controllers/scheduledbackup_jobs_observer.go:45-53 | two different workers inside work on different objects |
| Locking.RemoveFromList | pkg/locking/inmemory.go:45-57 | shifting the backing array in place leaves exactly the list without the first occurrence of the key, and nothing beyond it moves |
| Locking.ShiftDown | pkg/locking/inmemory.go:56 | everything behind the index moves one place down in the shared array, and nothing else changes |
| Locking.RemoveExact | pkg/locking/inmemory.go:45-57 | on a duplicate-free list removal takes away that identifier and nothing else |
| Locking.InMemoryLocker.Obtain | pkg/locking/inmemory.go:13-22 | refused exactly when the identifier is held; otherwise it is appended |
| Locking.InMemoryLocker.Done | pkg/locking/inmemory.go:24-26 | removes the session's identifier whoever asks, keeping the list duplicate-free |
| Locking.InMemoryLocker.IsLocked | pkg/locking/inmemory.go:32-39 | true exactly for held identifiers |
| Locking.LockCycle | pkg/locking/inmemory.go:13-26 | Obtain, a refused second Obtain and Done restore the list |
| Locking.LockIdInjective | pkg/locking/locker.go:35-37 | requests whose namespaces hold no slash have distinct lock identifiers, whatever their names |
| Locking.LockIdUnique | pkg/locking/locker.go:35-37 | a request without any slash shares its identifier with no other request of whatever shape |
| Locking.LockIdCollision | pkg/locking/locker.go:35-37 | a request shares its identifier with another one if and only if one of its parts contains the separator |
| ActionProtocol.StepKeepsInv | pkg/controllers/requestedbackupaction_controller.go:69-127 | every step keeps: a worker's snapshot of an RBA is what the server still holds, what it is about to store differs from it only where its role may, recorded references are Jobs of reported calls |
| ActionTheorems.NoLostStatusUpdate | pkg/controllers/requestedbackupaction_controller.go:130-160 | in every run each change of an RBA status is an observer's write that differs from what the server held in the health report only, or a reconciler's write that keeps the report, only appends references and never withdraws the flag; its condition is True with the flag and False without, for the generation written to, and Healthy is withdrawn exactly when it is not True |
| ActionTheorems.EveryWriteIsFaithful | pkg/controllers/requestedbackupaction_jobs_observer.go:81-95 | the same for one step from any state satisfying the invariant, together with: a processed action gets no further call |
| ActionTheorems.ProcessedIsFinal | pkg/controllers/requestedbackupaction_controller.go:98-124 | after any history, once Processed is stored no continuation resets it, changes anything but the health report, begins another pass, or makes one more create or update call for that action |
| ActionTheorems.ReferencesAreSound | pkg/apis/riotkit/v1alpha1/childreference.go:47-70 | over any run references are append-only, pairwise distinct, and each belongs to a Job whose creation was reported and which is in the cluster, under its label unless a later call rewrote it |
| ActionTheorems.ProcessedIsTracked | pkg/bmg/applying.go:29-43 | in every reachable state a processed RBA has a reference, all references decode to batch/v1 Job, and an error-free report has one entry per reference |
| HealthTheorems.PublishedHealthIsSound | pkg/controllers/requestedbackupaction_jobs_observer.go:60-76 | whenever Healthy = true is newly stored, its observer listed every stored reference, each listing was the cluster's at some moment since this observer obtained the lock, and it found at least one Job for each and none with failed or active pods; nothing is stored while a reported entry is running |
| HealthTheorems.PublishedEntriesSpeak | pkg/integration/kubernetesjob.go:45-74 | in every run each entry of a newly published report is about the reference in the same place, under its tracking identifier, and says how its Jobs were in a listing made since the observer's own Obtain |
| HealthTheorems.EvidenceIsReal | pkg/controllers/owned_references_health.go:17-36 | each listing in that evidence is what the cluster held at that very step, for the next reference of the stored list |
| HealthTheorems.ListsExactly | pkg/integration/kubernetesjob.go:28 | what the label selector answers: exactly the batch Jobs of the namespace under that label, once each, as they are |
| HealthTheorems.AllGenuine | pkg/controllers/owned_references_health.go:17-36 | in every run, whatever a worker on an action has collected so far consists of listings made since it entered, each for the reference in the same place |
| HealthTheorems.PublishedTooEarlyExactly | pkg/integration/kubernetesjob.go:45-74 | in every run, a newly published Healthy = true rests for each reference on a listing without failed and active pods, in which exactly those Jobs have not run to their end of which nothing heard by then says so |
| HealthTheorems.ProgressIsWhatWasHeard | pkg/bmg/utils.go:39-66 | in every run an object has run to its end exactly when the last that was heard of it says so; creating and updating it change nothing about that |
| ActionExactness.ReferencesAreConserved | pkg/bmg/applying.go:32-43 | in every run whose status writes land, with any partial failures, retries and restarts that lose no references, the stored references of a resting RBA are exactly those of its reported CreateOrUpdate calls, in order |
| ActionExactness.ActionRunsExactlyOnce | pkg/controllers/requestedbackupaction_controller.go:106-124 | in fault-free runs a resting RBA is untouched, or processed after one single pass in which call j applied rendered document j, each document exactly once; each is in the cluster unless a later call rewrote its object, and the references are those applications |
| StoreProtocol.StoreIsWhatWasWritten | pkg/bmg/utils.go:19-68 | in every run each object is the document of the last call that took effect on it, under that call's label, and otherwise what it was at the start; every call wrote to the object its document names, in the namespace of its request |
| StoreProtocol.CallsAreInTheCluster | pkg/bmg/applying.go:29-43 | in every run the calls of an RBA are calls the cluster saw for it; the object of each exists, carries the call's label and document unless a later call rewrote it, and no other object carries that label |
| StoreProtocol.InstallationsAreInTheCluster | pkg/bmg/applying.go:29-43 | in every run each complete application of an SB applied every document of its rendered list once, in order, and each is in the cluster unless a later call rewrote its object |
| StoreProtocol.StepKeepsStore | pkg/bmg/utils.go:19-68 | every step keeps: the record of calls, the store, the calls of each RBA and the installations of each SB agree |
| ActionSweeps.AnotherPassExactly | pkg/controllers/requestedbackupaction_controller.go:98-124 | in every reachable state with a reconciler at rest and the lock free, some continuation begins another pass if and only if Processed is not stored |
| ActionSweeps.CompletePassStoresExactly | pkg/controllers/requestedbackupaction_controller.go:117-126 | for any rendered list of Jobs and any answers that let it through, Processed is stored when the status write of the pass lands and not when it is lost; the calls made are the same |
| ActionSweeps.LostWriteRunsTwice | pkg/controllers/requestedbackupaction_controller.go:155-159 | a run: the last status write is lost, the next Reconcile applies the action again, two complete passes, two Jobs, one stored reference |
| ActionSweeps.HealthyBeforeAnyPod | pkg/integration/kubernetesjob.go:45-74 | a run without any Job progress: reconcile, observe, and Healthy = true is stored for a Job that has not run |
| SaveRetries.ActionWriteSurvivesFourConflicts | pkg/controllers/requestedbackupaction_controller.go:131-160 | a status write of an RBA that meets fewer than five conflicts lands over the object as it is then; at five it is given up without a trace |
| SaveRetries.BackupWriteSurvivesFourConflicts | pkg/controllers/scheduledbackup_controller.go:144-167 | the same for the condition and the hash of an SB |
| Dependencies.NothingWithoutDependencies | pkg/controllers/scheduledbackup_controller.go:95-117 | in every run a worker that renders, applies, examines, publishes or records has hydrated its aggregate with success since it asked for the lock: a missing dependency stops all of it |
| BackupProtocol.UnchangedLookMeansAppliedBefore | pkg/controllers/scheduledbackup_controller.go:119-133 | in every reachable state, with arbitrarily stale caches, concurrent edits, lost writes and restarts, a version looks unchanged only if at some earlier point every document rendered for that very spec was applied; each is in the cluster unless a later call rewrote its object |
| BackupStanding.UnchangedLookMeansAppliedLast | pkg/controllers/scheduledbackup_controller.go:89-133 | with caught-up reads and no lost hash a resting SB looks unchanged if and only if its spec is the one of the last complete application; each document of that installation stands as applied if and only if no later one of its list named the same object, this SB made no call on it since, in a pass that failed halfway, and nobody else did |
| BackupStanding.UnchangedStandsExactly | pkg/bmg/applying.go:29-45 | with caught-up reads, whatever status writes, applies or processes fail, an SB looks unchanged if and only if its spec is the one recorded last, and a document of the installation recorded then stands as applied if and only if neither its own list, nor this SB in an unfinished or unrecorded pass, nor anybody else wrote its object since |
| BackupStanding.SuccessMeansInPlace | pkg/controllers/scheduledbackup_controller.go:101-133 | with caught-up reads and no lost announcement, a True condition means that this SB's calls end with those of its last complete application, which is the recorded one: it has replaced none of these documents itself, and a document stands if and only if no later one of the list and nobody else wrote its object |
| BackupStanding.LostRecordHidesEditExactly | pkg/controllers/scheduledbackup_controller.go:143-168 | with caught-up reads an SB looks unchanged although another spec was applied last if and only if its spec is the one recorded last and, of the applications completed since without a record, the last is of another spec |
| BackupTraces.StepTraces | pkg/controllers/scheduledbackup_controller.go:89-133 | every step with a caught-up read keeps: the hash shown is that of the last record, each installation was made in a row of this SB's calls, and, if announcements are not lost, under a True condition nothing was called since the recorded one |
| BackupLapses.FailedPassHidesEdit | pkg/bmg/applying.go:32-42 | a run with caught-up reads and no lost status write: a pass over another spec replaces a document and fails, and an edit back looks unchanged over the other spec's document |
| BackupLapses.LostRecordHidesEdit | pkg/controllers/scheduledbackup_controller.go:129-167 | a run with caught-up reads: a complete application whose True write fails for good, and an edit back that looks unchanged over the other spec's document |
| BackupLapses.FailedRenderHidesNothing | pkg/controllers/scheduledbackup_controller.go:119-126 | a run with caught-up reads and no lost status write: a pass over another spec fails while rendering, the condition is False, and an edit back looks unchanged over its own document |
| BackupProtocol.StepKeepsBackups | pkg/controllers/scheduledbackup_controller.go:143-168 | every step keeps: each recorded hash is that of a complete application, and every snapshot is a version the server once held |
| BackupProtocol.BackupHealthIsVacuous | pkg/controllers/scheduledbackup_jobs_observer.go:62-76 | in every run no version of an SB stores references, and its observer can only send an empty report with Healthy = true |
| BackupProtocol.HealthLoopNeverPanics | pkg/apis/riotkit/v1alpha1/childreference.go:25-41 | in every run no step decodes a reference out of range: a restart is always an outside crash |
| BackupFreshness.NoReconcileLoop | pkg/controllers/scheduledbackup_controller.go:89-139 | with a caught-up cache and no lost hash, however often Reconcile fires, successive complete applications use strictly newer generations, so there are at most as many as generations of the spec |
| BackupFreshness.RecordedHashIsExact | pkg/apis/riotkit/v1alpha1/scheduledbackup_types.go:98-139 | in those runs a resting SB has recorded each complete application by one write, in order, and looks unchanged if and only if its spec is the one of the last of them |
| BackupFreshness.NoLostBackupUpdate | pkg/controllers/scheduledbackup_jobs_observer.go:80-94 | in those runs every status change of an SB is an observer's write that keeps hash and conditions, or a reconciler's write that keeps the report and records the hash of what was just applied |
| BackupFreshness.ChangedIsNewer | pkg/apis/riotkit/v1alpha1/scheduledbackup_types.go:137-139 | a version that looks changed to a caught-up reader is of a strictly newer generation than everything applied |
| BackupSweeps.UnchangedIsNoOp | pkg/controllers/scheduledbackup_controller.go:89-139 | on an unchanged spec Reconcile takes and releases the lock and leaves everything else as it was |
| BackupSweeps.ObserverSweep | pkg/controllers/scheduledbackup_jobs_observer.go:36-94 | a pass of the SB observer stores the whole status of the version it read, whichever it was |
| BackupSweeps.StaleObserverLosesRecordExactly | pkg/controllers/scheduledbackup_jobs_observer.go:82-92 | after any caught-up run, a pass of the observer from a given version loses the recorded hash if and only if the last complete application was recorded after that version and is of another spec than what had been recorded by then; and afterwards the current spec looks unchanged if and only if that version shows its hash |
| BackupSweeps.StaleObserverHidesEditExactly | pkg/controllers/scheduledbackup_jobs_observer.go:82-92 | after any caught-up run, the pass makes a spec that looked changed look unchanged if and only if that version shows the current spec's hash while the last complete application is of another spec |
| BackupSweeps.StaleObserverHidesEdit | pkg/controllers/scheduledbackup_jobs_observer.go:80-94 | a fault-free run: a spec is edited away and back, a stale observer makes the edit back look applied, Reconcile leaves at once, and the cluster holds the other spec's document |
| BackupSweeps.StaleObserverCausesReapplyExactly | pkg/controllers/scheduledbackup_controller.go:89-93 | the next Reconcile, reading what the observer stored, starts over if and only if the version the observer had read does not show the current spec's hash; on an unchanged spec that is if and only if the record was superseded |
| BackupSweeps.ReconcilerGoesOnExactly | pkg/controllers/scheduledbackup_controller.go:83-93 | after any caught-up run, Reconcile goes on over a version the cache serves if and only if that version does not show the hash of its own spec |
| BackupSweeps.StaleReadCausesReapply | pkg/factory/fetching.go:26-30 | a fault-free run: the reconciler alone, reading the first version twice, applies the one and only generation twice |
| BackupSweeps.ReconcilerSweep | pkg/controllers/scheduledbackup_controller.go:89-133 | for any rendered list and any answers that let it through, a pass over a changed spec stores Unknown, applies every document in order, and stores True with the hash of the version read |
| BackupSweeps.StaleObserverCausesReapply | pkg/controllers/scheduledbackup_jobs_observer.go:80-94 | without a caught-up cache, for every spec, a fault-free run applies the one and only generation twice |
| Isolation.StepElsewhere | pkg/controllers/scheduledbackup_controller.go:75-83 | while a worker is inside, no step of anybody else touches the status, the calls or the applications of its object |
| Isolation.RunElsewhere | pkg/controllers/scheduledbackup_controller.go:75-83 | the same over any stretch of other activity |
| Reconcilers.Operator.ReconcileAction | pkg/controllers/requestedbackupaction_controller.go:69-127 | under arbitrary interference: refused exactly when locked, lock free afterwards, no effect on a processed action, otherwise new call j applied document j of the rendered list, up to the first failure, and the status is the old one or the old one with those references, the outcome and, on success only, the flag; fetching, hydrating and generating decide where it stops, and the list is what the manifest of its operation holds |
| Reconcilers.Operator.Stands | pkg/bmg/applying.go:29-43 | whatever the four methods did, every call they made for an action and every installation of an SB is in the cluster, unless a later call rewrote the object |
| Reconcilers.Operator.Proceed | pkg/controllers/requestedbackupaction_controller.go:86-127 | what `ReconcileAction` promises, for the part after the lock was obtained: fetch, hydrate, leave a processed action alone, otherwise render, apply and store |
| Reconcilers.Operator.ParseAction | pkg/bmg/templating.go:40-45 | whatever the manifests hold, an action renders the Jobs of its operation's manifest, or fails |
| Reconcilers.Operator.Perform | pkg/controllers/requestedbackupaction_controller.go:106-126 | the same for the part that renders, applies and stores |
| Reconcilers.Operator.RenderAction | pkg/bmg/templating.go:40-45 | what is handed on to be applied are exactly the Jobs of the manifest of the action's operation, and the pass is on record before the first one |
| Reconcilers.Operator.ApplyObjects | pkg/bmg/applying.go:16-46 | the loop applies documents in order and stops at the first one not reported as applied; call j is that of document j, and the references carried on are exactly those of the reported calls |
| Reconcilers.Operator.UpdateActionStatus | pkg/controllers/requestedbackupaction_controller.go:130-160 | the retry loop ends with the wanted status stored under a generation seen meanwhile, or with the status untouched |
| Reconcilers.Operator.ObserveAction | pkg/controllers/requestedbackupaction_jobs_observer.go:36-95 | under arbitrary interference: nothing but the health report changes, it is the report of the listings made for the stored references in order up to an error, and nothing is stored while one is running; it gives up exactly when the action or a dependency is missing |
| Reconcilers.Operator.Observe | pkg/controllers/requestedbackupaction_jobs_observer.go:48-79 | the same for the part after the lock was obtained |
| Reconcilers.Operator.Report | pkg/controllers/requestedbackupaction_jobs_observer.go:57-79 | the same for the part after the action was read |
| Reconcilers.Operator.ExamineAction | pkg/controllers/owned_references_health.go:11-38 | the loop over the references, each listed at its own moment, ends at the last one or at the first failing lookup |
| Reconcilers.Operator.ListJobs | pkg/integration/kubernetesjob.go:28-32 | a listing that does not fail returns each labelled Job of the namespace exactly once, in some order |
| Reconcilers.Operator.ReconcileBackup | pkg/controllers/scheduledbackup_controller.go:64-140 | under arbitrary interference: no effect on an unchanged or busy spec; otherwise the application of the version read goes on record with one reported call per document of its rendered list, in order, or not at all, and the status carries the landed conditions in order, with the hash of that version only after success; it stops where something is missing, and the list is what both manifests hold for the spec of that version |
| Reconcilers.Operator.ReconcileChanged | pkg/controllers/scheduledbackup_controller.go:90-134 | the same for the part after the decision to act, failed hydration included |
| Reconcilers.Operator.Announce | pkg/controllers/scheduledbackup_controller.go:96-107 | hydrate, and announce the pass with Unknown in either case |
| Reconcilers.Operator.RenderDocuments | pkg/bmg/templating.go:27-39 | an SB renders the helper objects of both manifests and the CronJob of its own operation if enabled, as the spec of the version read says, or fails |
| Reconcilers.Operator.RenderBackup | pkg/bmg/templating.go:27-39 | what is handed on to be applied is what both manifests hold for the spec of the version read |
| Reconcilers.Operator.PutInPlace | pkg/bmg/applying.go:16-46 | render and apply: success means one reported call for each rendered document, in order, and only then the application goes on record |
| Reconcilers.Operator.Install | pkg/controllers/scheduledbackup_controller.go:119-134 | render, apply and record: an application is on record only with a reported call for every rendered document, in order, and only then the hash may be stored |
| Reconcilers.Operator.ApplyBackupObjects | pkg/bmg/applying.go:29-45 | the loop over the documents of an SB ends with one reported call for each, in order, or with nothing on record |
| Reconcilers.Operator.FetchBackup | pkg/factory/fetching.go:26-30 | the cache hands out some version the server held, and the reconciler goes on only if it looks changed and not busy |
| Reconcilers.Operator.UpdateBackupStatus | pkg/controllers/scheduledbackup_controller.go:143-168 | the retry loop ends with the condition written over the freshly fetched status, or with the status untouched |
| Reconcilers.Operator.ObserveBackup | pkg/controllers/scheduledbackup_jobs_observer.go:36-94 | under arbitrary interference: the status is the old one, or that of the version read with an empty report and Healthy = true; it gives up exactly when the object or a dependency is missing |
| SecretProtocol.KeyPairIsWriteOnce | pkg/factory/aggregate_factory.go:91-147 | in any interleaving of hydrators with compatible specs and any stale reads, once the server's Secret holds a complete key pair no further run changes either half |
| SecretProtocol.CompatibleExactly | pkg/gpg/secret.go:36-58 | an update under a spec keeps every complete pair, whatever is generated, if and only if the spec is compatible with the names of that pair |
| SecretProtocol.IncompatibleReplacesPair | pkg/gpg/secret.go:43-55 | a run: one hydrator with an incompatible spec replaces a complete pair of others |
| SecretProtocol.HydratedPairIsTheServers | pkg/factory/aggregate_factory.go:91-147 | every aggregate hydrated with createIfNotExists carries exactly the pair the server holds, then and ever after, unless its own hydrator has just created the Secret with a failed key generation |
| SecretProtocol.LacksKeysExactly | pkg/factory/aggregate_factory.go:101-117 | in every run an aggregate hydrated with createIfNotExists lacks keys if and only if the last step of its hydrator created the Secret with a failed key generation (names both equal to the e-mail's aside) |
| SecretProtocol.HydratesWithoutKeysExactly | pkg/factory/aggregate_factory.go:101-117 | the same for the one step that hydrates, from any state |
| SecretProtocol.UpdateKeepsInv | pkg/gpg/secret.go:36-58 | an update from any read version, refused or not, keeps the identity found in any version equal to that of all later ones |
| SecretProtocol.VersionsWrittenOut | pkg/gpg/secret.go:36-58 | in every run each new version of the Secret is a creation with the identity just generated (or the e-mail alone), or the version before it with a new identity: under distinct names the public half, the private half, the empty passphrase and the e-mail each under its own name, every other entry as before |
| SecretProtocol.HydratedFromServer | pkg/factory/aggregate_factory.go:91-101 | in every run a hydrator that must not create keys carries some version the server held, or nothing at all after a failed read |
| SecretProtocol.FailedGenerationHydratesWithoutKeys | pkg/factory/aggregate_factory.go:105-117 | a concrete run: key generation fails on the creation path and the aggregate is hydrated without keys |
| SecretProtocol.EmailNameHidesPrivateKey | pkg/gpg/secret.go:40-45 | a concrete run: with the private key under the e-mail name the hydrated aggregate differs from the server |
| SecretProtocol.EmptyEmailReplacesPair | pkg/gpg/secret.go:40-55 | a concrete run: with an empty e-mail on top the complete pair on the server is replaced |
| Hydration.SharedSecret.HydrateGpgSecret | pkg/factory/aggregate_factory.go:91-147 | for every spec the method is a legal run among interfering hydrators; it returns the data the aggregate then carries, or an error, and the Secret's versions are only added to; an identity it has generated itself is in the version just stored, each half under its own name |
| Hydration.SharedSecret.CreateSecret | pkg/factory/aggregate_factory.go:103-118 | nothing is stored when a Secret exists by now; success means none existed and what is returned is the only version stored |
| Hydration.SharedSecret.UpdateSecret | pkg/factory/aggregate_factory.go:125-143 | a version is read again and completed if still needed; a write lands only on the very version read, and the result is what was made of it |
| Hydration.SharedSecret.WriteBack | pkg/factory/aggregate_factory.go:133-142 | a new version is stored exactly when a new identity was made and nobody wrote since the copy was read; success returns that data |
| Hydration.SharedSecret.HydratedAgrees | pkg/factory/aggregate_factory.go:145-146 | the result holds the server's pair unless the hydrator's own last step created the Secret with a failed key generation |
| Gpg.Secret.ShouldUpdate | pkg/gpg/secret.go:60-88 | true exactly when the entry under the private or the public name, or its default, is missing or empty in Data overlaid with StringData; the overlay is written into an existing Data map |
| Gpg.Secret.UpdateWithRecreatedKey | pkg/gpg/secret.go:36-58 | stores the e-mail, and a new identity exactly when one was needed or forced and generation succeeded; under distinct names the public half, the private half and the empty passphrase stand under their own names and every other entry is as before |
| Gpg.NewIdentityExactly | pkg/gpg/secret.go:42-51 | an update makes a new identity if and only if it is forced or a half is lacking, and generation succeeds; a failed generation is an error |
| Gpg.NewIdentityWrittenOut | pkg/gpg/secret.go:40-55 | what it then writes, entry by entry, with the default names written out |
| Gpg.CreateNewSecret | pkg/gpg/secret.go:11-34 | the new Secret holds exactly the generated identity, entry by entry, or the e-mail only when generation failed |
| Gpg.RecreatedHasPair | pkg/gpg/secret.go:51-57 | with non-empty keys an update leaves a complete identity whatever names are configured |
| Gpg.UpdateKeepsPairExactly | pkg/gpg/secret.go:40-55 | an unforced update of a complete Secret generates anew if and only if an empty e-mail is stored over one of its halves, and keeps the pair whatever is generated if and only if the e-mail is not stored over a half with another text |
| Aggregate.BackupAggregate.Seed | pkg/factory/aggregate_factory.go:45-66 | seeds the token and the key text of the wanted operation into the shared variables |
| Aggregate.BackupAggregate.SeedForAction | pkg/factory/aggregate_factory.go:72-84 | an action's variables carry the key of its own operation, its target kind and the access token unless it is empty, every other variable is as before, and its spec can create no CronJob |
| Aggregate.BackupAggregate.RenderPasses | pkg/bmg/templating.go:27-38 | over any sequence of render passes on one aggregate each key file and definition carries the key of its own pass |
| Aggregate.BackupAggregate.RenderPass | pkg/bmg/templating.go:78-88 | one pass: the key file, and a definition that exists exactly when every name can be set and then carries key, kind and token at their paths |
| Aggregate.BackupAggregate.WriteGpgKey | pkg/bmg/templating.go:210-218 | the public key for a backup, the private key for a restore, in the file and in the variable alike |
| Aggregate.SeedAgreesWithRender | pkg/factory/aggregate_factory.go:49-66 | from seeding to the action's only render pass: the seeded key is the one it writes, and the definition carries key, kind and token under HelmValues.gpgKeyContent, HelmValues.kindType and Repository.token, read as paths |
| Aggregate.KeyFoundExactlyWhenNamed | pkg/bmg/templating.go:211-217 | the half of a key a pass needs is rendered if and only if its name is written out in the spec, whatever else the Secret holds; without a name or an entry the text is empty |
| Aggregate.IdentityRenders | pkg/bmg/templating.go:211-217 | with the names written out the public half goes into a backup and the private half into a restore |
| KeyDelivery.HydrateAndRender | pkg/bmg/templating.go:78-88 | from the Secret to a render pass while others interfere: an identity generated on the way arrives half by half, the public one in a backup and the private one in a restore, in the file and in the definition alike |
| Variables.WriteDefinition | pkg/bmg/templating.go:221-270 | for prefix-free names: an imported Secret entry wins over an additional variable, which wins over the original, incomparable paths are untouched, and it fails exactly when a scalar is in the way |
| Variables.PathOfDotted | pkg/bmg/templating.go:253-257 | a name without a dot is one key; a dot separates the first key from the path below it |
| Aggregate.DefinitionCarries | pkg/bmg/templating.go:244-261 | what `WriteDefinition` leaves of the key, the kind and the token: each as text under its path (Repository, then token, and so on) when the vars Secret imports none of the three names |
| Variables.MergeSource | pkg/bmg/templating.go:244-261 | the loop is a merge in some order of the keys, also when it stops early |
| Variables.OrderIndependent | pkg/bmg/templating.go:244-261 | for prefix-free keys the result is the same for every iteration order |
| Variables.OrderIndependentExactly | pkg/bmg/templating.go:244-261 | all orders agree if and only if the keys are prefix-free or no order succeeds at all |
| Variables.MergeResult | pkg/bmg/templating.go:244-261 | what one pass leaves at every key and at every incomparable path |
| Variables.GetAfterSet | pkg/bmg/templating.go:253-260 | setting a path stores the value there and changes no incomparable path |
| Rendering.ParseRenderedManifests | pkg/bmg/templating.go:163-207 | the accepted documents of all non-empty pieces in order, or an error if any piece does not decode |
| Rendering.ManifestRoundTrip | pkg/bmg/templating.go:168-177 | joining separator-free documents with any spaces and line breaks around them, blank ones in between, and parsing gives back exactly the non-blank ones, trimmed and in order |
| Rendering.DecodesEach | pkg/bmg/templating.go:177-181 | decoding is all or nothing, one document for each piece in its place |
| Rendering.ReplaceIsIdle | pkg/bmg/templating.go:171 | the Replace after the split never changes a piece |
| Rendering.KeepIsFilter | pkg/bmg/templating.go:183-204 | filtering keeps every accepted document with its multiplicity and nothing else |
| Rendering.KeepInOrder | pkg/bmg/templating.go:183-204 | the kept documents stand at strictly increasing places of the list, exactly those of accepted kinds |
| Rendering.RenderScheduledBackup | pkg/bmg/templating.go:27-39 | the documents of the backup manifest and then of the restore manifest, in order, each contributing every Secret, ConfigMap, SealedSecret and ExternalSecret, and its CronJobs if and only if it is the manifest of the own operation and they are enabled; nothing else; or an error |
| Rendering.RenderRequestedAction | pkg/bmg/templating.go:40-45 | exactly the Jobs of the manifest of the action's operation, in order, or an error |
| Rendering.RenderedKinds | pkg/domain/resourcetypes.go:26-54 | whatever the manifests hold, an action renders Jobs only; an SB renders no Job, and a CronJob only from its own operation's manifest and only when enabled |
| Rendering.RenderedKindsDisjoint | pkg/domain/resourcetypes.go:26-54 | the two resources never render objects of the same kind |
| Rendering.AcceptsIsMembership | pkg/bmg/templating.go:191-197 | comparing printed forms is membership in a filter of plain kinds, for every decoded kind with a slash-free group |
| References.ReferenceRoundTrip | pkg/apis/riotkit/v1alpha1/childreference.go:25-59 | a recorded reference always decodes, and to the object's own kind if and only if neither group nor version contains a slash |
| References.DecodeFailsWithoutSlash | pkg/apis/riotkit/v1alpha1/childreference.go:26-33 | decoding indexes out of range exactly when there is no slash |
| References.PrintInjective | pkg/integration/kubernetesjob.go:18-25 | equal printed forms of well-formed kinds mean equal kinds |
| References.PlainPrint | pkg/integration/kubernetesjob.go:18-25 | a kind of the controller's own lists is told apart from any other by its print, whatever version and kind text that other one has |
| References.PrintCollides | pkg/bmg/templating.go:192 | two concrete pairs of ill-formed kinds that print alike |
| Cluster.ApiServer.CreateOrUpdate | pkg/bmg/utils.go:19-68 | succeeds exactly when the calls it needs do, and then the object the document asks for is the labelled document with the progress it had; all other objects are as before, and on failure all are |
| Cluster.ApiServer.ApplyObjects | pkg/bmg/applying.go:16-46 | succeeds exactly when something was rendered and all of it applied; on failure the applied prefix stays, referenced in order |
| Cluster.ApplyAddsMissing | pkg/bmg/utils.go:39-66 | applying a list adds exactly its missing objects, makes every object it names the last document naming it, and leaves all other objects and the progress of all alone |
| Cluster.ApplyTwice | pkg/bmg/utils.go:39-66 | applying the same documents again changes labels only |
| Cluster.ApplyLabels | pkg/apis/riotkit/v1alpha1/childreference.go:62-70 | the label given to a document marks exactly its object, or nothing when a later document names that object again |
| Cluster.GeneratedAddsOne | pkg/bmg/utils.go:39-46 | a generateName document adds exactly one object each time |
| Health.GetScheduledJobHealthStatus | pkg/integration/kubernetesjob.go:27-75 | the loop with its early return computes the verdict of the whole listing |
| Health.VerdictClassifies | pkg/integration/kubernetesjob.go:34-74 | for a non-empty listing exactly one flag is set: failed if some Job has failures, else running if some is active, else succeeded |
| Health.VerdictOrderIndependent | pkg/integration/kubernetesjob.go:45-74 | the flags are the same for every permutation of the listing |
| Health.CreateOwnedReferencesHealthReport | pkg/controllers/owned_references_health.go:11-38 | the loop, skipping unrecognized kinds and stopping at the first lookup error, computes the report |
| Health.HealthyExactly | pkg/controllers/owned_references_health.go:14-37 | healthy with nothing running if and only if every recognized reference has Jobs and none with a failed or active pod; a lookup error rules it out |
| Health.EntriesWrittenOut | pkg/integration/kubernetesjob.go:45-74 | entry i of a report is about reference i, under its own tracking identifier, and its flags say how the Jobs listed for it were |
| Health.HealthyMeansNoneFailed | pkg/controllers/owned_references_health.go:11-38 | a report is healthy if and only if no lookup failed and no entry is a failed one |
| Health.RecognizedExactly | pkg/controllers/owned_references_health.go:17-24 | among kinds without slashes exactly batch/v1 Job is recognized |
| Health.OneEntryPerReference | pkg/controllers/owned_references_health.go:17-36 | with recognized references a report is error-free if and only if it has one entry each |

## Left out

* The Redis locker (`pkg/locking/redis.go`): its locks expire, so mutual exclusion would hold only for short critical sections.
* `InMemoryLocker` has no mutex in the source; Obtain and Done are single steps here.
* Manifest generation itself, temporary directories and file writes: rendered text is an arbitrary function of the operation, given to each call.
* YAML decoding is a function parameter, JSONPath expressions are plain dotted keys, the spec hash is an injective constructor, tracking identifiers are a counter, key generation yields any non-empty pair or fails, for any e-mail address.
* Events, log lines, error texts and the message texts of health entries.
* The 60 second window of `IsBeingReconciledAlready`: an Unknown condition may or may not make a version busy.
* Requeue delays: a worker may always run again; the delay is only part of a Reconcile method's outcome.
* Deletion and re-creation of objects, and edits of a status or of the Secret by outside actors.
* An unset `.spec.vars`: the tree is always a map.
* What an update does to the status of an object other than a Job's: the source sends the document, the server keeps the
  status; here a stored object is its document, its label and the progress of its Job.
* In the control plane, hydration is one step that succeeds or fails; its inside is the separate machine of `SecretProtocol`.
* Job pods are a failed and an active count; only `batch/v1` Jobs carry a verdict, as in the source.
* The ClusterBackupProcedureTemplate reconciler, `AcceptedResourceTypes`, generated clients, command line and charts.
- Cluster.ApiServer.CreateOrUpdate: a kind the server does not know is dereferenced unchecked by the source; that panic is covered by the crash event only.
- BackupStanding.UnchangedLookMeansAppliedLast: which documents a spec renders to is not modelled; the list applied is the one rendered in that pass.
- BackupStanding.SuccessMeansInPlace: one way only; a condition other than True does not tell whether a document was replaced, since a pass may fail before its first call.
- BackupFreshness.NoReconcileLoop: bounds complete applications; a pass that fails halfway may create helper objects and be repeated.
- ActionExactness.ActionRunsExactlyOnce: assumes that every document is applied and acknowledged; after a failed apply the source creates Jobs again on retry.
- Reconcilers.Operator.ObserveBackup: the health loop is not written out, since no version of an SB has references to examine (`BackupHealthIsVacuous`).
