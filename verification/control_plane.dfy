/** The four reconcilers of pkg/controllers as one interleaved state machine: any number of workers, one in-memory
    lock, one API server with optimistic concurrency, and a cache that may serve any earlier ScheduledBackup version.
    Every source of nondeterminism is carried by the event, so a run is a list of events. */
module ControlPlane {
  import opened Wrappers
  import opened Locking
  import opened References
  import opened Rendering
  import opened Cluster
  import opened Health
  import Gpg

  datatype ConditionStatus = True | False | Unknown

  datatype Condition = Condition(status: ConditionStatus, observedGeneration: nat)

  /** The one condition type both controllers maintain; conditions of other types are never touched. */
  const INSTALLATION := "BackupObjectsInstallation"

  /** retry.DefaultRetry gives up after this many attempts. */
  const MAX_ATTEMPTS := 5

  // ----- objects on the server -----

  datatype ActionStatus = ActionStatus(processed: bool, conditions: map<string, Condition>,
                                       ownedReferences: seq<ChildReference>, childrenHealth: seq<JobHealth>,
                                       healthy: bool)

  /** One CreateOrUpdate that took effect: the document, the object it was written to, the reference with its tracking
      identifier, and whether the success was reported to the controller. */
  datatype Call = Call(doc: Document, target: Identity, reference: ChildReference, reported: bool)

  /** A call in the cluster's own record, with the request it was made for. */
  datatype Landing = Landing(key: Request, forAction: bool, call: Call)

  /** A RequestedBackupAction; `version` is its resource version. `passes` and `calls` are its history: the document
      lists whose application was started, and the calls that took effect. */
  datatype Action = Action(version: nat, generation: nat, status: ActionStatus, passes: seq<seq<Document>>,
                           calls: seq<Call>)

  datatype BackupSpec = BackupSpec(collectionId: string, template: string, gpg: Gpg.KeySpec, tokenKey: string,
                                   importOnlyKeys: seq<string>, vars: string, cronJobEnabled: bool,
                                   scheduleEvery: string, operation: Operation)

  /** CalculateHash, free of collisions; the empty text of a fresh status is NeverApplied. */
  datatype SpecHash = NeverApplied | HashOf(spec: BackupSpec)

  datatype BackupStatus = BackupStatus(lastAppliedSpecHash: SpecHash, conditions: map<string, Condition>,
                                       ownedReferences: seq<ChildReference>, childrenHealth: seq<JobHealth>,
                                       healthy: bool)

  datatype BackupVersion = BackupVersion(spec: BackupSpec, generation: nat, status: BackupStatus) {
    predicate HasSpecChanged() {
      HashOf(spec) != status.lastAppliedSpecHash
    }

    /** IsBeingReconciledAlready, up to its 60 second clock: only an Unknown condition can make it true. */
    predicate MayBeBusy() {
      exists t :: t in status.conditions && status.conditions[t].status == Unknown
    }
  }

  /** A status write that stored the hash of `snap`, the version it made, and how many applications were complete. */
  datatype Record = Record(version: nat, snap: BackupVersion, complete: nat)

  /** A rendered list with the calls that applied it. */
  datatype Installation = Installation(docs: seq<Document>, calls: seq<Call>)

  /** A ScheduledBackup with all its versions and the index of the last status write. The rest is its history: the
      snapshots whose rendered objects were all applied, for each of them what was applied, and the writes that stored
      a hash. */
  datatype Schedule = Schedule(history: seq<BackupVersion>, lastWrite: nat, applies: seq<BackupVersion>,
                               installed: seq<Installation>, records: seq<Record>) {
    function Current(): BackupVersion
      requires history != []
    {
      history[|history| - 1]
    }
  }

  // ----- workers -----

  datatype Role = ActionReconciler | ActionObserver | BackupReconciler | BackupObserver

  datatype BackupChange = Mark(outcome: ConditionStatus) | Publish(entries: seq<JobHealth>, healthy: bool)

  datatype AfterSave = ThenRender | ThenRefuse | ThenLeave

  /** Where a worker stands between two calls to the outside. `base` and `snap` are what it read from the server;
      `evidence` records the listings an observer's report was computed from. */
  datatype Phase =
    | Idle
    | Holding
    | ActionRead(base: ActionStatus)
    | ActionRendering(base: ActionStatus)
    | ActionApplying(base: ActionStatus, refs: seq<ChildReference>, docs: seq<Document>, i: nat)
    | ActionExamining(base: ActionStatus, readings: seq<Reading>)
    | ActionSaving(base: ActionStatus, wanted: ActionStatus, outcome: Option<ConditionStatus>,
                   evidence: seq<Reading>, attempt: nat, got: Option<nat>)
    | BackupRead(snap: BackupVersion)
    | BackupRendering(snap: BackupVersion)
    | BackupApplying(snap: BackupVersion, docs: seq<Document>, i: nat, made: seq<Call>)
    | BackupExamining(snap: BackupVersion, readings: seq<Reading>)
    | BackupSaving(snap: BackupVersion, change: BackupChange, next: AfterSave, attempt: nat, got: Option<nat>)
    | Leaving

  /** `session` is the identifier of the lock session the worker holds while inside. */
  datatype Worker = Worker(role: Role, key: Request, session: string, phase: Phase) {
    /** Between a successful Obtain and Done. */
    predicate Inside() {
      !phase.Idle?
    }
  }

  datatype State = State(locks: seq<string>, workers: seq<Worker>, actions: map<Request, Action>,
                         schedules: map<Request, Schedule>, objects: Store, nextId: TrackingId,
                         landings: seq<Landing>)

  datatype Event =
    | Obtain(w: nat, key: Request)
    | FetchError(w: nat)                                   // the object could not be read
    | ReadAction(w: nat)                                   // read from the API server
    | ReadBackup(w: nat, version: nat, busy: bool)         // read from the cache: any version
    | Hydrate(w: nat, ok: bool)
    | Render(w: nat, docs: Option<seq<Document>>)
    | ApplyDoc(w: nat, api: Answers, acknowledged: bool)
    | Examine(w: nat, reading: Reading)
    | Judge(w: nat)
    | SaveGet(w: nat)
    | SaveUpdate(w: nat)
    | SaveError(w: nat)                                    // a status call fails for good
    | Done(w: nat)
    | EditAction(key: Request)
    | EditSpec(key: Request, spec: BackupSpec)
    | TouchBackup(key: Request)                            // a metadata edit
    | JobProgress(id: Identity, failed: nat, active: nat, finished: bool)
    | Crash                                                // the process restarts with an empty locker

  // ----- pieces of steps -----

  function Move(s: State, w: nat, phase: Phase): State
    requires w < |s.workers|
  {
    s.(workers := s.workers[w := s.workers[w].(phase := phase)])
  }

  function Restarted(s: State): State {
    s.(locks := [], workers := seq(|s.workers|, i requires 0 <= i < |s.workers| => s.workers[i].(phase := Idle)))
  }

  /** The status the reconciler (outcome present) or the observer (absent) sends, over a snapshot it holds. */
  function SavedAction(wanted: ActionStatus, outcome: Option<ConditionStatus>, generation: nat): ActionStatus {
    if outcome.None? then wanted
    else
      var marked := wanted.(conditions := wanted.conditions[INSTALLATION := Condition(outcome.value, generation)]);
      if outcome.value == True then marked else marked.(healthy := false)
  }

  /** The reconciler edits the object it has just fetched; the observer overwrites it from its snapshot. */
  function SavedBackup(snap: BackupVersion, change: BackupChange, current: BackupVersion): BackupStatus {
    match change
    case Mark(outcome) =>
      var status := current.status;
      status.(conditions := status.conditions[INSTALLATION := Condition(outcome, current.generation)],
              lastAppliedSpecHash := if outcome == True then HashOf(snap.spec) else status.lastAppliedSpecHash)
    case Publish(entries, healthy) => snap.status.(childrenHealth := entries, healthy := healthy)
  }

  function Failing(base: ActionStatus, refs: seq<ChildReference>): Phase {
    ActionSaving(base, base.(ownedReferences := refs), Some(False), [], 0, None)
  }

  function Succeeding(base: ActionStatus, refs: seq<ChildReference>): Phase {
    ActionSaving(base, base.(ownedReferences := refs, processed := true), Some(True), [], 0, None)
  }

  function Marking(snap: BackupVersion, outcome: ConditionStatus, next: AfterSave): Phase {
    BackupSaving(snap, Mark(outcome), next, 0, None)
  }

  /** Where a backup worker goes once its save is over, landed or not. */
  function AfterSaving(snap: BackupVersion, next: AfterSave): Phase {
    match next
    case ThenRender => BackupRendering(snap)
    case ThenRefuse => Marking(snap, False, ThenLeave)
    case ThenLeave => Leaving
  }

  /** The Jobs of the namespace that carry the label. */
  function JobsOf(objects: Store, namespace: string, id: TrackingId): set<Item> {
    set k | k in objects && k.group == "batch" && k.kind == "Job" && k.namespace == namespace
            && objects[k].tracking == id :: Item(k, objects[k])
  }

  /** A label selector returns each of them once, in any order. */
  predicate Lists(objects: Store, namespace: string, id: TrackingId, jobs: seq<Item>) {
    multiset(jobs) == multiset(JobsOf(objects, namespace, id))
  }

  function Refs(p: Phase): seq<ChildReference>
    requires p.ActionExamining? || p.BackupExamining?
  {
    if p.ActionExamining? then p.base.ownedReferences else p.snap.status.ownedReferences
  }

  /** The loop stops at the first reference whose lookup fails. */
  function SoFar(p: Phase): Report
    requires (p.ActionExamining? || p.BackupExamining?) && |p.readings| <= |Refs(p)|
  {
    HealthReport(Refs(p)[..|p.readings|], p.readings)
  }

  predicate Version(s: State, w: nat, got: Option<nat>)
    requires w < |s.workers|
  {
    var worker := s.workers[w];
    if worker.phase.ActionSaving? then worker.key in s.actions && got == Some(s.actions[worker.key].version)
    else worker.key in s.schedules && s.schedules[worker.key].history != []
         && got == Some(|s.schedules[worker.key].history|)
  }

  /** The same save, at its next attempt or with the version it has just fetched. */
  function Retrying(p: Phase, attempt: nat, got: Option<nat>): Phase
    requires p.ActionSaving? || p.BackupSaving?
  {
    match p
    case ActionSaving(base, wanted, outcome, evidence, _, _) =>
      ActionSaving(base, wanted, outcome, evidence, attempt, got)
    case BackupSaving(snap, change, next, _, _) => BackupSaving(snap, change, next, attempt, got)
  }

  function Landed(a: Action, p: Phase): Action
    requires p.ActionSaving?
  {
    a.(version := a.version + 1, status := SavedAction(p.wanted, p.outcome, a.generation))
  }

  function LandedOn(b: Schedule, p: Phase): Schedule
    requires p.BackupSaving? && b.history != []
  {
    var saved := b.Current().(status := SavedBackup(p.snap, p.change, b.Current()));
    b.(history := b.history + [saved], lastWrite := |b.history|,
       records := if p.change == Mark(True) then b.records + [Record(|b.history|, p.snap, |b.applies|)] else b.records)
  }

  /** The call for the next document, as it will have been if it lands. */
  function CallFor(doc: Document, namespace: string, suffix: string, id: TrackingId, reported: bool): Call {
    Call(doc, Resolve(doc, namespace, suffix).id, ReferenceTo(doc.gvk, id), reported)
  }

  function Logged(a: Action, call: Call, landed: bool): Action {
    if landed then a.(calls := a.calls + [call]) else a
  }

  /** Where an action's reconciler goes after one document. */
  function AppliedPhase(p: Phase, ref: ChildReference, ok: bool): Phase
    requires p.ActionApplying?
  {
    if !ok then Failing(p.base, p.refs)
    else if p.i + 1 == |p.docs| then Succeeding(p.base, p.refs + [ref])
    else ActionApplying(p.base, p.refs + [ref], p.docs, p.i + 1)
  }

  /** A scheduled backup counts as applied with the last document of a pass. */
  function AppliedOn(b: Schedule, p: Phase, call: Call, ok: bool): Schedule
    requires p.BackupApplying?
  {
    if ok && p.i + 1 == |p.docs| then
      b.(applies := b.applies + [p.snap], installed := b.installed + [Installation(p.docs, p.made + [call])])
    else b
  }

  function AppliedBackupPhase(p: Phase, call: Call, ok: bool): Phase
    requires p.BackupApplying?
  {
    if !ok then Marking(p.snap, False, ThenLeave)
    else if p.i + 1 == |p.docs| then Marking(p.snap, True, ThenLeave)
    else BackupApplying(p.snap, p.docs, p.i + 1, p.made + [call])
  }

  // ----- the step relation -----

  predicate IsWorkerEvent(e: Event) {
    !(e.EditAction? || e.EditSpec? || e.TouchBackup? || e.JobProgress? || e.Crash?)
  }

  predicate PhaseOnly(e: Event) {
    e.FetchError? || e.ReadAction? || e.ReadBackup? || e.Hydrate? || e.Judge? || e.SaveGet? || e.SaveError?
  }

  predicate Enabled(s: State, e: Event) {
    match e
    case EditAction(key) => key in s.actions
    case EditSpec(key, spec) =>
      key in s.schedules && s.schedules[key].history != [] && s.schedules[key].Current().spec != spec
    case TouchBackup(key) => key in s.schedules && s.schedules[key].history != []
    case JobProgress(id, _, _, _) => id in s.objects
    case Crash => true
    case _ => e.w < |s.workers| && WorkerEnabled(s, e)
  }

  predicate WorkerEnabled(s: State, e: Event)
    requires IsWorkerEvent(e) && e.w < |s.workers|
  {
    var worker := s.workers[e.w];
    var role, key, p := worker.role, worker.key, worker.phase;
    match e
    case Obtain(_, _) => p.Idle?
    case FetchError(_) => p.Holding?
    case ReadAction(_) => p.Holding? && (role.ActionReconciler? || role.ActionObserver?) && key in s.actions
    case ReadBackup(_, version, busy) =>
      && p.Holding? && (role.BackupReconciler? || role.BackupObserver?)
      && key in s.schedules && version < |s.schedules[key].history|
      && (busy ==> s.schedules[key].history[version].MayBeBusy())
    case Hydrate(_, _) => p.ActionRead? || p.BackupRead?
    case Render(_, docs) =>
      || (p.ActionRendering? && (docs.Some? ==> forall d :: d in docs.value ==> d.gvk == JOB))
      || (p.BackupRendering? && (docs.Some? ==> forall d :: d in docs.value ==> d.gvk != JOB))
    case ApplyDoc(_, _, _) => (p.ActionApplying? || p.BackupApplying?) && p.i < |p.docs|
    case Examine(_, reading) =>
      && (p.ActionExamining? || p.BackupExamining?)
      && |p.readings| < |Refs(p)| && !SoFar(p).erred
      && (reading.Some? ==> Lists(s.objects, key.namespace, Refs(p)[|p.readings|].trackingId, reading.value))
    case Judge(_) =>
      && (p.ActionExamining? || p.BackupExamining?) && |p.readings| <= |Refs(p)|
      && (|p.readings| == |Refs(p)| || SoFar(p).erred)
    case SaveGet(_) =>
      || (p.ActionSaving? && p.got.None? && key in s.actions)
      || (p.BackupSaving? && p.got.None? && key in s.schedules)
    case SaveUpdate(_) => (p.ActionSaving? || p.BackupSaving?) && p.got.Some?
    case SaveError(_) => p.ActionSaving? || p.BackupSaving?
    case Done(_) => p.Leaving?
  }

  function Next(s: State, e: Event): State
    requires Enabled(s, e)
  {
    match e
    case EditAction(key) =>
      var a := s.actions[key];
      s.(actions := s.actions[key := a.(version := a.version + 1, generation := a.generation + 1)])
    case EditSpec(key, spec) =>
      var b := s.schedules[key];
      var edited := b.Current().(spec := spec, generation := b.Current().generation + 1);
      s.(schedules := s.schedules[key := b.(history := b.history + [edited])])
    case TouchBackup(key) =>
      var b := s.schedules[key];
      s.(schedules := s.schedules[key := b.(history := b.history + [b.Current()])])
    case JobProgress(id, failed, active, finished) =>
      s.(objects := s.objects[id := s.objects[id].(failed := failed, active := active, finished := finished)])
    case Crash => Restarted(s)
    case Obtain(w, key) =>
      if LockId(key) in s.locks then s
      else s.(locks := s.locks + [LockId(key)],
              workers := s.workers[w := s.workers[w].(key := key, session := LockId(key), phase := Holding)])
    case Done(w) => Move(s.(locks := Remove(s.locks, s.workers[w].session)), w, Idle)
    case Render(w, docs) => NextRender(s, w, docs)
    case SaveUpdate(w) => NextSave(s, w)
    case ApplyDoc(w, api, acknowledged) => NextApply(s, w, api, acknowledged)
    case Examine(w, reading) => NextExamine(s, w, reading)
    case _ => Move(s, e.w, NextPhase(s, e))
  }

  /** The steps that change nothing but the worker itself. */
  function NextPhase(s: State, e: Event): Phase
    requires IsWorkerEvent(e) && e.w < |s.workers| && WorkerEnabled(s, e)
    requires PhaseOnly(e)
  {
    var worker := s.workers[e.w];
    var role, key, p := worker.role, worker.key, worker.phase;
    match e
    case FetchError(_) => Leaving
    case ReadAction(_) => ActionRead(s.actions[key].status)
    case ReadBackup(_, version, busy) =>
      var snap := s.schedules[key].history[version];
      if role.BackupReconciler? && (!snap.HasSpecChanged() || busy) then Leaving else BackupRead(snap)
    case Hydrate(_, ok) =>
      if p.ActionRead? then
        if !ok then Leaving
        else if role.ActionObserver? then ActionExamining(p.base, [])
        else if p.base.processed then Leaving
        else ActionRendering(p.base)
      else
        if role.BackupReconciler? then Marking(p.snap, Unknown, if ok then ThenRender else ThenRefuse)
        else if !ok then Leaving
        else BackupExamining(p.snap, [])
    case Judge(_) =>
      var report := SoFar(p);
      if !NoneRunning(report) then Leaving
      else if p.ActionExamining? then
        ActionSaving(p.base, p.base.(childrenHealth := report.entries, healthy := report.healthy), None, p.readings,
                     0, None)
      else BackupSaving(p.snap, Publish(report.entries, report.healthy), ThenLeave, 0, None)
    case SaveGet(_) =>
      Retrying(p, p.attempt, Some(if p.ActionSaving? then s.actions[key].version else |s.schedules[key].history|))
    case SaveError(_) => if p.ActionSaving? then Leaving else AfterSaving(p.snap, p.next)
  }

  /** Rendering: an error or an empty result is reported, otherwise the documents are applied one by one. */
  function NextRender(s: State, w: nat, docs: Option<seq<Document>>): State
    requires w < |s.workers| && (s.workers[w].phase.ActionRendering? || s.workers[w].phase.BackupRendering?)
  {
    var key, p := s.workers[w].key, s.workers[w].phase;
    var failed := docs.None? || docs.value == [];
    if p.BackupRendering? then
      Move(s, w, if failed then Marking(p.snap, False, ThenLeave) else BackupApplying(p.snap, docs.value, 0, []))
    else if failed then Move(s, w, Failing(p.base, p.base.ownedReferences))
    else
      var started := if key in s.actions then
                       var a := s.actions[key];
                       s.(actions := s.actions[key := a.(passes := a.passes + [docs.value])])
                     else s;
      Move(started, w, ActionApplying(p.base, p.base.ownedReferences, docs.value, 0))
  }

  /** UpdateStatus: refused when the object changed since it was fetched, and then retried a few times. */
  function NextSave(s: State, w: nat): State
    requires w < |s.workers| && (s.workers[w].phase.ActionSaving? || s.workers[w].phase.BackupSaving?)
  {
    var key, p := s.workers[w].key, s.workers[w].phase;
    if !Version(s, w, p.got) then
      if p.attempt + 1 < MAX_ATTEMPTS then Move(s, w, Retrying(p, p.attempt + 1, None))
      else Move(s, w, if p.ActionSaving? then Leaving else AfterSaving(p.snap, p.next))
    else if p.ActionSaving? then
      Move(s.(actions := s.actions[key := Landed(s.actions[key], p)]), w, Leaving)
    else
      Move(s.(schedules := s.schedules[key := LandedOn(s.schedules[key], p)]), w, AfterSaving(p.snap, p.next))
  }

  /** AppendJobIdTo, CreateOrUpdate and AddOwnedObject for one document. */
  function NextApply(s: State, w: nat, api: Answers, acknowledged: bool): State
    requires w < |s.workers|
    requires s.workers[w].phase.ActionApplying? || s.workers[w].phase.BackupApplying?
    requires s.workers[w].phase.i < |s.workers[w].phase.docs|
  {
    var key, p := s.workers[w].key, s.workers[w].phase;
    var doc := p.docs[p.i];
    var landed := CallSucceeds(s.objects, doc, key.namespace, api);
    var ok := landed && acknowledged;
    var call := CallFor(doc, key.namespace, api.suffix, s.nextId, acknowledged);
    var after := s.(nextId := s.nextId + 1,
                    objects := if landed then Put(s.objects, Resolve(doc, key.namespace, api.suffix), s.nextId)
                               else s.objects,
                    landings := if landed then s.landings + [Landing(key, p.ActionApplying?, call)] else s.landings);
    if p.ActionApplying? then
      var logged := if key in s.actions
                    then after.(actions := s.actions[key := Logged(s.actions[key], call, landed)])
                    else after;
      Move(logged, w, AppliedPhase(p, call.reference, ok))
    else
      var done := if key in s.schedules
                  then after.(schedules := s.schedules[key := AppliedOn(s.schedules[key], p, call, ok)])
                  else after;
      Move(done, w, AppliedBackupPhase(p, call, ok))
  }

  /** One turn of the health loop; an undecodable reference is an index out of range and takes the process down. */
  function NextExamine(s: State, w: nat, reading: Reading): State
    requires w < |s.workers|
    requires s.workers[w].phase.ActionExamining? || s.workers[w].phase.BackupExamining?
    requires |s.workers[w].phase.readings| < |Refs(s.workers[w].phase)|
  {
    var p := s.workers[w].phase;
    if GetGVK(Refs(p)[|p.readings|]).None? then Restarted(s)
    else
      var more := p.readings + [reading];
      Move(s, w, if p.ActionExamining? then ActionExamining(p.base, more) else BackupExamining(p.snap, more))
  }

  // ----- runs -----

  predicate Legal(s: State, events: seq<Event>)
    decreases |events|
  {
    events == [] || (Enabled(s, events[0]) && Legal(Next(s, events[0]), events[1..]))
  }

  function Exec(s: State, events: seq<Event>): State
    requires Legal(s, events)
    decreases |events|
  {
    if events == [] then s else Exec(Next(s, events[0]), events[1..])
  }

  const NEW_ACTION := ActionStatus(false, map[], [], [], false)
  const NEW_BACKUP := BackupStatus(NeverApplied, map[], [], [], false)

  /** Nothing has been reconciled yet: no lock is held and every status is fresh. Objects of others may exist. */
  predicate Init(s: State) {
    && s.locks == []
    && (forall w :: w in s.workers ==> w.phase.Idle?)
    && (forall k :: k in s.actions ==>
          var a := s.actions[k]; a.status == NEW_ACTION && a.passes == [] && a.calls == [])
    && (forall k :: k in s.schedules ==>
          var b := s.schedules[k];
          |b.history| == 1 && b.lastWrite == 0 && b.applies == [] && b.installed == [] && b.records == []
          && b.Current().generation == 1 && b.Current().status == NEW_BACKUP)
    && s.nextId >= 1 && s.landings == []
    && forall k :: k in s.objects ==> s.objects[k].tracking == 0
  }
}
