/** RequestedBackupActions under the two controllers that overwrite their whole status: what every step keeps. */
module ActionProtocol {
  import opened Wrappers
  import opened Locking
  import opened References
  import opened Rendering
  import opened Cluster
  import opened Health
  import opened ControlPlane
  import opened LockProtocol

  // ----- the invariant -----

  predicate ReportedIn(ref: ChildReference, calls: seq<Call>) {
    exists c :: c in calls && c.reference == ref && c.reported
  }

  /** Recorded references: batch/v1 Jobs with distinct identifiers in order of creation, each the reference of a
      reported call. */
  ghost predicate RefsOk(refs: seq<ChildReference>, calls: seq<Call>, nextId: TrackingId) {
    && (forall r :: r in refs ==> r == ReferenceTo(JOB, r.trackingId) && r.trackingId < nextId)
    && (forall r :: r in refs ==> ReportedIn(r, calls))
    && (forall i, j :: 0 <= i < j < |refs| ==> refs[i].trackingId < refs[j].trackingId)
  }

  ghost predicate ActionOk(a: Action, nextId: TrackingId) {
    && RefsOk(a.status.ownedReferences, a.calls, nextId)
    && (a.status.processed ==> a.status.ownedReferences != [])
  }

  /** What the observer sends differs from its snapshot in the health report and the healthy flag only, and both were
      computed from the listings it made. */
  predicate ObserverSends(base: ActionStatus, wanted: ActionStatus, evidence: seq<Reading>) {
    && wanted == base.(childrenHealth := wanted.childrenHealth, healthy := wanted.healthy)
    && |evidence| <= |base.ownedReferences|
    && var report := HealthReport(base.ownedReferences[..|evidence|], evidence);
       && (|evidence| == |base.ownedReferences| || report.erred)
       && NoneRunning(report) && wanted.childrenHealth == report.entries && wanted.healthy == report.healthy
  }

  /** What the reconciler sends extends its unprocessed snapshot by new references and, on success, the flag. */
  predicate ReconcilerSends(base: ActionStatus, wanted: ActionStatus, outcome: ConditionStatus) {
    && !base.processed
    && wanted == base.(ownedReferences := wanted.ownedReferences, processed := wanted.processed)
    && base.ownedReferences <= wanted.ownedReferences
    && outcome == (if wanted.processed then True else False)
    && (wanted.processed ==> wanted.ownedReferences != [])
  }

  /** A worker's snapshot is what the server still holds, and its phase fits its role. */
  ghost predicate PhaseOk(a: Action, nextId: TrackingId, role: Role, p: Phase) {
    match p
    case ActionRead(base) => base == a.status && (role.ActionReconciler? || role.ActionObserver?)
    case ActionRendering(base) => base == a.status && role.ActionReconciler? && !base.processed
    case ActionApplying(base, refs, docs, i) =>
      && base == a.status && role.ActionReconciler? && !base.processed
      && i < |docs| && (forall d :: d in docs ==> d.gvk == JOB)
      && base.ownedReferences <= refs && RefsOk(refs, a.calls, nextId)
    case ActionExamining(base, readings) =>
      && base == a.status && role.ActionObserver?
      && |readings| <= |base.ownedReferences|
    case ActionSaving(base, wanted, outcome, evidence, _, _) =>
      && base == a.status
      && if outcome.None? then role.ActionObserver? && ObserverSends(base, wanted, evidence)
         else role.ActionReconciler? && ReconcilerSends(base, wanted, outcome.value)
              && RefsOk(wanted.ownedReferences, a.calls, nextId)
    case _ => true
  }

  predicate OnAction(p: Phase) {
    p.ActionRead? || p.ActionRendering? || p.ActionApplying? || p.ActionExamining? || p.ActionSaving?
  }

  ghost predicate WorkerOk(actions: map<Request, Action>, nextId: TrackingId, worker: Worker) {
    OnAction(worker.phase) ==>
      worker.key in actions && PhaseOk(actions[worker.key], nextId, worker.role, worker.phase)
  }

  ghost predicate ActionInv(s: State) {
    && (forall k :: k in s.actions ==> ActionOk(s.actions[k], s.nextId))
    && (forall v :: 0 <= v < |s.workers| ==> WorkerOk(s.actions, s.nextId, s.workers[v]))
  }

  ghost predicate Inv(s: State) {
    LockInv(s) && ActionInv(s)
  }

  // ----- frames -----

  /** Another action, or the same one with nothing but its version numbers and its history changed. */
  predicate SameAction(a: Action, b: Action) {
    a.status == b.status && a.calls == b.calls
  }

  lemma RefsStayOk(refs: seq<ChildReference>, calls: seq<Call>, nextId: TrackingId, more: seq<Call>, later: TrackingId)
    requires RefsOk(refs, calls, nextId) && calls <= more && nextId <= later
    ensures RefsOk(refs, more, later)
  {
    forall r | r in refs ensures ReportedIn(r, more) {
      assert ReportedIn(r, calls);
      var c :| c in calls && c.reference == r && c.reported;
      var i :| 0 <= i < |calls| && calls[i] == c;
      assert more[i] == c;
    }
  }

  lemma PhaseStaysOk(a: Action, b: Action, nextId: TrackingId, later: TrackingId, role: Role, p: Phase)
    requires PhaseOk(a, nextId, role, p) && SameAction(a, b) && nextId <= later
    ensures PhaseOk(b, later, role, p)
  {
    match p
    case ActionApplying(_, refs, _, _) => RefsStayOk(refs, a.calls, nextId, b.calls, later);
    case ActionSaving(_, wanted, outcome, _, _, _) =>
      if outcome.Some? {
        RefsStayOk(wanted.ownedReferences, a.calls, nextId, b.calls, later);
      }
    case _ =>
  }

  /** The invariant, as worker `w` inside knows it. */
  ghost predicate Ours(s: State, w: nat) {
    w < |s.workers| && s.workers[w].Inside() && Alone(s.workers, w) && ActionInv(s)
  }

  /** Steps that touch at most the action of worker `w` leave the invariant of all others in place. */
  lemma OthersStayOk(s: State, t: State, w: nat)
    requires Ours(s, w) && MovesOnly(s, t, w) && s.nextId <= t.nextId
    requires t.actions.Keys == s.actions.Keys
    requires forall k :: k in s.actions && k != s.workers[w].key ==> SameAction(s.actions[k], t.actions[k])
    ensures forall v :: 0 <= v < |t.workers| && v != w ==> WorkerOk(t.actions, t.nextId, t.workers[v])
    ensures forall k :: k in t.actions && k != s.workers[w].key ==> ActionOk(t.actions[k], t.nextId)
  {
    forall v | 0 <= v < |t.workers| && v != w && OnAction(t.workers[v].phase)
      ensures WorkerOk(t.actions, t.nextId, t.workers[v])
    {
      assert s.workers[v].key != s.workers[w].key;
      assert WorkerOk(s.actions, s.nextId, s.workers[v]);
      var k := s.workers[v].key;
      PhaseStaysOk(s.actions[k], t.actions[k], s.nextId, t.nextId, s.workers[v].role, s.workers[v].phase);
    }
    forall k | k in t.actions && k != s.workers[w].key ensures ActionOk(t.actions[k], t.nextId) {
      var a := s.actions[k];
      RefsStayOk(a.status.ownedReferences, a.calls, s.nextId, t.actions[k].calls, t.nextId);
    }
  }

  /** ... so that only its own action and its own phase remain to be checked. */
  lemma OwnStep(s: State, t: State, w: nat)
    requires Ours(s, w) && MovesOnly(s, t, w) && s.nextId <= t.nextId
    requires t.actions.Keys == s.actions.Keys
    requires forall k :: k in s.actions && k != s.workers[w].key ==> SameAction(s.actions[k], t.actions[k])
    requires s.workers[w].key in t.actions ==> ActionOk(t.actions[s.workers[w].key], t.nextId)
    requires WorkerOk(t.actions, t.nextId, t.workers[w])
    ensures ActionInv(t)
  {
    OthersStayOk(s, t, w);
  }

  /** A step that changes no action. */
  lemma UntouchedActions(s: State, t: State, w: nat)
    requires Ours(s, w) && MovesOnly(s, t, w)
    requires t.actions == s.actions && t.nextId == s.nextId
    requires WorkerOk(t.actions, t.nextId, t.workers[w])
    ensures ActionInv(t)
  {
    OthersStayOk(s, t, w);
  }

  // ----- one lemma per kind of step -----

  lemma JudgeSends(s: State, e: Event)
    requires Enabled(s, e) && e.Judge? && s.workers[e.w].phase.ActionExamining? && Ours(s, e.w)
    ensures WorkerOk(s.actions, s.nextId, s.workers[e.w].(phase := NextPhase(s, e)))
  {
    assert WorkerOk(s.actions, s.nextId, s.workers[e.w]);
  }

  lemma PhaseKeepsInv(s: State, e: Event)
    requires Enabled(s, e) && PhaseOnly(e) && Ours(s, e.w)
    ensures ActionInv(Next(s, e))
  {
    WorkerStepShape(s, e);
    var worker := s.workers[e.w];
    assert WorkerOk(s.actions, s.nextId, worker);
    if e.Judge? && worker.phase.ActionExamining? {
      JudgeSends(s, e);
    }
    UntouchedActions(s, Next(s, e), e.w);
  }

  /** What rendering does to actions, references and identifiers, and where it leaves the worker. */
  lemma RenderShape(s: State, w: nat, docs: Option<seq<Document>>)
    requires w < |s.workers| && (s.workers[w].phase.ActionRendering? || s.workers[w].phase.BackupRendering?)
    requires s.workers[w].phase.ActionRendering? && docs.Some? ==> forall d :: d in docs.value ==> d.gvk == JOB
    ensures var t := NextRender(s, w, docs);
            && t.nextId == s.nextId && t.actions.Keys == s.actions.Keys
            && (forall k :: k in s.actions ==> SameAction(s.actions[k], t.actions[k]))
            && var p, q := s.workers[w].phase, t.workers[w].phase;
               if p.BackupRendering? then !OnAction(q)
               else
                 || q == Failing(p.base, p.base.ownedReferences)
                 || (q.ActionApplying? && q == ActionApplying(p.base, p.base.ownedReferences, q.docs, 0)
                     && q.docs != [] && forall d :: d in q.docs ==> d.gvk == JOB)
  {
  }

  lemma RenderKeepsInv(s: State, e: Event)
    requires Enabled(s, e) && e.Render? && Ours(s, e.w)
    ensures ActionInv(NextRender(s, e.w, e.docs))
  {
    var worker := s.workers[e.w];
    RenderMoves(s, e.w, e.docs);
    RenderShape(s, e.w, e.docs);
    assert WorkerOk(s.actions, s.nextId, worker);
    assert worker.key in s.actions ==> ActionOk(s.actions[worker.key], s.nextId);
    OwnStep(s, NextRender(s, e.w, e.docs), e.w);
  }

  lemma ExamineKeepsInv(s: State, e: Event)
    requires Enabled(s, e) && e.Examine? && !Restarts(s, e) && Ours(s, e.w)
    ensures ActionInv(Next(s, e))
  {
    WorkerStepShape(s, e);
    assert WorkerOk(s.actions, s.nextId, s.workers[e.w]);
    UntouchedActions(s, Next(s, e), e.w);
  }

  /** A reported call extends the references the worker carries. */
  lemma OneMoreRef(refs: seq<ChildReference>, calls: seq<Call>, call: Call, id: TrackingId)
    requires RefsOk(refs, calls, id) && call.reference == ReferenceTo(JOB, id)
    ensures RefsOk(refs, calls + [call], id + 1)
    ensures call.reported ==> RefsOk(refs + [call.reference], calls + [call], id + 1)
  {
    var more := calls + [call];
    RefsStayOk(refs, calls, id, more, id + 1);
    assert more[|calls|] in more;
    var longer := refs + [call.reference];
    forall i, j | 0 <= i < j < |longer| ensures longer[i].trackingId < longer[j].trackingId {
      assert longer[i] == refs[i] && refs[i] in refs;
    }
  }

  /** The action and the phase after one document, as values. */
  lemma AppliedOk(a: Action, id: TrackingId, role: Role, p: Phase, call: Call, landed: bool)
    requires ActionOk(a, id) && p.ActionApplying? && PhaseOk(a, id, role, p)
    requires call.reference == ReferenceTo(p.docs[p.i].gvk, id)
    ensures var logged := Logged(a, call, landed);
            && ActionOk(logged, id + 1)
            && PhaseOk(logged, id + 1, role, AppliedPhase(p, call.reference, landed && call.reported))
  {
    assert p.docs[p.i] in p.docs;
    var logged := Logged(a, call, landed);
    OneMoreRef(p.refs, a.calls, call, id);
    RefsStayOk(p.refs, a.calls, id, logged.calls, id + 1);
    RefsStayOk(a.status.ownedReferences, a.calls, id, logged.calls, id + 1);
  }

  lemma ApplyShape(s: State, w: nat, api: Answers, acknowledged: bool)
    requires w < |s.workers| && s.workers[w].phase.ActionApplying? && s.workers[w].key in s.actions
    requires s.workers[w].phase.i < |s.workers[w].phase.docs|
    ensures var t := NextApply(s, w, api, acknowledged);
            var key, p := s.workers[w].key, s.workers[w].phase;
            var call := CallFor(p.docs[p.i], key.namespace, api.suffix, s.nextId, acknowledged);
            var landed := CallSucceeds(s.objects, p.docs[p.i], key.namespace, api);
            && t.actions == s.actions[key := Logged(s.actions[key], call, landed)]
            && t.workers ==
               s.workers[w := s.workers[w].(phase := AppliedPhase(p, call.reference, landed && acknowledged))]
  {
  }

  lemma ApplyActionKeepsInv(s: State, w: nat, api: Answers, acknowledged: bool)
    requires Ours(s, w) && s.workers[w].phase.ActionApplying? && s.workers[w].phase.i < |s.workers[w].phase.docs|
    ensures ActionInv(NextApply(s, w, api, acknowledged))
  {
    var worker, t := s.workers[w], NextApply(s, w, api, acknowledged);
    var p := worker.phase;
    assert WorkerOk(s.actions, s.nextId, worker);
    assert ActionOk(s.actions[worker.key], s.nextId);
    var landed := CallSucceeds(s.objects, p.docs[p.i], worker.key.namespace, api);
    AppliedOk(s.actions[worker.key], s.nextId, worker.role, p,
              CallFor(p.docs[p.i], worker.key.namespace, api.suffix, s.nextId, acknowledged), landed);
    ApplyShape(s, w, api, acknowledged);
    OneMoreId(s, w, api, acknowledged);
    OwnStep(s, t, w);
  }

  lemma OneMoreId(s: State, w: nat, api: Answers, acknowledged: bool)
    requires w < |s.workers| && (s.workers[w].phase.ActionApplying? || s.workers[w].phase.BackupApplying?)
    requires s.workers[w].phase.i < |s.workers[w].phase.docs|
    ensures NextApply(s, w, api, acknowledged).nextId == s.nextId + 1
    ensures s.workers[w].phase.BackupApplying? ==> NextApply(s, w, api, acknowledged).actions == s.actions
  {
  }

  lemma ApplyBackupKeepsInv(s: State, w: nat, api: Answers, acknowledged: bool)
    requires Ours(s, w) && s.workers[w].phase.BackupApplying? && s.workers[w].phase.i < |s.workers[w].phase.docs|
    ensures ActionInv(NextApply(s, w, api, acknowledged))
  {
    var key, t := s.workers[w].key, NextApply(s, w, api, acknowledged);
    ApplyMoves(s, w, api, acknowledged);
    OneMoreId(s, w, api, acknowledged);
    if key in s.actions {
      var a := s.actions[key];
      assert ActionOk(a, s.nextId);
      RefsStayOk(a.status.ownedReferences, a.calls, s.nextId, a.calls, t.nextId);
    }
    assert !OnAction(t.workers[w].phase);
    OwnStep(s, t, w);
  }

  /** The status that lands is well formed. */
  lemma SavedOk(a: Action, id: TrackingId, role: Role, p: Phase)
    requires ActionOk(a, id) && p.ActionSaving? && PhaseOk(a, id, role, p)
    ensures ActionOk(Landed(a, p), id)
  {
  }

  lemma RetryOk(a: Action, id: TrackingId, role: Role, p: Phase, attempt: nat, got: Option<nat>)
    requires p.ActionSaving? && PhaseOk(a, id, role, p)
    ensures PhaseOk(a, id, role, Retrying(p, attempt, got))
  {
  }

  lemma SaveActionKeepsInv(s: State, w: nat)
    requires Ours(s, w) && s.workers[w].phase.ActionSaving?
    ensures ActionInv(NextSave(s, w))
  {
    var worker, t := s.workers[w], NextSave(s, w);
    var key, p := worker.key, worker.phase;
    SaveMoves(s, w);
    assert WorkerOk(s.actions, s.nextId, worker) && ActionOk(s.actions[key], s.nextId);
    if Version(s, w, p.got) {
      SavedOk(s.actions[key], s.nextId, worker.role, p);
      assert t.actions == s.actions[key := Landed(s.actions[key], p)] && t.workers[w].phase == Leaving;
    } else {
      RetryOk(s.actions[key], s.nextId, worker.role, p, p.attempt + 1, None);
      assert t.actions == s.actions;
    }
    OwnStep(s, t, w);
  }

  lemma SaveBackupKeepsInv(s: State, w: nat)
    requires Ours(s, w) && s.workers[w].phase.BackupSaving?
    ensures ActionInv(NextSave(s, w))
  {
    var t := NextSave(s, w);
    SaveMoves(s, w);
    assert t.actions == s.actions && !OnAction(t.workers[w].phase);
    UntouchedActions(s, t, w);
  }

  lemma ObtainKeepsInv(s: State, e: Event)
    requires ActionInv(s) && Enabled(s, e) && e.Obtain?
    ensures ActionInv(Next(s, e))
  {
    var t := Next(s, e);
    assert t.actions == s.actions && t.nextId == s.nextId;
    forall v | 0 <= v < |t.workers| ensures WorkerOk(t.actions, t.nextId, t.workers[v]) {
      assert WorkerOk(s.actions, s.nextId, s.workers[v]);
    }
  }

  /** A metadata or spec edit of an action. */
  lemma EditKeepsInv(s: State, k: Request, a: Action)
    requires ActionInv(s) && k in s.actions && SameAction(s.actions[k], a)
    ensures ActionInv(s.(actions := s.actions[k := a]))
  {
    var t := s.(actions := s.actions[k := a]);
    forall v | 0 <= v < |t.workers| && OnAction(t.workers[v].phase)
      ensures WorkerOk(t.actions, t.nextId, t.workers[v])
    {
      assert WorkerOk(s.actions, s.nextId, s.workers[v]);
      var o := s.workers[v].key;
      PhaseStaysOk(s.actions[o], t.actions[o], s.nextId, t.nextId, s.workers[v].role, s.workers[v].phase);
    }
    forall o | o in t.actions ensures ActionOk(t.actions[o], t.nextId) {
      assert ActionOk(s.actions[o], s.nextId);
    }
  }

  lemma EnvironmentKeepsInv(s: State, e: Event)
    requires ActionInv(s) && Enabled(s, e) && !IsWorkerEvent(e) && !e.Crash?
    ensures ActionInv(Next(s, e))
  {
    if e.EditAction? {
      EditKeepsInv(s, e.key, Next(s, e).actions[e.key]);
    } else {
      EnvironmentStepShape(s, e);
      var t := Next(s, e);
      assert t.actions == s.actions && t.nextId == s.nextId;
      forall v | 0 <= v < |t.workers| ensures WorkerOk(t.actions, t.nextId, t.workers[v]) {
        assert WorkerOk(s.actions, s.nextId, s.workers[v]);
      }
    }
  }

  lemma WorkerKeepsInv(s: State, e: Event)
    requires Inv(s) && Enabled(s, e) && IsWorkerEvent(e) && !e.Obtain? && !Restarts(s, e)
    ensures ActionInv(Next(s, e))
  {
    WorkerStepShape(s, e);
    InsideAlone(s, e.w);
    if e.Done? {
      UntouchedActions(s, Next(s, e), e.w);
    } else if PhaseOnly(e) {
      PhaseKeepsInv(s, e);
    } else if e.Render? {
      RenderKeepsInv(s, e);
    } else if e.Examine? {
      ExamineKeepsInv(s, e);
    } else if s.workers[e.w].phase.ActionSaving? {
      SaveActionKeepsInv(s, e.w);
    } else if s.workers[e.w].phase.BackupSaving? {
      SaveBackupKeepsInv(s, e.w);
    } else if s.workers[e.w].phase.ActionApplying? {
      ApplyActionKeepsInv(s, e.w, e.api, e.acknowledged);
    } else {
      ApplyBackupKeepsInv(s, e.w, e.api, e.acknowledged);
    }
  }

  lemma StepKeepsInv(s: State, e: Event)
    requires Inv(s) && Enabled(s, e)
    ensures Inv(Next(s, e))
  {
    StepKeepsLocks(s, e);
    if Restarts(s, e) {
      assert Next(s, e) == Restarted(s);
    } else if e.Obtain? {
      ObtainKeepsInv(s, e);
    } else if IsWorkerEvent(e) {
      WorkerKeepsInv(s, e);
    } else {
      EnvironmentKeepsInv(s, e);
    }
  }

  lemma InitHasInv(s: State)
    requires Init(s)
    ensures Inv(s)
  {
    InitHasLockInv(s);
    assert forall v :: 0 <= v < |s.workers| ==> s.workers[v] in s.workers;
  }

  lemma {:induction false} RunKeepsInv(s: State, events: seq<Event>)
    requires Inv(s) && Legal(s, events)
    ensures Inv(Exec(s, events))
    decreases |events|
  {
    if events != [] {
      StepKeepsInv(s, events[0]);
      RunKeepsInv(Next(s, events[0]), events[1..]);
    }
  }
}
