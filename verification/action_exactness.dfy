/** Conservation of references, and exactly-once application, in runs where the reconciler's status writes land. */
module ActionExactness {
  import opened Wrappers
  import opened Locking
  import opened References
  import opened Rendering
  import opened Cluster
  import opened ControlPlane
  import opened LockProtocol
  import opened ActionProtocol
  import opened StoreProtocol

  // ----- which runs -----

  /** The worker is the reconciler of an action and about to store the references it collected. */
  predicate Storing(p: Phase) {
    p.ActionSaving? && p.outcome.Some?
  }

  /** No status write of an action's reconciler is lost: no restart while a worker carries references, no failing call,
      no conflict to the bitter end. */
  ghost predicate Lands(s: State, e: Event)
    requires Enabled(s, e)
  {
    && (Restarts(s, e) ==> forall w :: w in s.workers ==> !Carries(w.phase))
    && (e.SaveError? ==> !Storing(s.workers[e.w].phase))
    && (e.SaveUpdate? && Storing(s.workers[e.w].phase) ==>
          Version(s, e.w, s.workers[e.w].phase.got) || s.workers[e.w].phase.attempt + 1 < MAX_ATTEMPTS)
  }

  ghost predicate Lossless(s: State, events: seq<Event>)
    requires Legal(s, events)
    decreases |events|
  {
    events == [] || (Lands(s, events[0]) && Lossless(Next(s, events[0]), events[1..]))
  }

  /** Every document of an action is applied and acknowledged. */
  predicate Applies(s: State, e: Event)
    requires e.ApplyDoc? ==> e.w < |s.workers|
    requires e.ApplyDoc? && s.workers[e.w].phase.ActionApplying? ==>
               s.workers[e.w].phase.i < |s.workers[e.w].phase.docs|
  {
    e.ApplyDoc? && s.workers[e.w].phase.ActionApplying? ==>
      var worker := s.workers[e.w];
      e.acknowledged && CallSucceeds(s.objects, worker.phase.docs[worker.phase.i], worker.key.namespace, e.api)
  }

  ghost predicate FaultFree(s: State, events: seq<Event>)
    requires Legal(s, events)
    decreases |events|
  {
    events == [] || (Lands(s, events[0]) && Applies(s, events[0]) && FaultFree(Next(s, events[0]), events[1..]))
  }

  lemma {:induction false} FaultFreeIsLossless(s: State, events: seq<Event>)
    requires Legal(s, events) && FaultFree(s, events)
    ensures Lossless(s, events)
    decreases |events|
  {
    if events != [] {
      FaultFreeIsLossless(Next(s, events[0]), events[1..]);
    }
  }

  // ----- what is claimed of an action and of the worker that carries its references -----

  /** The references of the calls whose success was reported, in order. */
  function Reported(calls: seq<Call>): seq<ChildReference> {
    if calls == [] then []
    else
      var n := |calls| - 1;
      Reported(calls[..n]) + if calls[n].reported then [calls[n].reference] else []
  }

  lemma ReportedLast(calls: seq<Call>, call: Call)
    ensures Reported(calls + [call]) == Reported(calls) + if call.reported then [call.reference] else []
  {
    assert (calls + [call])[..|calls|] == calls;
  }

  predicate Untried(a: Action) {
    a.passes == [] && a.calls == []
  }

  predicate Completed(a: Action) {
    |a.passes| == 1 && a.passes[0] != [] && Matches(a.calls, a.passes[0], |a.passes[0]|)
  }

  predicate Carries(p: Phase) {
    p.ActionApplying? || Storing(p)
  }

  function Carried(p: Phase): seq<ChildReference>
    requires Carries(p)
  {
    if p.ActionApplying? then p.refs else p.wanted.ownedReferences
  }

  /** Two claims share one proof: references are conserved, and an action is applied once. */
  datatype Claim = Conserved | AppliedOnce

  /** The claim about an action whose references no worker carries. */
  predicate AtRest(claim: Claim, a: Action) {
    match claim
    case Conserved => a.status.ownedReferences == Reported(a.calls)
    case AppliedOnce => if a.status.processed then Completed(a) else Untried(a)
  }

  /** The claim about an action while a worker in phase `p` works on it. */
  predicate Fits(claim: Claim, a: Action, p: Phase) {
    if !Carries(p) then AtRest(claim, a)
    else match claim
      case Conserved => Carried(p) == Reported(a.calls)
      case AppliedOnce =>
        if p.ActionApplying? then |a.passes| == 1 && a.passes[0] == p.docs && Matches(a.calls, p.docs, p.i)
        else if p.wanted.processed then Completed(a)
        else Untried(a)
  }

  predicate CarriesFor(worker: Worker, k: Request) {
    worker.key == k && Carries(worker.phase)
  }

  predicate WorkerFits(claim: Claim, actions: map<Request, Action>, worker: Worker) {
    Carries(worker.phase) && worker.key in actions ==> Fits(claim, actions[worker.key], worker.phase)
  }

  ghost predicate Everywhere(claim: Claim, actions: map<Request, Action>, workers: seq<Worker>) {
    && (forall v :: 0 <= v < |workers| ==> WorkerFits(claim, actions, workers[v]))
    && (forall k :: k in actions && (forall v :: 0 <= v < |workers| ==> !CarriesFor(workers[v], k)) ==>
          AtRest(claim, actions[k]))
  }

  ghost predicate Kept(claim: Claim, s: State) {
    LockInv(s) && Everywhere(claim, s.actions, s.workers)
  }

  /** The invariant as it concerns one worker on an action. */
  ghost predicate OwnOk(s: State, w: nat) {
    w < |s.workers| && WorkerOk(s.actions, s.nextId, s.workers[w])
  }

  /** The claim everywhere, as worker `w` inside knows it. */
  ghost predicate Ours(claim: Claim, s: State, w: nat) {
    w < |s.workers| && s.workers[w].Inside() && Alone(s.workers, w) && Everywhere(claim, s.actions, s.workers)
  }

  /** A worker inside sees the claim about its own action in one of the two forms. */
  lemma OwnFits(claim: Claim, s: State, w: nat)
    requires Ours(claim, s, w) && s.workers[w].key in s.actions
    ensures Fits(claim, s.actions[s.workers[w].key], s.workers[w].phase)
  {
    assert WorkerFits(claim, s.actions, s.workers[w]);
    if !Carries(s.workers[w].phase) {
      forall v | 0 <= v < |s.workers| ensures !CarriesFor(s.workers[v], s.workers[w].key) {
        assert v != w && s.workers[v].Inside() ==> s.workers[v].key != s.workers[w].key;
      }
    }
  }

  /** The same history and status, whatever the version numbers. */
  predicate SameHistory(a: Action, b: Action) {
    SameAction(a, b) && a.passes == b.passes
  }

  /** A step of worker `w` on its own action keeps the claim everywhere if it keeps it there. */
  lemma OwnKept(claim: Claim, s: State, t: State, w: nat)
    requires Ours(claim, s, w) && MovesOnly(s, t, w)
    requires t.actions.Keys == s.actions.Keys
    requires forall k :: k in s.actions && k != s.workers[w].key ==> SameHistory(s.actions[k], t.actions[k])
    requires s.workers[w].key in t.actions ==> Fits(claim, t.actions[s.workers[w].key], t.workers[w].phase)
    ensures Everywhere(claim, t.actions, t.workers)
  {
    forall v | 0 <= v < |t.workers| && v != w ensures WorkerFits(claim, t.actions, t.workers[v]) {
      assert WorkerFits(claim, s.actions, s.workers[v]);
      assert s.workers[v].Inside() ==> s.workers[v].key != s.workers[w].key;
    }
    forall k | k in t.actions && (forall v :: 0 <= v < |t.workers| ==> !CarriesFor(t.workers[v], k))
      ensures AtRest(claim, t.actions[k])
    {
      assert !CarriesFor(t.workers[w], k);
      if k != s.workers[w].key {
        forall v | 0 <= v < |s.workers| ensures !CarriesFor(s.workers[v], k) {
          assert v != w ==> !CarriesFor(t.workers[v], k);
        }
      }
    }
  }

  /** The same for a step given by its result: action `a` and phase `p`. */
  lemma OwnResult(claim: Claim, s: State, w: nat, a: Action, p: Phase)
    requires Ours(claim, s, w) && s.workers[w].key in s.actions
    requires Fits(claim, a, p)
    ensures Everywhere(claim, s.actions[s.workers[w].key := a], s.workers[w := s.workers[w].(phase := p)])
  {
    var t := s.(actions := s.actions[s.workers[w].key := a], workers := s.workers[w := s.workers[w].(phase := p)]);
    OwnKept(claim, s, t, w);
  }

  // ----- one step, seen by the action and its worker -----

  lemma PhaseFits(claim: Claim, a: Action, s: State, e: Event)
    requires Enabled(s, e) && PhaseOnly(e) && Lands(s, e)
    requires Fits(claim, a, s.workers[e.w].phase)
    ensures Fits(claim, a, NextPhase(s, e))
  {
    var p := s.workers[e.w].phase;
    if Carries(p) {
      assert e.SaveGet?;
    }
  }

  /** The action and the phase after rendering. */
  lemma RenderFits(claim: Claim, a: Action, p: Phase, docs: seq<Document>)
    requires p.ActionRendering? && p.base == a.status && !a.status.processed && Fits(claim, a, p)
    ensures Fits(claim, a, Failing(p.base, p.base.ownedReferences))
    ensures docs != [] ==>
              Fits(claim, a.(passes := a.passes + [docs]), ActionApplying(p.base, p.base.ownedReferences, docs, 0))
  {
  }

  lemma ApplyFits(claim: Claim, a: Action, p: Phase, call: Call, landed: bool)
    requires p.ActionApplying? && p.i < |p.docs| && Fits(claim, a, p)
    requires Applied(call.(reported := true), p.docs[p.i])
    requires claim == AppliedOnce ==> landed && call.reported
    ensures Fits(claim, Logged(a, call, landed), AppliedPhase(p, call.reference, landed && call.reported))
  {
    match claim
    case Conserved => ReportedLast(a.calls, call);
    case AppliedOnce => OneMoreMatch(a.calls, p.docs, p.i, call);
  }

  lemma LandedFits(claim: Claim, a: Action, id: TrackingId, role: Role, p: Phase)
    requires p.ActionSaving? && PhaseOk(a, id, role, p) && Fits(claim, a, p)
    ensures AtRest(claim, Landed(a, p))
  {
  }

  // ----- steps of the machine -----

  lemma PhaseKeeps(claim: Claim, s: State, e: Event)
    requires Enabled(s, e) && Lands(s, e) && PhaseOnly(e) && OwnOk(s, e.w) && Ours(claim, s, e.w)
    ensures Everywhere(claim, Next(s, e).actions, Next(s, e).workers)
  {
    var t := Move(s, e.w, NextPhase(s, e));
    PhaseMoves(s, e);
    if s.workers[e.w].key in s.actions {
      OwnFits(claim, s, e.w);
      PhaseFits(claim, s.actions[s.workers[e.w].key], s, e);
    }
    OwnKept(claim, s, t, e.w);
  }

  /** Steps inside that carry nothing before and after. */
  lemma IdleHandsKeep(claim: Claim, s: State, t: State, w: nat)
    requires Ours(claim, s, w) && MovesOnly(s, t, w)
    requires t.actions == s.actions && !Carries(s.workers[w].phase) && !Carries(t.workers[w].phase)
    ensures Everywhere(claim, t.actions, t.workers)
  {
    if s.workers[w].key in s.actions {
      OwnFits(claim, s, w);
    }
    OwnKept(claim, s, t, w);
  }

  lemma RenderKeeps(claim: Claim, s: State, e: Event)
    requires Enabled(s, e) && e.Render? && OwnOk(s, e.w) && Ours(claim, s, e.w)
    ensures Everywhere(claim, Next(s, e).actions, Next(s, e).workers)
  {
    var worker, t := s.workers[e.w], NextRender(s, e.w, e.docs);
    RenderMoves(s, e.w, e.docs);
    if worker.phase.BackupRendering? {
      IdleHandsKeep(claim, s, t, e.w);
    } else {
      OwnFits(claim, s, e.w);
      RenderFits(claim, s.actions[worker.key], worker.phase, if e.docs.Some? then e.docs.value else []);
      OwnKept(claim, s, t, e.w);
    }
  }

  lemma ApplyActionKeeps(claim: Claim, s: State, w: nat, api: Answers, acknowledged: bool)
    requires Ours(claim, s, w) && s.workers[w].phase.ActionApplying?
    requires s.workers[w].key in s.actions && s.workers[w].phase.i < |s.workers[w].phase.docs|
    requires claim == AppliedOnce ==>
               acknowledged && CallSucceeds(s.objects, s.workers[w].phase.docs[s.workers[w].phase.i],
                                            s.workers[w].key.namespace, api)
    ensures Everywhere(claim, NextApply(s, w, api, acknowledged).actions, NextApply(s, w, api, acknowledged).workers)
  {
    var key, p := s.workers[w].key, s.workers[w].phase;
    var call := CallFor(p.docs[p.i], key.namespace, api.suffix, s.nextId, acknowledged);
    var landed := CallSucceeds(s.objects, p.docs[p.i], key.namespace, api);
    OwnFits(claim, s, w);
    ApplyFits(claim, s.actions[key], p, call, landed);
    OwnResult(claim, s, w, Logged(s.actions[key], call, landed),
              AppliedPhase(p, call.reference, landed && acknowledged));
    ApplyShape(s, w, api, acknowledged);
  }

  lemma ApplyBackupKeeps(claim: Claim, s: State, e: Event)
    requires Enabled(s, e) && e.ApplyDoc? && s.workers[e.w].phase.BackupApplying? && Ours(claim, s, e.w)
    ensures Everywhere(claim, Next(s, e).actions, Next(s, e).workers)
  {
    ApplyMoves(s, e.w, e.api, e.acknowledged);
    IdleHandsKeep(claim, s, NextApply(s, e.w, e.api, e.acknowledged), e.w);
  }

  lemma SaveShape(s: State, w: nat)
    requires w < |s.workers| && s.workers[w].phase.ActionSaving? && s.workers[w].key in s.actions
    ensures var t := NextSave(s, w);
            var key, p := s.workers[w].key, s.workers[w].phase;
            if Version(s, w, p.got) then
              t.actions == s.actions[key := Landed(s.actions[key], p)]
              && t.workers == s.workers[w := s.workers[w].(phase := Leaving)]
            else
              t.actions == s.actions
              && t.workers == s.workers[w := s.workers[w].(phase :=
                   if p.attempt + 1 < MAX_ATTEMPTS then Retrying(p, p.attempt + 1, None) else Leaving)]
  {
  }

  lemma SaveActionKeeps(claim: Claim, s: State, e: Event)
    requires Enabled(s, e) && e.SaveUpdate? && Lands(s, e) && Ours(claim, s, e.w)
    requires OwnOk(s, e.w) && s.workers[e.w].phase.ActionSaving?
    ensures Everywhere(claim, Next(s, e).actions, Next(s, e).workers)
  {
    var worker, t := s.workers[e.w], NextSave(s, e.w);
    SaveShape(s, e.w);
    OwnFits(claim, s, e.w);
    if Version(s, e.w, worker.phase.got) {
      LandedFits(claim, s.actions[worker.key], s.nextId, worker.role, worker.phase);
    }
    OwnKept(claim, s, t, e.w);
  }

  lemma SaveBackupKeeps(claim: Claim, s: State, e: Event)
    requires Enabled(s, e) && e.SaveUpdate? && s.workers[e.w].phase.BackupSaving? && Ours(claim, s, e.w)
    ensures Everywhere(claim, Next(s, e).actions, Next(s, e).workers)
  {
    SaveMoves(s, e.w);
    IdleHandsKeep(claim, s, NextSave(s, e.w), e.w);
  }

  lemma ObtainKeeps(claim: Claim, s: State, e: Event)
    requires Everywhere(claim, s.actions, s.workers) && Enabled(s, e) && e.Obtain?
    ensures Everywhere(claim, Next(s, e).actions, Next(s, e).workers)
  {
    var t := Next(s, e);
    forall v, k | 0 <= v < |s.workers| ensures CarriesFor(t.workers[v], k) <==> CarriesFor(s.workers[v], k) {
    }
    forall v | 0 <= v < |s.workers| ensures WorkerFits(claim, t.actions, t.workers[v]) {
      assert WorkerFits(claim, s.actions, s.workers[v]);
    }
  }

  lemma RestartKeeps(claim: Claim, s: State, e: Event)
    requires Everywhere(claim, s.actions, s.workers) && Enabled(s, e) && Restarts(s, e) && Lands(s, e)
    ensures Everywhere(claim, Next(s, e).actions, Next(s, e).workers)
  {
    assert Next(s, e) == Restarted(s);
    assert forall v :: 0 <= v < |s.workers| ==> s.workers[v] in s.workers;
    assert forall v, k :: 0 <= v < |s.workers| ==> !CarriesFor(s.workers[v], k);
  }

  lemma VersionsAreIrrelevant(claim: Claim, a: Action, b: Action, p: Phase)
    requires SameHistory(a, b)
    ensures AtRest(claim, a) <==> AtRest(claim, b)
    ensures Fits(claim, a, p) <==> Fits(claim, b, p)
  {
  }

  lemma EnvironmentKeeps(claim: Claim, s: State, e: Event)
    requires Everywhere(claim, s.actions, s.workers) && Enabled(s, e) && !IsWorkerEvent(e) && !e.Crash?
    ensures Everywhere(claim, Next(s, e).actions, Next(s, e).workers)
  {
    EnvironmentStepShape(s, e);
    var t := Next(s, e);
    if e.EditAction? {
      forall v | 0 <= v < |s.workers| ensures WorkerFits(claim, t.actions, s.workers[v]) {
        assert WorkerFits(claim, s.actions, s.workers[v]);
        VersionsAreIrrelevant(claim, s.actions[e.key], t.actions[e.key], s.workers[v].phase);
      }
      VersionsAreIrrelevant(claim, s.actions[e.key], t.actions[e.key], Idle);
    } else {
      assert t.actions == s.actions;
    }
  }

  lemma WorkerKeeps(claim: Claim, s: State, e: Event)
    requires Kept(claim, s) && Enabled(s, e) && Lands(s, e) && (claim == AppliedOnce ==> Applies(s, e))
    requires IsWorkerEvent(e) && !e.Obtain? && !Restarts(s, e) && OwnOk(s, e.w)
    ensures Everywhere(claim, Next(s, e).actions, Next(s, e).workers)
  {
    WorkerStepShape(s, e);
    InsideAlone(s, e.w);
    if e.Render? {
      RenderKeeps(claim, s, e);
    } else if e.ApplyDoc? {
      if s.workers[e.w].phase.ActionApplying? {
        ApplyActionKeeps(claim, s, e.w, e.api, e.acknowledged);
      } else {
        ApplyBackupKeeps(claim, s, e);
      }
    } else if e.SaveUpdate? {
      if s.workers[e.w].phase.ActionSaving? {
        SaveActionKeeps(claim, s, e);
      } else {
        SaveBackupKeeps(claim, s, e);
      }
    } else if e.Examine? || e.Done? {
      IdleHandsKeep(claim, s, Next(s, e), e.w);
    } else {
      PhaseKeeps(claim, s, e);
    }
  }

  lemma StepKeeps(claim: Claim, s: State, e: Event)
    requires Kept(claim, s) && Enabled(s, e) && Lands(s, e) && (claim == AppliedOnce ==> Applies(s, e))
    requires IsWorkerEvent(e) ==> OwnOk(s, e.w)
    ensures Everywhere(claim, Next(s, e).actions, Next(s, e).workers)
  {
    if Restarts(s, e) {
      RestartKeeps(claim, s, e);
    } else if e.Obtain? {
      ObtainKeeps(claim, s, e);
    } else if IsWorkerEvent(e) {
      WorkerKeeps(claim, s, e);
    } else {
      EnvironmentKeeps(claim, s, e);
    }
  }

  lemma {:induction false} RunKeeps(claim: Claim, s: State, events: seq<Event>)
    requires Inv(s) && Everywhere(claim, s.actions, s.workers) && Legal(s, events) && Lossless(s, events)
    requires claim == AppliedOnce ==> FaultFree(s, events)
    ensures Everywhere(claim, Exec(s, events).actions, Exec(s, events).workers)
    decreases |events|
  {
    if events != [] {
      StepKeepsInv(s, events[0]);
      StepKeeps(claim, s, events[0]);
      RunKeeps(claim, Next(s, events[0]), events[1..]);
    }
  }

  lemma RestsAtEnd(claim: Claim, s0: State, events: seq<Event>, k: Request)
    requires Init(s0) && Legal(s0, events) && Lossless(s0, events) && k in Exec(s0, events).actions
    requires claim == AppliedOnce ==> FaultFree(s0, events)
    requires forall w :: w in Exec(s0, events).workers && w.key == k ==> !w.Inside()
    ensures AtRest(claim, Exec(s0, events).actions[k])
  {
    InitHasInv(s0);
    assert forall v :: 0 <= v < |s0.workers| ==> s0.workers[v] in s0.workers;
    RunKeeps(claim, s0, events);
    var s := Exec(s0, events);
    forall v | 0 <= v < |s.workers| ensures !CarriesFor(s.workers[v], k) {
      assert s.workers[v] in s.workers;
    }
  }

  // ----- the theorems -----

  /** In every run whose status writes land, however many applies fail halfway and are retried, the references stored
      for an action at rest are exactly those of its reported CreateOrUpdate calls, in order. */
  lemma ReferencesAreConserved(s0: State, events: seq<Event>, k: Request)
    requires Init(s0) && Legal(s0, events) && Lossless(s0, events) && k in Exec(s0, events).actions
    requires forall w :: w in Exec(s0, events).workers && w.key == k ==> !w.Inside()
    ensures var a := Exec(s0, events).actions[k]; a.status.ownedReferences == Reported(a.calls)
  {
    RestsAtEnd(Conserved, s0, events, k);
  }

  lemma {:induction false} ReportedAll(calls: seq<Call>)
    requires forall j :: 0 <= j < |calls| ==> calls[j].reported
    ensures |Reported(calls)| == |calls| && forall j :: 0 <= j < |calls| ==> Reported(calls)[j] == calls[j].reference
  {
    if calls != [] {
      ReportedAll(calls[..|calls| - 1]);
    }
  }

  /** In a fault-free run an action runs exactly once: at rest it is either untouched, or processed after one single
      pass whose every document was applied exactly once and is in the cluster, unless a later call rewrote its object;
      the stored references are those applications. */
  lemma ActionRunsExactlyOnce(s0: State, events: seq<Event>, k: Request)
    requires Init(s0) && Legal(s0, events) && FaultFree(s0, events) && k in Exec(s0, events).actions
    requires forall w :: w in Exec(s0, events).workers && w.key == k ==> !w.Inside()
    ensures var a := Exec(s0, events).actions[k];
            if !a.status.processed then a.calls == [] && a.status.ownedReferences == []
            else
              && |a.passes| == 1 && a.passes[0] != []
              && |a.calls| == |a.passes[0]| == |a.status.ownedReferences|
              && forall j :: 0 <= j < |a.calls| ==>
                   && Applied(a.calls[j], a.passes[0][j]) && InCluster(Exec(s0, events), a.calls[j])
                   && a.status.ownedReferences[j] == a.calls[j].reference
  {
    FaultFreeIsLossless(s0, events);
    RestsAtEnd(AppliedOnce, s0, events, k);
    ReferencesAreConserved(s0, events, k);
    var a := Exec(s0, events).actions[k];
    if a.status.processed {
      forall j | 0 <= j < |a.calls| ensures InCluster(Exec(s0, events), a.calls[j]) {
        CallsAreInTheCluster(s0, events, k, a.calls[j]);
      }
      ReportedAll(a.calls);
    }
  }
}
