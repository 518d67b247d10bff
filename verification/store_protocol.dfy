/** What the two histories the controllers are judged by, the calls of an action and the installations of a scheduled
    backup, have to do with the objects in the cluster. */
module StoreProtocol {
  import opened Wrappers
  import opened Locking
  import opened References
  import opened Rendering
  import opened Cluster
  import opened ControlPlane
  import opened LockProtocol

  // ----- calls and documents -----

  /** A reported application of this very document. */
  predicate Applied(call: Call, doc: Document) {
    && call.doc == doc && call.reported
    && call.reference == ReferenceTo(doc.gvk, call.reference.trackingId)
  }

  /** The calls are the successful applications of the first `n` documents, in order. */
  predicate Matches(calls: seq<Call>, docs: seq<Document>, n: nat) {
    |calls| == n <= |docs| && forall j :: 0 <= j < n ==> Applied(calls[j], docs[j])
  }

  function IdOf(call: Call): TrackingId {
    call.reference.trackingId
  }

  /** The object written to is the one the document asks for, in the namespace of the request. */
  predicate Aims(l: Landing) {
    var id, doc := l.call.target, l.call.doc;
    && id.group == doc.gvk.group && id.kind == doc.gvk.kind && id.namespace == l.key.namespace
    && (doc.name != "" ==> id.name == doc.name)
    && l.call.reference == ReferenceTo(doc.gvk, IdOf(l.call))
  }

  /** The last call that wrote to an object. */
  function LastAt(landings: seq<Landing>, id: Identity): Option<Call>
    decreases |landings|
  {
    if landings == [] then None
    else
      var n := |landings| - 1;
      if landings[n].call.target == id then Some(landings[n].call) else LastAt(landings[..n], id)
  }

  /** The calls made for one action, or for one scheduled backup. */
  function CallsOf(landings: seq<Landing>, k: Request, forAction: bool): seq<Call>
    decreases |landings|
  {
    if landings == [] then []
    else
      var n := |landings| - 1;
      CallsOf(landings[..n], k, forAction)
      + if landings[n].key == k && landings[n].forAction == forAction then [landings[n].call] else []
  }

  lemma OneMoreLanding(landings: seq<Landing>, l: Landing)
    ensures forall id :: LastAt(landings + [l], id) ==
                         if l.call.target == id then Some(l.call) else LastAt(landings, id)
    ensures forall k, forAction :: CallsOf(landings + [l], k, forAction) ==
                CallsOf(landings, k, forAction) + if l.key == k && l.forAction == forAction then [l.call] else []
  {
    assert (landings + [l])[..|landings|] == landings;
  }

  // ----- the invariant -----

  /** Identifiers are drawn in order, and every call went where its document asked. */
  ghost predicate LandingsOk(landings: seq<Landing>, nextId: TrackingId) {
    && (forall l :: l in landings ==> Aims(l) && 1 <= IdOf(l.call) < nextId)
    && (forall i, j :: 0 <= i < j < |landings| ==> IdOf(landings[i].call) < IdOf(landings[j].call))
  }

  /** Every object is what the last call to it left, or what it was at the start. */
  ghost predicate Mirrors(start: Store, objects: Store, landings: seq<Landing>) {
    && (forall k :: k in objects <==> k in start || LastAt(landings, k).Some?)
    && (forall k :: k in objects ==>
          match LastAt(landings, k)
          case Some(call) => objects[k].doc == call.doc && objects[k].tracking == IdOf(call)
          case None => k in start && objects[k].doc == start[k].doc && objects[k].tracking == 0)
  }

  /** An action's calls are exactly those the cluster saw for it. */
  ghost predicate CallsOk(landings: seq<Landing>, actions: map<Request, Action>) {
    forall k :: k in actions ==> actions[k].calls == CallsOf(landings, k, true)
  }

  /** These calls for a scheduled backup reached the cluster. */
  predicate Reached(landings: seq<Landing>, k: Request, calls: seq<Call>) {
    forall j :: 0 <= j < |calls| ==> Landing(k, false, calls[j]) in landings
  }

  predicate Complete(landings: seq<Landing>, k: Request, pass: Installation) {
    pass.docs != [] && Matches(pass.calls, pass.docs, |pass.docs|) && Reached(landings, k, pass.calls)
  }

  ghost predicate InstallsOk(landings: seq<Landing>, schedules: map<Request, Schedule>) {
    forall k :: k in schedules ==>
      && |schedules[k].installed| == |schedules[k].applies|
      && forall i :: 0 <= i < |schedules[k].installed| ==> Complete(landings, k, schedules[k].installed[i])
  }

  predicate MadeOk(landings: seq<Landing>, worker: Worker) {
    worker.phase.BackupApplying? ==>
      var p := worker.phase;
      p.i <= |p.docs| && Matches(p.made, p.docs, p.i) && Reached(landings, worker.key, p.made)
  }

  ghost predicate AllMade(landings: seq<Landing>, workers: seq<Worker>) {
    forall v :: 0 <= v < |workers| ==> MadeOk(landings, workers[v])
  }

  ghost predicate StoreInv(start: Store, s: State) {
    && s.nextId >= 1 && (forall k :: k in start ==> start[k].tracking == 0)
    && LandingsOk(s.landings, s.nextId) && Mirrors(start, s.objects, s.landings)
    && CallsOk(s.landings, s.actions) && InstallsOk(s.landings, s.schedules) && AllMade(s.landings, s.workers)
  }

  // ----- steps that reach no object -----

  /** The histories are what they were, and a worker that is applying is where it was or at its first document. */
  ghost predicate Silent(s: State, t: State) {
    && t.landings == s.landings && t.nextId == s.nextId
    && t.actions.Keys == s.actions.Keys && (forall k :: k in s.actions ==> t.actions[k].calls == s.actions[k].calls)
    && t.schedules.Keys == s.schedules.Keys
    && (forall k :: k in s.schedules ==>
          t.schedules[k].applies == s.schedules[k].applies && t.schedules[k].installed == s.schedules[k].installed)
    && |t.workers| == |s.workers|
    && forall v :: 0 <= v < |t.workers| && t.workers[v].phase.BackupApplying? ==>
         t.workers[v] == s.workers[v] || (t.workers[v].phase.made == [] && t.workers[v].phase.i == 0)
  }

  lemma SilentActionSave(s: State, w: nat)
    requires w < |s.workers| && s.workers[w].phase.ActionSaving?
    ensures Silent(s, NextSave(s, w)) && NextSave(s, w).objects == s.objects
  {
  }

  lemma SilentBackupSave(s: State, w: nat)
    requires w < |s.workers| && s.workers[w].phase.BackupSaving?
    ensures Silent(s, NextSave(s, w)) && NextSave(s, w).objects == s.objects
  {
    SaveMoves(s, w);
    var t := NextSave(s, w);
    assert !t.workers[w].phase.BackupApplying? && t.landings == s.landings && t.actions == s.actions;
  }

  lemma SilentRender(s: State, w: nat, docs: Option<seq<Document>>)
    requires w < |s.workers| && (s.workers[w].phase.ActionRendering? || s.workers[w].phase.BackupRendering?)
    ensures Silent(s, NextRender(s, w, docs)) && NextRender(s, w, docs).objects == s.objects
  {
  }

  lemma SilentPhase(s: State, e: Event)
    requires Enabled(s, e) && PhaseOnly(e)
    ensures Silent(s, Next(s, e)) && Next(s, e).objects == s.objects
  {
  }

  lemma SilentBracket(s: State, e: Event)
    requires Enabled(s, e) && (e.Obtain? || e.Done? || e.Examine? || e.Crash?)
    ensures Silent(s, Next(s, e)) && Next(s, e).objects == s.objects
  {
    if Restarts(s, e) {
      assert Next(s, e) == Restarted(s);
    }
  }

  lemma SilentEnvironment(s: State, e: Event)
    requires Enabled(s, e) && !IsWorkerEvent(e) && !e.Crash?
    ensures Silent(s, Next(s, e)) && (!e.JobProgress? ==> Next(s, e).objects == s.objects)
  {
    EnvironmentStepShape(s, e);
  }

  lemma SilentStep(s: State, e: Event)
    requires Enabled(s, e) && !e.ApplyDoc?
    ensures Silent(s, Next(s, e)) && (!e.JobProgress? ==> Next(s, e).objects == s.objects)
  {
    if e.SaveUpdate? {
      if s.workers[e.w].phase.ActionSaving? {
        SilentActionSave(s, e.w);
      } else {
        SilentBackupSave(s, e.w);
      }
    } else if e.Render? {
      SilentRender(s, e.w, e.docs);
    } else if PhaseOnly(e) {
      SilentPhase(s, e);
    } else if IsWorkerEvent(e) || e.Crash? {
      SilentBracket(s, e);
    } else {
      SilentEnvironment(s, e);
    }
  }

  lemma SilentKeeps(start: Store, s: State, t: State)
    requires StoreInv(start, s) && Silent(s, t) && Mirrors(start, t.objects, t.landings)
    ensures StoreInv(start, t)
  {
    forall v | 0 <= v < |t.workers| ensures MadeOk(t.landings, t.workers[v]) {
      assert MadeOk(s.landings, s.workers[v]);
    }
  }

  // ----- steps that do -----

  lemma PutMirrors(start: Store, objects: Store, landings: seq<Landing>, target: Target, l: Landing)
    requires Mirrors(start, objects, landings)
    requires l.call.target == target.id && l.call.doc == target.doc
    ensures Mirrors(start, Put(objects, target, IdOf(l.call)), landings + [l])
  {
    OneMoreLanding(landings, l);
  }

  lemma MoreLandings(landings: seq<Landing>, more: seq<Landing>, k: Request, calls: seq<Call>)
    requires Reached(landings, k, calls) && landings <= more
    ensures Reached(more, k, calls)
  {
    forall j | 0 <= j < |calls| ensures Landing(k, false, calls[j]) in more {
      var i :| 0 <= i < |landings| && landings[i] == Landing(k, false, calls[j]);
      assert more[i] == landings[i];
    }
  }

  lemma MoreInstalls(landings: seq<Landing>, more: seq<Landing>, schedules: map<Request, Schedule>)
    requires InstallsOk(landings, schedules) && landings <= more
    ensures InstallsOk(more, schedules)
  {
    forall k, i | k in schedules && 0 <= i < |schedules[k].installed|
      ensures Complete(more, k, schedules[k].installed[i])
    {
      assert Complete(landings, k, schedules[k].installed[i]);
      MoreLandings(landings, more, k, schedules[k].installed[i].calls);
    }
  }

  lemma CallAims(doc: Document, key: Request, suffix: string, id: TrackingId, reported: bool, forAction: bool)
    ensures var call, target := CallFor(doc, key.namespace, suffix, id, reported), Resolve(doc, key.namespace, suffix);
            && call.target == target.id && call.doc == target.doc && IdOf(call) == id
            && Aims(Landing(key, forAction, call))
  {
  }

  /** The landing of the document a worker is at. */
  function NextLanding(s: State, w: nat, api: Answers, acknowledged: bool): Landing
    requires w < |s.workers| && (s.workers[w].phase.ActionApplying? || s.workers[w].phase.BackupApplying?)
    requires s.workers[w].phase.i < |s.workers[w].phase.docs|
  {
    var key, p := s.workers[w].key, s.workers[w].phase;
    Landing(key, p.ActionApplying?, CallFor(p.docs[p.i], key.namespace, api.suffix, s.nextId, acknowledged))
  }

  /** The record, the store and the next identifier after one document. */
  predicate Writes(s: State, t: State, w: nat, api: Answers, acknowledged: bool)
    requires w < |s.workers| && (s.workers[w].phase.ActionApplying? || s.workers[w].phase.BackupApplying?)
    requires s.workers[w].phase.i < |s.workers[w].phase.docs|
  {
    var key, p := s.workers[w].key, s.workers[w].phase;
    && t.nextId == s.nextId + 1
    && if CallSucceeds(s.objects, p.docs[p.i], key.namespace, api) then
         && t.landings == s.landings + [NextLanding(s, w, api, acknowledged)]
         && t.objects == Put(s.objects, Resolve(p.docs[p.i], key.namespace, api.suffix), s.nextId)
       else t.landings == s.landings && t.objects == s.objects
  }

  lemma ActionWrites(s: State, w: nat, api: Answers, acknowledged: bool)
    requires w < |s.workers| && s.workers[w].phase.ActionApplying? && s.workers[w].phase.i < |s.workers[w].phase.docs|
    ensures Writes(s, NextApply(s, w, api, acknowledged), w, api, acknowledged)
  {
  }

  lemma BackupWrites(s: State, w: nat, api: Answers, acknowledged: bool)
    requires w < |s.workers| && s.workers[w].phase.BackupApplying? && s.workers[w].phase.i < |s.workers[w].phase.docs|
    ensures Writes(s, NextApply(s, w, api, acknowledged), w, api, acknowledged)
  {
  }

  lemma ApplyStore(s: State, w: nat, api: Answers, acknowledged: bool)
    requires w < |s.workers| && (s.workers[w].phase.ActionApplying? || s.workers[w].phase.BackupApplying?)
    requires s.workers[w].phase.i < |s.workers[w].phase.docs|
    ensures Writes(s, NextApply(s, w, api, acknowledged), w, api, acknowledged)
  {
    if s.workers[w].phase.ActionApplying? {
      ActionWrites(s, w, api, acknowledged);
    } else {
      BackupWrites(s, w, api, acknowledged);
    }
  }

  /** Actions, schedules and the worker after one document. */
  lemma ApplyHistories(s: State, w: nat, api: Answers, acknowledged: bool)
    requires w < |s.workers| && (s.workers[w].phase.ActionApplying? || s.workers[w].phase.BackupApplying?)
    requires s.workers[w].phase.i < |s.workers[w].phase.docs|
    ensures var t := NextApply(s, w, api, acknowledged);
            var key, p := s.workers[w].key, s.workers[w].phase;
            var call := CallFor(p.docs[p.i], key.namespace, api.suffix, s.nextId, acknowledged);
            var landed := CallSucceeds(s.objects, p.docs[p.i], key.namespace, api);
            && t.actions == (if p.ActionApplying? && key in s.actions then
                               s.actions[key := Logged(s.actions[key], call, landed)] else s.actions)
            && t.schedules == (if p.BackupApplying? && key in s.schedules then
                                 s.schedules[key := AppliedOn(s.schedules[key], p, call, landed && acknowledged)]
                               else s.schedules)
            && t.workers == s.workers[w := s.workers[w].(phase :=
                 if p.ActionApplying? then AppliedPhase(p, call.reference, landed && acknowledged)
                 else AppliedBackupPhase(p, call, landed && acknowledged))]
  {
  }

  lemma NewLanding(landings: seq<Landing>, l: Landing, nextId: TrackingId)
    requires LandingsOk(landings, nextId) && Aims(l) && IdOf(l.call) == nextId >= 1
    ensures LandingsOk(landings, nextId + 1) && LandingsOk(landings + [l], nextId + 1)
  {
    var more := landings + [l];
    forall i, j | 0 <= i < j < |more| ensures IdOf(more[i].call) < IdOf(more[j].call) {
      assert more[i] == landings[i] && landings[i] in landings;
    }
  }

  lemma ApplyKeepsStore(start: Store, s: State, w: nat, api: Answers, acknowledged: bool)
    requires s.nextId >= 1 && LandingsOk(s.landings, s.nextId) && Mirrors(start, s.objects, s.landings)
    requires w < |s.workers| && (s.workers[w].phase.ActionApplying? || s.workers[w].phase.BackupApplying?)
    requires s.workers[w].phase.i < |s.workers[w].phase.docs|
    ensures var t := NextApply(s, w, api, acknowledged);
            t.nextId >= 1 && LandingsOk(t.landings, t.nextId) && Mirrors(start, t.objects, t.landings)
            && s.landings <= t.landings
  {
    ApplyStore(s, w, api, acknowledged);
    var key, p := s.workers[w].key, s.workers[w].phase;
    var l := NextLanding(s, w, api, acknowledged);
    var target := Resolve(p.docs[p.i], key.namespace, api.suffix);
    CallAims(p.docs[p.i], key, api.suffix, s.nextId, acknowledged, p.ActionApplying?);
    PutMirrors(start, s.objects, s.landings, target, l);
    NewLanding(s.landings, l, s.nextId);
  }

  lemma ApplyKeepsCalls(s: State, w: nat, api: Answers, acknowledged: bool)
    requires CallsOk(s.landings, s.actions)
    requires w < |s.workers| && (s.workers[w].phase.ActionApplying? || s.workers[w].phase.BackupApplying?)
    requires s.workers[w].phase.i < |s.workers[w].phase.docs|
    ensures var t := NextApply(s, w, api, acknowledged); CallsOk(t.landings, t.actions)
  {
    ApplyStore(s, w, api, acknowledged);
    ApplyHistories(s, w, api, acknowledged);
    OneMoreLanding(s.landings, NextLanding(s, w, api, acknowledged));
  }

  lemma OneMoreMatch(calls: seq<Call>, docs: seq<Document>, n: nat, call: Call)
    requires Matches(calls, docs, n) && n < |docs| && Applied(call, docs[n])
    ensures Matches(calls + [call], docs, n + 1)
  {
  }

  /** The calls of a worker on a scheduled backup, one document further. */
  lemma OneMoreMade(landings: seq<Landing>, more: seq<Landing>, worker: Worker, call: Call)
    requires worker.phase.BackupApplying? && MadeOk(landings, worker) && worker.phase.i < |worker.phase.docs|
    requires more == landings + [Landing(worker.key, false, call)] && Applied(call, worker.phase.docs[worker.phase.i])
    ensures var p := worker.phase;
            Matches(p.made + [call], p.docs, p.i + 1) && Reached(more, worker.key, p.made + [call])
  {
    var p := worker.phase;
    OneMoreMatch(p.made, p.docs, p.i, call);
    MoreLandings(landings, more, worker.key, p.made);
    assert more[|landings|] in more;
  }

  lemma ApplyKeepsInstalls(s: State, w: nat, api: Answers, acknowledged: bool)
    requires InstallsOk(s.landings, s.schedules) && AllMade(s.landings, s.workers)
    requires w < |s.workers| && (s.workers[w].phase.ActionApplying? || s.workers[w].phase.BackupApplying?)
    requires s.workers[w].phase.i < |s.workers[w].phase.docs|
    ensures var t := NextApply(s, w, api, acknowledged);
            InstallsOk(t.landings, t.schedules) && AllMade(t.landings, t.workers)
  {
    ApplyStore(s, w, api, acknowledged);
    ApplyHistories(s, w, api, acknowledged);
    var t, worker := NextApply(s, w, api, acknowledged), s.workers[w];
    var p := worker.phase;
    var call := CallFor(p.docs[p.i], worker.key.namespace, api.suffix, s.nextId, acknowledged);
    MoreInstalls(s.landings, t.landings, s.schedules);
    assert MadeOk(s.landings, worker);
    if p.BackupApplying? && acknowledged && CallSucceeds(s.objects, p.docs[p.i], worker.key.namespace, api) {
      OneMoreMade(s.landings, t.landings, worker, call);
    }
    forall v | 0 <= v < |t.workers| ensures MadeOk(t.landings, t.workers[v]) {
      assert MadeOk(s.landings, s.workers[v]);
      if v != w && s.workers[v].phase.BackupApplying? {
        MoreLandings(s.landings, t.landings, s.workers[v].key, s.workers[v].phase.made);
      }
    }
  }

  lemma StepKeepsStore(start: Store, s: State, e: Event)
    requires StoreInv(start, s) && Enabled(s, e)
    ensures StoreInv(start, Next(s, e))
  {
    if e.ApplyDoc? {
      ApplyKeepsStore(start, s, e.w, e.api, e.acknowledged);
      ApplyKeepsCalls(s, e.w, e.api, e.acknowledged);
      ApplyKeepsInstalls(s, e.w, e.api, e.acknowledged);
    } else {
      SilentStep(s, e);
      SilentKeeps(start, s, Next(s, e));
    }
  }

  lemma InitHasStoreInv(s: State)
    requires Init(s)
    ensures StoreInv(s.objects, s)
  {
    assert forall v :: 0 <= v < |s.workers| ==> s.workers[v] in s.workers;
  }

  lemma {:induction false} RunKeepsStore(start: Store, s: State, events: seq<Event>)
    requires StoreInv(start, s) && Legal(s, events)
    ensures StoreInv(start, Exec(s, events))
    decreases |events|
  {
    if events != [] {
      StepKeepsStore(start, s, events[0]);
      RunKeepsStore(start, Next(s, events[0]), events[1..]);
    }
  }

  // ----- what it means -----

  /** The cluster was told later to write another document, or the same again, to this object. */
  predicate Rewritten(landings: seq<Landing>, call: Call, now: Object) {
    exists l :: l in landings && l.call.target == call.target && IdOf(l.call) > IdOf(call)
                && now.doc == l.call.doc && now.tracking == IdOf(l.call)
  }

  /** The call's object exists, holds the call's document under the call's label unless it was rewritten since, and no
      other object carries that label. */
  ghost predicate InCluster(s: State, call: Call) {
    && call.target in s.objects
    && (forall k :: k in s.objects && s.objects[k].tracking == IdOf(call) ==> k == call.target)
    && var now := s.objects[call.target];
       (now.doc == call.doc && now.tracking == IdOf(call)) || Rewritten(s.landings, call, now)
  }

  lemma {:induction false} LastIsLatest(landings: seq<Landing>, l: Landing, nextId: TrackingId)
    requires LandingsOk(landings, nextId) && l in landings
    ensures LastAt(landings, l.call.target).Some?
    ensures var last := LastAt(landings, l.call.target).value;
            && last.target == l.call.target && (last == l.call || IdOf(last) > IdOf(l.call))
            && exists m :: m in landings && m.call == last
    decreases |landings|
  {
    var n := |landings| - 1;
    if landings[n].call.target != l.call.target {
      assert l in landings[..n];
      LastIsLatest(landings[..n], l, nextId);
      var m :| m in landings[..n] && m.call == LastAt(landings, l.call.target).value;
      assert m in landings;
    } else {
      var i :| 0 <= i < |landings| && landings[i] == l;
      assert landings[n] in landings;
    }
  }

  lemma {:induction false} LastIsThere(landings: seq<Landing>, id: Identity)
    requires LastAt(landings, id).Some?
    ensures LastAt(landings, id).value.target == id
    ensures exists m :: m in landings && m.call == LastAt(landings, id).value
    decreases |landings|
  {
    var n := |landings| - 1;
    if landings[n].call.target == id {
      assert landings[n] in landings;
    } else {
      LastIsThere(landings[..n], id);
      var m :| m in landings[..n] && m.call == LastAt(landings, id).value;
      assert m in landings;
    }
  }

  lemma SameIdSameCall(landings: seq<Landing>, nextId: TrackingId, l: Landing, m: Landing)
    requires LandingsOk(landings, nextId) && l in landings && m in landings && IdOf(l.call) == IdOf(m.call)
    ensures l == m
  {
    var i :| 0 <= i < |landings| && landings[i] == l;
    var j :| 0 <= j < |landings| && landings[j] == m;
    assert i == j;
  }

  lemma LandedInCluster(start: Store, s: State, l: Landing)
    requires StoreInv(start, s) && l in s.landings
    ensures InCluster(s, l.call)
  {
    LastIsLatest(s.landings, l, s.nextId);
    var last := LastAt(s.landings, l.call.target).value;
    if last != l.call {
      var m :| m in s.landings && m.call == last;
      assert Rewritten(s.landings, l.call, s.objects[l.call.target]);
    }
    forall k | k in s.objects && s.objects[k].tracking == IdOf(l.call) ensures k == l.call.target {
      LastIsThere(s.landings, k);
      var m :| m in s.landings && m.call == LastAt(s.landings, k).value;
      SameIdSameCall(s.landings, s.nextId, l, m);
    }
  }

  lemma {:induction false} CallsLanded(landings: seq<Landing>, k: Request, forAction: bool, call: Call)
    requires call in CallsOf(landings, k, forAction)
    ensures Landing(k, forAction, call) in landings
    decreases |landings|
  {
    var n := |landings| - 1;
    if call in CallsOf(landings[..n], k, forAction) {
      CallsLanded(landings[..n], k, forAction, call);
    } else {
      assert landings[n] in landings;
    }
  }

  /** In every run the cluster holds exactly what was written to it: an object is the document of the last call that
      took effect on it, under that call's label, and otherwise what it was at the start. */
  lemma StoreIsWhatWasWritten(s0: State, events: seq<Event>)
    requires Init(s0) && Legal(s0, events)
    ensures Mirrors(s0.objects, Exec(s0, events).objects, Exec(s0, events).landings)
    ensures forall l :: l in Exec(s0, events).landings ==> Aims(l)
  {
    InitHasStoreInv(s0);
    RunKeepsStore(s0.objects, s0, events);
  }

  /** In every run the calls of an action are exactly those that took effect for it, each where its document asked, and
      each is in the cluster: labelled, unique under its label, with its document, unless rewritten later. */
  lemma CallsAreInTheCluster(s0: State, events: seq<Event>, k: Request, call: Call)
    requires Init(s0) && Legal(s0, events) && k in Exec(s0, events).actions
    requires call in Exec(s0, events).actions[k].calls
    ensures Landing(k, true, call) in Exec(s0, events).landings && Aims(Landing(k, true, call))
    ensures InCluster(Exec(s0, events), call)
  {
    InitHasStoreInv(s0);
    RunKeepsStore(s0.objects, s0, events);
    var s := Exec(s0, events);
    CallsLanded(s.landings, k, true, call);
    LandedInCluster(s0.objects, s, Landing(k, true, call));
  }

  /** A complete installation whose every document is in the cluster, unless a later call rewrote its object. */
  ghost predicate Installed(s: State, k: Request, pass: Installation) {
    && pass.docs != [] && Matches(pass.calls, pass.docs, |pass.docs|)
    && forall j :: 0 <= j < |pass.calls| ==> Aims(Landing(k, false, pass.calls[j])) && InCluster(s, pass.calls[j])
  }

  /** In every run each complete application of a scheduled backup applied every document of its rendered list, in
      order, and all of them are in the cluster, unless a later call rewrote the object. */
  lemma InstallationsAreInTheCluster(s0: State, events: seq<Event>, k: Request)
    requires Init(s0) && Legal(s0, events) && k in Exec(s0, events).schedules
    ensures var b := Exec(s0, events).schedules[k];
            && |b.installed| == |b.applies|
            && forall i :: 0 <= i < |b.installed| ==> Installed(Exec(s0, events), k, b.installed[i])
  {
    InitHasStoreInv(s0);
    RunKeepsStore(s0.objects, s0, events);
    var s := Exec(s0, events);
    var b := s.schedules[k];
    forall i | 0 <= i < |b.installed| ensures Installed(s, k, b.installed[i]) {
      var pass := b.installed[i];
      assert Complete(s.landings, k, pass);
      forall j | 0 <= j < |pass.calls| ensures Aims(Landing(k, false, pass.calls[j])) && InCluster(s, pass.calls[j]) {
        LandedInCluster(s0.objects, s, Landing(k, false, pass.calls[j]));
      }
    }
  }
}
