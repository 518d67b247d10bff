/** Nothing is rendered, applied, judged or recorded before the aggregate was hydrated. */
module Dependencies {
  import opened Wrappers
  import opened Locking
  import opened Rendering
  import opened Cluster
  import opened ControlPlane
  import opened LockProtocol
  import opened Runs

  /** How the hydration of worker `w` ended since it last asked for the lock, if it came to that. */
  function LastHydration(events: seq<Event>, w: nat): Option<bool>
    decreases |events|
  {
    if events == [] then None
    else
      var n := |events| - 1;
      if events[n].Hydrate? && events[n].w == w then Some(events[n].ok)
      else if events[n].Obtain? && events[n].w == w then None
      else LastHydration(events[..n], w)
  }

  /** Phases that rest on a hydrated aggregate: all but those before it, and the report that something is missing. */
  predicate Rests(p: Phase) {
    || p.ActionRendering? || p.ActionApplying? || p.ActionExamining? || p.ActionSaving?
    || p.BackupRendering? || p.BackupApplying? || p.BackupExamining?
    || (p.BackupSaving? && (p.next == ThenRender || p.change.Publish? || p.change == Mark(True)))
  }

  lemma PhaseRests(s: State, e: Event)
    requires Enabled(s, e) && PhaseOnly(e)
    ensures Rests(NextPhase(s, e)) ==> if e.Hydrate? then e.ok else Rests(s.workers[e.w].phase)
  {
  }

  lemma SaveRests(s: State, w: nat)
    requires w < |s.workers| && (s.workers[w].phase.ActionSaving? || s.workers[w].phase.BackupSaving?)
    ensures Rests(NextSave(s, w).workers[w].phase) ==> Rests(s.workers[w].phase)
  {
  }

  lemma ApplyRests(s: State, w: nat, api: Answers, acknowledged: bool)
    requires w < |s.workers| && (s.workers[w].phase.ActionApplying? || s.workers[w].phase.BackupApplying?)
    requires s.workers[w].phase.i < |s.workers[w].phase.docs|
    ensures |NextApply(s, w, api, acknowledged).workers| == |s.workers| && Rests(s.workers[w].phase)
  {
  }

  lemma RenderRests(s: State, w: nat, docs: Option<seq<Document>>)
    requires w < |s.workers| && (s.workers[w].phase.ActionRendering? || s.workers[w].phase.BackupRendering?)
    ensures |NextRender(s, w, docs).workers| == |s.workers| && Rests(s.workers[w].phase)
  {
  }

  /** What a worker's own step needs. */
  lemma OwnRests(s: State, e: Event)
    requires Enabled(s, e) && IsWorkerEvent(e) && !e.Obtain? && !Restarts(s, e)
    ensures |Next(s, e).workers| == |s.workers|
    ensures Rests(Next(s, e).workers[e.w].phase) ==> if e.Hydrate? then e.ok else Rests(s.workers[e.w].phase)
  {
    WorkerStepShape(s, e);
    if e.SaveUpdate? {
      SaveRests(s, e.w);
    } else if e.ApplyDoc? {
      ApplyRests(s, e.w, e.api, e.acknowledged);
    } else if e.Render? {
      RenderRests(s, e.w, e.docs);
    } else if PhaseOnly(e) {
      PhaseRests(s, e);
    }
  }

  /** One step, seen by worker `w`. */
  lemma StepRests(s: State, e: Event, w: nat)
    requires Enabled(s, e) && w < |s.workers|
    ensures |Next(s, e).workers| == |s.workers|
    ensures Rests(Next(s, e).workers[w].phase) ==>
              if e.Hydrate? && e.w == w then e.ok else !(e.Obtain? && e.w == w) && Rests(s.workers[w].phase)
  {
    if Restarts(s, e) {
      assert Next(s, e) == Restarted(s);
    } else if !IsWorkerEvent(e) {
      EnvironmentStepShape(s, e);
    } else if !e.Obtain? {
      WorkerStepShape(s, e);
      if e.w == w {
        OwnRests(s, e);
      }
    }
  }

  /** In every run, a worker that renders, applies, examines, publishes, records or is about to has hydrated its
      aggregate with success since it asked for the lock: a missing dependency stops all of it. */
  lemma {:induction false} NothingWithoutDependencies(s0: State, events: seq<Event>, w: nat)
    requires Init(s0) && Legal(s0, events) && w < |Exec(s0, events).workers|
    ensures Rests(Exec(s0, events).workers[w].phase) ==> LastHydration(events, w) == Some(true)
    decreases |events|
  {
    if events == [] {
      assert s0.workers[w] in s0.workers;
    } else {
      var n := |events| - 1;
      LastStep(s0, events);
      StepRests(Exec(s0, events[..n]), events[n], if w < |Exec(s0, events[..n]).workers| then w else 0);
      NothingWithoutDependencies(s0, events[..n], w);
    }
  }
}
