/** What a worker can rely on between two of its own steps: while it is inside, whatever all others do, its object
    stays as it left it. */
module Isolation {
  import opened Wrappers
  import opened Locking
  import opened Rendering
  import opened Cluster
  import opened ControlPlane
  import opened LockProtocol
  import opened ActionProtocol
  import opened BackupProtocol

  /** Metadata and spec edits may bump the version and generation of an action; nothing else about it moves. */
  predicate ActionStill(a: Action, b: Action) {
    a.status == b.status && a.passes == b.passes && a.calls == b.calls && a.generation <= b.generation
  }

  /** Edits may add versions to a schedule; its status and what was applied of it stay. */
  predicate ScheduleStill(b: Schedule, c: Schedule) {
    && b.history != [] && b.history <= c.history
    && c.Current().status == b.Current().status && c.lastWrite == b.lastWrite && c.applies == b.applies
    && c.installed == b.installed && c.records == b.records
  }

  ghost predicate ActionsStill(s: State, t: State, k: Request) {
    && (k in s.actions <==> k in t.actions)
    && (k in s.actions ==> ActionStill(s.actions[k], t.actions[k]))
  }

  ghost predicate SchedulesStill(s: State, t: State, k: Request) {
    && (k in s.schedules <==> k in t.schedules)
    && (k in s.schedules ==> ScheduleStill(s.schedules[k], t.schedules[k]))
  }

  ghost predicate Still(s: State, t: State, k: Request) {
    ActionsStill(s, t, k) && SchedulesStill(s, t, k)
  }

  /** A step of somebody else, short of a restart. */
  predicate Elsewhere(e: Event, w: nat) {
    !e.Crash? && (IsWorkerEvent(e) ==> e.w != w)
  }

  lemma SaveElsewhere(s: State, v: nat, k: Request)
    requires v < |s.workers| && (s.workers[v].phase.ActionSaving? || s.workers[v].phase.BackupSaving?)
    requires s.workers[v].key != k && (k in s.schedules ==> s.schedules[k].history != [])
    ensures Still(s, NextSave(s, v), k)
  {
  }

  lemma ApplyElsewhere(s: State, v: nat, api: Answers, acknowledged: bool, k: Request)
    requires v < |s.workers| && (s.workers[v].phase.ActionApplying? || s.workers[v].phase.BackupApplying?)
    requires s.workers[v].phase.i < |s.workers[v].phase.docs|
    requires s.workers[v].key != k && (k in s.schedules ==> s.schedules[k].history != [])
    ensures Still(s, NextApply(s, v, api, acknowledged), k)
  {
  }

  lemma RenderElsewhere(s: State, v: nat, docs: Option<seq<Document>>, k: Request)
    requires v < |s.workers| && (s.workers[v].phase.ActionRendering? || s.workers[v].phase.BackupRendering?)
    requires s.workers[v].key != k && (k in s.schedules ==> s.schedules[k].history != [])
    ensures Still(s, NextRender(s, v, docs), k)
  {
  }

  lemma EnvironmentElsewhere(s: State, e: Event, k: Request)
    requires Enabled(s, e) && !IsWorkerEvent(e) && !e.Crash? && (k in s.schedules ==> s.schedules[k].history != [])
    ensures Still(s, Next(s, e), k)
  {
  }

  lemma WorkerElsewhere(s: State, e: Event, k: Request)
    requires Enabled(s, e) && IsWorkerEvent(e) && !e.Obtain? && !Restarts(s, e) && s.workers[e.w].key != k
    requires k in s.schedules ==> s.schedules[k].history != []
    ensures Still(s, Next(s, e), k)
  {
    match e
    case SaveUpdate(v) => SaveElsewhere(s, v, k);
    case ApplyDoc(v, api, acknowledged) => ApplyElsewhere(s, v, api, acknowledged, k);
    case Render(v, docs) => RenderElsewhere(s, v, docs, k);
    case _ =>
  }

  /** No step of another worker or of the environment touches the object of a worker that is inside. */
  lemma StepElsewhere(s: State, e: Event, w: nat)
    requires Inv(s) && BackupInv(s) && Enabled(s, e) && Elsewhere(e, w) && w < |s.workers| && s.workers[w].Inside()
    ensures |Next(s, e).workers| == |s.workers| && Next(s, e).workers[w] == s.workers[w]
    ensures Still(s, Next(s, e), s.workers[w].key)
  {
    OnlyCrashRestarts(s, e);
    var k := s.workers[w].key;
    assert k in s.schedules ==> ScheduleSound(s.schedules[k]);
    if !IsWorkerEvent(e) {
      EnvironmentStepShape(s, e);
      EnvironmentElsewhere(s, e, k);
    } else if !e.Obtain? {
      WorkerStepShape(s, e);
      OthersElsewhere(s, e.w, w);
      WorkerElsewhere(s, e, k);
    }
  }

  lemma StillThen(s: State, t: State, u: State, k: Request)
    requires Still(s, t, k) && Still(t, u, k)
    ensures Still(s, u, k)
  {
  }

  lemma StillSame(s: State, k: Request)
    requires BackupInv(s)
    ensures Still(s, s, k)
  {
    assert k in s.schedules ==> ScheduleSound(s.schedules[k]);
  }

  /** Isolation over any stretch of other activity. */
  lemma {:induction false} RunElsewhere(s: State, events: seq<Event>, w: nat)
    requires Inv(s) && BackupInv(s) && Legal(s, events) && w < |s.workers| && s.workers[w].Inside()
    requires forall e :: e in events ==> Elsewhere(e, w)
    ensures |Exec(s, events).workers| == |s.workers| && Exec(s, events).workers[w] == s.workers[w]
    ensures Still(s, Exec(s, events), s.workers[w].key)
    decreases |events|
  {
    if events == [] {
      StillSame(s, s.workers[w].key);
    } else {
      var t := Next(s, events[0]);
      assert events[0] in events && forall e :: e in events[1..] ==> e in events;
      StepElsewhere(s, events[0], w);
      StepKeepsInv(s, events[0]);
      StepKeepsBackups(s, events[0]);
      RunElsewhere(t, events[1..], w);
      StillThen(s, t, Exec(s, events), s.workers[w].key);
    }
  }
}
