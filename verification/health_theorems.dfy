/** What a published Healthy of a RequestedBackupAction rests on, and what it leaves out. */
module HealthTheorems {
  import opened Wrappers
  import opened Locking
  import opened References
  import opened Rendering
  import opened Cluster
  import opened Health
  import opened ControlPlane
  import opened LockProtocol
  import opened StoreProtocol
  import opened ActionProtocol
  import opened ActionTheorems
  import opened Runs

  // ----- what an observer sends -----

  predicate Witnessed(refs: seq<ChildReference>, evidence: seq<Reading>) {
    |evidence| == |refs| && forall r :: r in evidence ==> Quiet(r)
  }

  lemma ObserverEvidence(a: Action, nextId: TrackingId, p: Phase)
    requires ActionOk(a, nextId) && p.ActionSaving? && p.outcome.None?
    requires PhaseOk(a, nextId, ActionObserver, p) && p.wanted.healthy
    ensures Witnessed(a.status.ownedReferences, p.evidence)
    ensures |p.wanted.childrenHealth| == |a.status.ownedReferences|
  {
    var refs := a.status.ownedReferences;
    var seen := refs[..|p.evidence|];
    forall r | r in seen ensures Recognized(r) {
      assert r in refs;
      JobDecodes(r.trackingId);
    }
    HealthyExactly(seen, p.evidence);
    ErredIsUnhealthy(seen, p.evidence);
    OneEntryPerReference(seen, p.evidence);
    assert |p.evidence| == |refs| && seen == refs;
    forall r | r in p.evidence ensures Quiet(r) {
      var i :| 0 <= i < |p.evidence| && p.evidence[i] == r;
      assert seen[i] in seen;
    }
  }

  /** Each listing an observer collects is the cluster's at that very step, for the next reference of its snapshot. */
  lemma EvidenceIsReal(s: State, e: Event)
    requires Inv(s) && Enabled(s, e) && e.Examine? && s.workers[e.w].phase.ActionExamining?
    ensures !Restarts(s, e)
    ensures var p, q := s.workers[e.w].phase, Next(s, e).workers[e.w].phase;
            && q == ActionExamining(p.base, p.readings + [e.reading])
            && p.base == s.actions[s.workers[e.w].key].status
            && (e.reading.Some? ==>
                  Lists(s.objects, s.workers[e.w].key.namespace,
                        p.base.ownedReferences[|p.readings|].trackingId, e.reading.value))
  {
    var worker := s.workers[e.w];
    assert WorkerOk(s.actions, s.nextId, worker) && ActionOk(s.actions[worker.key], s.nextId);
    var ref := worker.phase.base.ownedReferences[|worker.phase.readings|];
    assert ref in worker.phase.base.ownedReferences;
    JobDecodes(ref.trackingId);
  }

  // ----- when it was seen -----

  /** The moment behind the last Obtain of worker `w`: while it is inside, behind the one that let it in. */
  function EnteredAt(events: seq<Event>, w: nat): (n: nat)
    ensures n <= |events|
    decreases |events|
  {
    if events == [] then 0
    else
      var n := |events| - 1;
      if events[n].Obtain? && events[n].w == w then |events| else EnteredAt(events[..n], w)
  }

  lemma EnteredLater(events: seq<Event>, e: Event, w: nat)
    ensures EnteredAt(events + [e], w) == if e.Obtain? && e.w == w then |events| + 1 else EnteredAt(events, w)
  {
    assert (events + [e])[..|events|] == events;
  }

  ghost predicate ListedAt(s0: State, events: seq<Event>, n: nat, namespace: string, id: TrackingId, jobs: seq<Item>)
    requires n <= |events|
  {
    Legal(s0, events[..n]) && Lists(Exec(s0, events[..n]).objects, namespace, id, jobs)
  }

  /** The cluster gave this listing at some moment of the run, not before `from`. */
  ghost predicate ListedSince(s0: State, events: seq<Event>, from: nat, namespace: string, id: TrackingId,
                              jobs: seq<Item>)
  {
    exists n :: from <= n <= |events| && ListedAt(s0, events, n, namespace, id, jobs)
  }

  /** Every successful reading is a listing of the run since `from`, made for the reference in the same place. */
  ghost predicate Genuine(s0: State, events: seq<Event>, from: nat, k: Request, refs: seq<ChildReference>,
                          evidence: seq<Reading>)
  {
    && |evidence| <= |refs|
    && forall i :: 0 <= i < |evidence| && evidence[i].Some? ==>
         ListedSince(s0, events, from, k.namespace, refs[i].trackingId, evidence[i].value)
  }

  /** What a worker on an action has read of the cluster so far. */
  function EvidenceOf(p: Phase): seq<Reading>
    requires p.ActionExamining? || p.ActionSaving?
  {
    if p.ActionExamining? then p.readings else p.evidence
  }

  ghost predicate WorkerGenuine(s0: State, events: seq<Event>, v: nat, worker: Worker) {
    worker.phase.ActionExamining? || worker.phase.ActionSaving? ==>
      Genuine(s0, events, EnteredAt(events, v), worker.key, worker.phase.base.ownedReferences,
              EvidenceOf(worker.phase))
  }

  lemma StaysListed(s0: State, events: seq<Event>, e: Event, from: nat, namespace: string, id: TrackingId,
                    jobs: seq<Item>)
    requires ListedSince(s0, events, from, namespace, id, jobs)
    ensures ListedSince(s0, events + [e], from, namespace, id, jobs)
  {
    var n :| from <= n <= |events| && ListedAt(s0, events, n, namespace, id, jobs);
    assert (events + [e])[..n] == events[..n];
    assert ListedAt(s0, events + [e], n, namespace, id, jobs);
  }

  lemma StaysGenuine(s0: State, events: seq<Event>, e: Event, from: nat, k: Request, refs: seq<ChildReference>,
                     evidence: seq<Reading>)
    requires Genuine(s0, events, from, k, refs, evidence)
    ensures Genuine(s0, events + [e], from, k, refs, evidence)
  {
    forall i | 0 <= i < |evidence| && evidence[i].Some?
      ensures ListedSince(s0, events + [e], from, k.namespace, refs[i].trackingId, evidence[i].value)
    {
      StaysListed(s0, events, e, from, k.namespace, refs[i].trackingId, evidence[i].value);
    }
  }

  lemma OneMoreGenuine(s0: State, events: seq<Event>, from: nat, k: Request, refs: seq<ChildReference>,
                       evidence: seq<Reading>, reading: Reading)
    requires Genuine(s0, events, from, k, refs, evidence) && |evidence| < |refs|
    requires reading.Some? ==> ListedSince(s0, events, from, k.namespace, refs[|evidence|].trackingId, reading.value)
    ensures Genuine(s0, events, from, k, refs, evidence + [reading])
  {
    var more := evidence + [reading];
    forall i | 0 <= i < |more| && more[i].Some?
      ensures ListedSince(s0, events, from, k.namespace, refs[i].trackingId, more[i].value)
    {
      assert i < |evidence| ==> more[i] == evidence[i];
    }
  }

  /** A listing made now. */
  lemma ListedNow(s0: State, events: seq<Event>, e: Event, from: nat, namespace: string, id: TrackingId,
                  jobs: seq<Item>)
    requires Legal(s0, events) && from <= |events| && Lists(Exec(s0, events).objects, namespace, id, jobs)
    ensures ListedSince(s0, events + [e], from, namespace, id, jobs)
  {
    assert (events + [e])[..|events|] == events;
    assert ListedAt(s0, events + [e], |events|, namespace, id, jobs);
  }

  /** Which worker steps touch the evidence: only Examine adds to it, and Judge hands it over. */
  lemma EvidenceStep(s: State, e: Event, v: nat)
    requires Enabled(s, e) && v < |s.workers|
    ensures |Next(s, e).workers| == |s.workers|
    ensures var p, q := s.workers[v].phase, Next(s, e).workers[v].phase;
            q.ActionExamining? || q.ActionSaving? ==>
              && Next(s, e).workers[v].key == s.workers[v].key
              && if e.Examine? && e.w == v then
                   p.ActionExamining? && q == ActionExamining(p.base, p.readings + [e.reading])
                 else
                   EvidenceOf(q) == [] ||
                   ((p.ActionExamining? || p.ActionSaving?) && q.base == p.base && EvidenceOf(q) == EvidenceOf(p))
  {
    if Restarts(s, e) {
      assert Next(s, e) == Restarted(s);
    } else if !IsWorkerEvent(e) {
      EnvironmentStepShape(s, e);
    } else if !e.Obtain? {
      WorkerStepShape(s, e);
      if e.w == v {
        OwnEvidence(s, e);
      }
    }
  }

  lemma OwnEvidence(s: State, e: Event)
    requires Enabled(s, e) && IsWorkerEvent(e) && !e.Obtain? && !Restarts(s, e)
    ensures |Next(s, e).workers| == |s.workers|
    ensures var p, q := s.workers[e.w].phase, Next(s, e).workers[e.w].phase;
            q.ActionExamining? || q.ActionSaving? ==>
              if e.Examine? then p.ActionExamining? && q == ActionExamining(p.base, p.readings + [e.reading])
              else
                EvidenceOf(q) == [] ||
                ((p.ActionExamining? || p.ActionSaving?) && q.base == p.base && EvidenceOf(q) == EvidenceOf(p))
  {
    WorkerStepShape(s, e);
    if e.SaveUpdate? {
      SaveEvidence(s, e.w);
    } else if e.ApplyDoc? {
      ApplyEvidence(s, e.w, e.api, e.acknowledged);
    } else if e.Render? {
      RenderEvidence(s, e.w, e.docs);
    }
  }

  lemma SaveEvidence(s: State, w: nat)
    requires w < |s.workers| && (s.workers[w].phase.ActionSaving? || s.workers[w].phase.BackupSaving?)
    ensures var p, q := s.workers[w].phase, NextSave(s, w).workers[w].phase;
            !q.ActionExamining? &&
            (q.ActionSaving? ==> p.ActionSaving? && q.base == p.base && q.evidence == p.evidence)
  {
  }

  lemma ApplyEvidence(s: State, w: nat, api: Answers, acknowledged: bool)
    requires w < |s.workers| && (s.workers[w].phase.ActionApplying? || s.workers[w].phase.BackupApplying?)
    requires s.workers[w].phase.i < |s.workers[w].phase.docs|
    ensures var q := NextApply(s, w, api, acknowledged).workers[w].phase;
            !q.ActionExamining? && (q.ActionSaving? ==> q.evidence == [])
  {
  }

  lemma RenderEvidence(s: State, w: nat, docs: Option<seq<Document>>)
    requires w < |s.workers| && (s.workers[w].phase.ActionRendering? || s.workers[w].phase.BackupRendering?)
    ensures var q := NextRender(s, w, docs).workers[w].phase;
            !q.ActionExamining? && (q.ActionSaving? ==> q.evidence == [])
  {
  }

  /** The step in which worker `v` reads one more listing. */
  lemma ReadingGenuine(s0: State, events: seq<Event>, e: Event, v: nat)
    requires Legal(s0, events) && Inv(Exec(s0, events)) && Enabled(Exec(s0, events), e) && e.Examine? && e.w == v
    requires Exec(s0, events).workers[v].phase.ActionExamining?
    requires WorkerGenuine(s0, events, v, Exec(s0, events).workers[v])
    ensures v < |Next(Exec(s0, events), e).workers|
    ensures WorkerGenuine(s0, events + [e], v, Next(Exec(s0, events), e).workers[v])
  {
    var s := Exec(s0, events);
    var k, p, from := s.workers[v].key, s.workers[v].phase, EnteredAt(events, v);
    EvidenceStep(s, e, v);
    EvidenceIsReal(s, e);
    EnteredLater(events, e, v);
    var refs := p.base.ownedReferences;
    StaysGenuine(s0, events, e, from, k, refs, p.readings);
    if e.reading.Some? {
      ListedNow(s0, events, e, from, k.namespace, refs[|p.readings|].trackingId, e.reading.value);
    }
    OneMoreGenuine(s0, events + [e], from, k, refs, p.readings, e.reading);
  }

  /** A worker that has just entered has read nothing. */
  lemma EntersEmpty(s: State, e: Event)
    requires Enabled(s, e) && e.Obtain?
    ensures var q := Next(s, e).workers[e.w].phase; q.Idle? || q.Holding?
  {
  }

  /** Any other step, seen by worker `v`. */
  lemma StepGenuine(s0: State, events: seq<Event>, e: Event, v: nat)
    requires Legal(s0, events) && Enabled(Exec(s0, events), e)
    requires v < |Exec(s0, events).workers| && WorkerGenuine(s0, events, v, Exec(s0, events).workers[v])
    requires !(e.Examine? && e.w == v)
    ensures v < |Next(Exec(s0, events), e).workers|
    ensures WorkerGenuine(s0, events + [e], v, Next(Exec(s0, events), e).workers[v])
  {
    var s := Exec(s0, events);
    var q := Next(s, e).workers[v].phase;
    EvidenceStep(s, e, v);
    EnteredLater(events, e, v);
    if e.Obtain? && e.w == v {
      EntersEmpty(s, e);
    } else if (q.ActionExamining? || q.ActionSaving?) && EvidenceOf(q) != [] {
      StaysGenuine(s0, events, e, EnteredAt(events, v), s.workers[v].key, q.base.ownedReferences, EvidenceOf(q));
    }
  }

  /** In every run, whatever a worker on an action has collected so far are listings made since it entered. */
  lemma {:induction false} AllGenuine(s0: State, events: seq<Event>, v: nat)
    requires Init(s0) && Legal(s0, events) && v < |Exec(s0, events).workers|
    ensures WorkerGenuine(s0, events, v, Exec(s0, events).workers[v])
    decreases |events|
  {
    if events == [] {
      assert s0.workers[v] in s0.workers;
    } else {
      var n := |events| - 1;
      var before, e := events[..n], events[n];
      LastStep(s0, events);
      SameWorkers(Exec(s0, before), e);
      AllGenuine(s0, before, v);
      InitHasInv(s0);
      RunKeepsInv(s0, before);
      assert before + [e] == events;
      if e.Examine? && e.w == v && Exec(s0, before).workers[v].phase.ActionExamining? {
        ReadingGenuine(s0, before, e, v);
      } else if e.Examine? && e.w == v {
        EvidenceStep(Exec(s0, before), e, v);
      } else {
        StepGenuine(s0, before, e, v);
      }
    }
  }

  lemma SameWorkers(s: State, e: Event)
    requires Enabled(s, e)
    ensures |Next(s, e).workers| == |s.workers|
  {
    if Restarts(s, e) {
      assert Next(s, e) == Restarted(s);
    } else if !IsWorkerEvent(e) {
      EnvironmentStepShape(s, e);
    } else if !e.Obtain? {
      WorkerStepShape(s, e);
    }
  }

  // ----- soundness -----

  /** This step stores a status with Healthy = true, by the observer. */
  ghost predicate Publishes(s: State, e: Event, k: Request)
    requires Enabled(s, e)
  {
    && k in s.actions && k in Next(s, e).actions && WroteBy(s, e, k, ActionObserver)
    && Next(s, e).actions[k].status != s.actions[k].status && Next(s, e).actions[k].status.healthy
  }

  /** Whenever a step stores Healthy = true for an action, either it was stored already and the pass just succeeded, or
      the writer is an observer that looked up every reference of the stored list, found at least one labelled Job for
      each, and saw none with a failed or active pod, in listings the cluster gave since this observer obtained the
      lock; the report it stores has one entry per reference. No report is stored while an entry of it is running. */
  lemma PublishedHealthIsSound(s0: State, events: seq<Event>, e: Event, k: Request)
    requires Init(s0) && Legal(s0, events) && Enabled(Exec(s0, events), e) && k in Exec(s0, events).actions
    ensures var s := Exec(s0, events);
            var t := Next(s, e);
            && k in t.actions
            && (t.actions[k].status != s.actions[k].status && t.actions[k].status.healthy ==>
              || (s.actions[k].status.healthy && WroteBy(s, e, k, ActionReconciler) && t.actions[k].status.processed)
              || (Publishes(s, e, k) && s.workers[e.w].phase.ActionSaving?
                  && Witnessed(s.actions[k].status.ownedReferences, s.workers[e.w].phase.evidence)
                  && Genuine(s0, events, EnteredAt(events, e.w), k, s.actions[k].status.ownedReferences,
                             s.workers[e.w].phase.evidence)
                  && |t.actions[k].status.childrenHealth| == |s.actions[k].status.ownedReferences|))
            && (t.actions[k].status != s.actions[k].status && WroteBy(s, e, k, ActionObserver) ==>
                  forall h :: h in t.actions[k].status.childrenHealth ==> !h.running)
  {
    InitHasInv(s0);
    RunKeepsInv(s0, events);
    var s := Exec(s0, events);
    var t := Next(s, e);
    EveryWriteIsFaithful(s, e, k);
    if t.actions[k].status != s.actions[k].status && WroteBy(s, e, k, ActionObserver) {
      var worker := s.workers[e.w];
      AllGenuine(s0, events, e.w);
      assert WorkerOk(s.actions, s.nextId, worker) && WorkerGenuine(s0, events, e.w, worker);
      assert ActionOk(s.actions[k], s.nextId);
      if t.actions[k].status.healthy {
        ObserverEvidence(s.actions[k], s.nextId, worker.phase);
      }
    }
  }

  lemma OnceEach<T>(q: seq<T>, xs: set<T>)
    requires multiset(q) == multiset(xs)
    ensures forall x :: x in q <==> x in xs
    ensures forall i, j :: 0 <= i < j < |q| ==> q[i] != q[j]
  {
    forall x ensures x in q <==> x in xs {
      assert x in q <==> x in multiset(q);
    }
    forall i, j | 0 <= i < j < |q| ensures q[i] != q[j] {
      assert q == q[..i] + [q[i]] + q[i + 1..] && q[j] in q[i + 1..];
      assert multiset(q)[q[i]] == multiset(xs)[q[i]] <= 1;
      assert multiset(q) == multiset(q[..i]) + multiset{q[i]} + multiset(q[i + 1..]);
    }
  }

  /** A label selector's answer, written out: exactly the batch Jobs of the namespace under that label, once each, as
      they are. */
  lemma ListsExactly(objects: Store, namespace: string, id: TrackingId, jobs: seq<Item>)
    requires Lists(objects, namespace, id, jobs)
    ensures forall j :: j in jobs ==> j.id in objects && objects[j.id] == j.job
    ensures forall k :: k in objects ==>
              (Item(k, objects[k]) in jobs <==>
               k.group == "batch" && k.kind == "Job" && k.namespace == namespace && objects[k].tracking == id)
    ensures forall i, j :: 0 <= i < j < |jobs| ==> jobs[i].id != jobs[j].id
  {
    OnceEach(jobs, JobsOf(objects, namespace, id));
    forall i, j | 0 <= i < j < |jobs| ensures jobs[i].id != jobs[j].id {
      assert jobs[i] in jobs && jobs[j] in jobs;
    }
  }

  /** What an observer sends, given that its listings were made by label. */
  lemma ObserverEntries(a: Action, nextId: TrackingId, p: Phase, i: nat)
    requires ActionOk(a, nextId) && p.ActionSaving? && p.outcome.None? && PhaseOk(a, nextId, ActionObserver, p)
    requires i < |p.wanted.childrenHealth|
    requires i < |p.evidence| ==> Labels(a.status.ownedReferences[i].trackingId, p.evidence[i])
    ensures i < |p.evidence| <= |a.status.ownedReferences|
    ensures SpeaksOf(p.wanted.childrenHealth[i], a.status.ownedReferences[i].trackingId, p.evidence[i])
  {
    var refs := a.status.ownedReferences;
    var seen := refs[..|p.evidence|];
    forall r | r in seen ensures Recognized(r) {
      assert r in refs;
      JobDecodes(r.trackingId);
    }
    EntriesWrittenOut(seen, p.evidence, i);
  }

  lemma GenuineLabels(s0: State, events: seq<Event>, from: nat, k: Request, refs: seq<ChildReference>,
                      evidence: seq<Reading>, i: nat)
    requires Genuine(s0, events, from, k, refs, evidence) && i < |evidence|
    ensures Labels(refs[i].trackingId, evidence[i])
  {
    if evidence[i].Some? {
      var n :| from <= n <= |events| && ListedAt(s0, events, n, k.namespace, refs[i].trackingId, evidence[i].value);
      ListedLabels(Exec(s0, events[..n]).objects, k.namespace, refs[i].trackingId, evidence[i].value);
    }
  }

  /** The report an observer's write leaves behind. */
  lemma ObserverStores(s: State, e: Event, k: Request)
    requires Inv(s) && Enabled(s, e) && k in s.actions && k in Next(s, e).actions && WroteBy(s, e, k, ActionObserver)
    requires Next(s, e).actions[k].status != s.actions[k].status
    ensures var p := s.workers[e.w].phase;
            && p.ActionSaving? && p.outcome.None? && PhaseOk(s.actions[k], s.nextId, ActionObserver, p)
            && p.base == s.actions[k].status && ActionOk(s.actions[k], s.nextId)
            && Next(s, e).actions[k].status.childrenHealth == p.wanted.childrenHealth
  {
    assert WorkerOk(s.actions, s.nextId, s.workers[e.w]);
  }

  /** Every entry of a report an observer newly stores is about the reference in the same place of the stored list,
      under its tracking identifier, and says how its Jobs were in a listing made since the observer's own Obtain. */
  lemma PublishedEntriesSpeak(s0: State, events: seq<Event>, e: Event, k: Request, i: nat)
    requires Init(s0) && Legal(s0, events) && Enabled(Exec(s0, events), e) && k in Exec(s0, events).actions
    requires k in Next(Exec(s0, events), e).actions && WroteBy(Exec(s0, events), e, k, ActionObserver)
    requires Next(Exec(s0, events), e).actions[k].status != Exec(s0, events).actions[k].status
    requires i < |Next(Exec(s0, events), e).actions[k].status.childrenHealth|
    ensures var s, refs := Exec(s0, events), Exec(s0, events).actions[k].status.ownedReferences;
            var p, report := s.workers[e.w].phase, Next(s, e).actions[k].status.childrenHealth;
            && p.ActionSaving? && i < |p.evidence| && i < |refs| && p.evidence[i].Some?
            && SpeaksOf(report[i], refs[i].trackingId, p.evidence[i])
            && ListedSince(s0, events, EnteredAt(events, e.w), k.namespace, refs[i].trackingId, p.evidence[i].value)
  {
    InitHasInv(s0);
    RunKeepsInv(s0, events);
    var s := Exec(s0, events);
    ObserverStores(s, e, k);
    var p, refs := s.workers[e.w].phase, s.actions[k].status.ownedReferences;
    AllGenuine(s0, events, e.w);
    assert Genuine(s0, events, EnteredAt(events, e.w), k, refs, p.evidence);
    if i < |p.evidence| {
      GenuineLabels(s0, events, EnteredAt(events, e.w), k, refs, p.evidence, i);
    }
    ObserverEntries(s.actions[k], s.nextId, p, i);
  }

  lemma ListedLabels(objects: Store, namespace: string, id: TrackingId, jobs: seq<Item>)
    requires Lists(objects, namespace, id, jobs)
    ensures Labels(id, Some(jobs))
  {
    forall j | j in jobs ensures j.job.tracking == id {
      assert j in multiset(jobs) && j in JobsOf(objects, namespace, id);
    }
  }

  // ----- what it leaves out -----

  /** The last that was heard of a Job. */
  function LastReport(events: seq<Event>, id: Identity): Option<Event>
    decreases |events|
  {
    if events == [] then None
    else
      var n := |events| - 1;
      if events[n].JobProgress? && events[n].id == id then Some(events[n]) else LastReport(events[..n], id)
  }

  /** Nothing heard of this Job up to now says that it has run to its end. */
  predicate NotRunYet(start: Store, events: seq<Event>, id: Identity) {
    var last := LastReport(events, id);
    if last.Some? then last.value.JobProgress? && !last.value.finished
    else id in start ==> !start[id].finished
  }

  /** The progress of an object is what was last heard of it, or what it was at the start, or none. */
  ghost predicate ProgressHeard(start: Store, events: seq<Event>, objects: Store) {
    forall id :: id in objects ==> objects[id].finished == !NotRunYet(start, events, id)
  }

  lemma LaterReport(events: seq<Event>, e: Event)
    ensures forall id :: LastReport(events + [e], id) ==
                         if e.JobProgress? && e.id == id then Some(e) else LastReport(events, id)
  {
    assert (events + [e])[..|events|] == events;
  }

  /** Only objects that were never there begin without progress, and nothing was heard of those. */
  ghost predicate OnlyKnown(start: Store, events: seq<Event>, objects: Store) {
    && (forall id :: id in start ==> id in objects)
    && forall id :: LastReport(events, id).Some? ==> id in objects && LastReport(events, id).value.JobProgress?
  }

  lemma PutHeard(start: Store, events: seq<Event>, e: Event, objects: Store, target: Target, id: TrackingId)
    requires ProgressHeard(start, events, objects) && OnlyKnown(start, events, objects) && !e.JobProgress?
    ensures ProgressHeard(start, events + [e], Put(objects, target, id))
    ensures OnlyKnown(start, events + [e], Put(objects, target, id))
  {
    LaterReport(events, e);
  }

  lemma SameHeard(start: Store, events: seq<Event>, e: Event, objects: Store)
    requires ProgressHeard(start, events, objects) && OnlyKnown(start, events, objects) && !e.JobProgress?
    ensures ProgressHeard(start, events + [e], objects) && OnlyKnown(start, events + [e], objects)
  {
    LaterReport(events, e);
  }

  lemma ApplyHeard(start: Store, events: seq<Event>, s: State, e: Event)
    requires ProgressHeard(start, events, s.objects) && OnlyKnown(start, events, s.objects)
    requires Enabled(s, e) && e.ApplyDoc?
    ensures var t := NextApply(s, e.w, e.api, e.acknowledged);
            ProgressHeard(start, events + [e], t.objects) && OnlyKnown(start, events + [e], t.objects)
  {
    ApplyStore(s, e.w, e.api, e.acknowledged);
    var key, p := s.workers[e.w].key, s.workers[e.w].phase;
    PutHeard(start, events, e, s.objects, Resolve(p.docs[p.i], key.namespace, e.api.suffix), s.nextId);
    SameHeard(start, events, e, s.objects);
  }

  lemma ReportHeard(start: Store, events: seq<Event>, s: State, e: Event)
    requires ProgressHeard(start, events, s.objects) && OnlyKnown(start, events, s.objects)
    requires Enabled(s, e) && e.JobProgress?
    ensures ProgressHeard(start, events + [e], Next(s, e).objects) && OnlyKnown(start, events + [e], Next(s, e).objects)
  {
    LaterReport(events, e);
  }

  lemma StepHeard(start: Store, events: seq<Event>, s: State, e: Event)
    requires ProgressHeard(start, events, s.objects) && OnlyKnown(start, events, s.objects) && Enabled(s, e)
    ensures ProgressHeard(start, events + [e], Next(s, e).objects) && OnlyKnown(start, events + [e], Next(s, e).objects)
  {
    if e.ApplyDoc? {
      ApplyHeard(start, events, s, e);
    } else if e.JobProgress? {
      ReportHeard(start, events, s, e);
    } else {
      SilentStep(s, e);
      SameHeard(start, events, e, s.objects);
    }
  }

  /** In every run an object has run to its end exactly when the last that was heard of it says so. */
  lemma {:induction false} ProgressIsWhatWasHeard(s0: State, events: seq<Event>)
    requires Legal(s0, events)
    ensures ProgressHeard(s0.objects, events, Exec(s0, events).objects)
    ensures OnlyKnown(s0.objects, events, Exec(s0, events).objects)
    decreases |events|
  {
    if events != [] {
      var n := |events| - 1;
      LastStep(s0, events);
      ProgressIsWhatWasHeard(s0, events[..n]);
      StepHeard(s0.objects, events[..n], Exec(s0, events[..n]), events[n]);
      assert events[..n] + [events[n]] == events;
    }
  }

  /** A listing at this moment, with the Jobs in it that are taken for finished too early: those of which nothing heard
      by then says that they have run to their end. */
  ghost predicate EarlyExactly(s0: State, events: seq<Event>, n: nat, namespace: string, id: TrackingId,
                               jobs: seq<Item>)
    requires n <= |events|
  {
    && ListedAt(s0, events, n, namespace, id, jobs)
    && forall j :: j in jobs ==> (!j.job.finished <==> NotRunYet(s0.objects, events[..n], j.id))
  }

  lemma ListedEarly(s0: State, events: seq<Event>, n: nat, namespace: string, id: TrackingId, jobs: seq<Item>)
    requires n <= |events| && ListedAt(s0, events, n, namespace, id, jobs)
    ensures EarlyExactly(s0, events, n, namespace, id, jobs)
  {
    ProgressIsWhatWasHeard(s0, events[..n]);
    var objects := Exec(s0, events[..n]).objects;
    forall j | j in jobs ensures !j.job.finished <==> NotRunYet(s0.objects, events[..n], j.id) {
      assert j in multiset(jobs) && j in JobsOf(objects, namespace, id);
    }
  }

  /** Which unfinished Jobs a published Healthy takes for finished: in every run, for each reference of the action,
      those of its Jobs of which, when they were listed, either nothing had been heard since they were created or the
      last report said that they had not run to their end. No pod of any of its Jobs was failed or active then. */
  lemma PublishedTooEarlyExactly(s0: State, events: seq<Event>, e: Event, k: Request, i: nat)
    requires Init(s0) && Legal(s0, events) && Enabled(Exec(s0, events), e) && Publishes(Exec(s0, events), e, k)
    requires i < |Exec(s0, events).actions[k].status.ownedReferences|
    ensures var s := Exec(s0, events);
            var refs, p := s.actions[k].status.ownedReferences, s.workers[e.w].phase;
            && p.ActionSaving? && |p.evidence| == |refs| && Quiet(p.evidence[i])
            && exists n :: EnteredAt(events, e.w) <= n <= |events|
                           && EarlyExactly(s0, events, n, k.namespace, refs[i].trackingId, p.evidence[i].value)
  {
    PublishedHealthIsSound(s0, events, e, k);
    var s := Exec(s0, events);
    NotByReconciler(s0, events, e, k);
    var refs, p := s.actions[k].status.ownedReferences, s.workers[e.w].phase;
    assert p.evidence[i] in p.evidence;
    var n :| EnteredAt(events, e.w) <= n <= |events|
             && ListedAt(s0, events, n, k.namespace, refs[i].trackingId, p.evidence[i].value);
    ListedEarly(s0, events, n, k.namespace, refs[i].trackingId, p.evidence[i].value);
  }

  /** One worker has one role. */
  lemma NotByReconciler(s0: State, events: seq<Event>, e: Event, k: Request)
    requires Legal(s0, events) && Enabled(Exec(s0, events), e) && Publishes(Exec(s0, events), e, k)
    ensures !WroteBy(Exec(s0, events), e, k, ActionReconciler)
  {
  }
}
