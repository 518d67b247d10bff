/** Whole passes of the two ScheduledBackup reconcilers with nobody else in between, and what a stale cache does. */
module BackupSweeps {
  import opened Wrappers
  import opened Locking
  import opened References
  import opened Rendering
  import opened Cluster
  import opened ControlPlane
  import opened LockProtocol
  import opened Runs
  import opened Passes
  import SaveRetries
  import BackupProtocol
  import BackupFreshness

  /** A status write without a conflict. */
  lemma Save(s: State, w: nat, k: Request, snap: BackupVersion, change: BackupChange, next: AfterSave)
    requires w < |s.workers| && k in s.schedules && s.schedules[k].history != []
    ensures var p := BackupSaving(snap, change, next, 0, None);
            Reaches(At(s, w, k, p), [SaveGet(w), SaveUpdate(w)],
                    At(s.(schedules := s.schedules[k := LandedOn(s.schedules[k], p)]), w, k, AfterSaving(snap, next)))
  {
    SaveRetries.BackupLands(s, w, k, BackupSaving(snap, change, next, 0, None));
  }

  // ----- whole passes -----

  /** An unchanged spec makes Reconcile a no-op: the lock is released and nothing else has changed. */
  lemma UnchangedIsNoOp(s: State, w: nat, k: Request, version: nat)
    requires Ready(s, w, k) && s.workers[w].role.BackupReconciler?
    requires k in s.schedules && version < |s.schedules[k].history| && !s.schedules[k].history[version].HasSpecChanged()
    ensures Reaches(s, [Obtain(w, k), ReadBackup(w, version, false), Done(w)], Out(s, w, k))
  {
    Enter(s, w, k);
    Step(s, w, k, Holding, ReadBackup(w, version, false));
    Leave(s, w, k);
    Chain(s, [Obtain(w, k)], At(s, w, k, Holding), [ReadBackup(w, version, false)], At(s, w, k, Leaving));
    Chain(s, [Obtain(w, k)] + [ReadBackup(w, version, false)], At(s, w, k, Leaving), [Done(w)], Out(s, w, k));
    assert [Obtain(w, k)] + [ReadBackup(w, version, false)] + [Done(w)] ==
           [Obtain(w, k), ReadBackup(w, version, false), Done(w)];
  }

  function ObserverPass(w: nat, k: Request, version: nat): seq<Event> {
    [Obtain(w, k)] + [ReadBackup(w, version, false)] + [Hydrate(w, true)] + [Judge(w)] + [SaveGet(w), SaveUpdate(w)]
    + [Done(w)]
  }

  /** What an observer's pass stores: the whole status of the version it read, with an empty report. */
  function Observed(b: Schedule, version: nat): Schedule
    requires version < |b.history|
  {
    LandedOn(b, BackupSaving(b.history[version], Publish([], true), ThenLeave, 0, None))
  }

  lemma ObserverSweep(s: State, w: nat, k: Request, version: nat)
    requires Ready(s, w, k) && s.workers[w].role.BackupObserver?
    requires k in s.schedules && version < |s.schedules[k].history|
    requires s.schedules[k].history[version].status.ownedReferences == []
    ensures Reaches(s, ObserverPass(w, k, version),
                    Out(s.(schedules := s.schedules[k := Observed(s.schedules[k], version)]), w, k))
  {
    var snap := s.schedules[k].history[version];
    var t := s.(schedules := s.schedules[k := Observed(s.schedules[k], version)]);
    var saving := BackupSaving(snap, Publish([], true), ThenLeave, 0, None);
    var e := [Obtain(w, k)];
    Enter(s, w, k);
    Step(s, w, k, Holding, ReadBackup(w, version, false));
    Chain(s, e, At(s, w, k, Holding), [ReadBackup(w, version, false)], At(s, w, k, BackupRead(snap)));
    e := e + [ReadBackup(w, version, false)];
    Step(s, w, k, BackupRead(snap), Hydrate(w, true));
    Chain(s, e, At(s, w, k, BackupRead(snap)), [Hydrate(w, true)], At(s, w, k, BackupExamining(snap, [])));
    e := e + [Hydrate(w, true)];
    Step(s, w, k, BackupExamining(snap, []), Judge(w));
    Chain(s, e, At(s, w, k, BackupExamining(snap, [])), [Judge(w)], At(s, w, k, saving));
    e := e + [Judge(w)];
    Save(s, w, k, snap, Publish([], true), ThenLeave);
    Chain(s, e, At(s, w, k, saving), [SaveGet(w), SaveUpdate(w)], At(t, w, k, Leaving));
    Leave(t, w, k);
    Chain(s, e + [SaveGet(w), SaveUpdate(w)], At(t, w, k, Leaving), [Done(w)], Out(t, w, k));
  }

  // ----- a list of documents -----

  /** Where a worker is after `n` documents. */
  function Within(snap: BackupVersion, docs: seq<Document>, namespace: string, apis: seq<Answers>, first: TrackingId,
                  n: nat): Phase
    requires n <= |docs| == |apis|
  {
    BackupApplying(snap, docs, n, CallsFor(docs, namespace, apis, first, n))
  }

  /** The state after `n` documents, inside. */
  function AfterDocs(s: State, w: nat, k: Request, snap: BackupVersion, docs: seq<Document>, apis: seq<Answers>, n: nat)
    : State
    requires w < |s.workers| && n <= |docs| == |apis|
  {
    At(Wrote(s, k, false, docs, apis, n), w, k, Within(snap, docs, k.namespace, apis, s.nextId, n))
  }

  /** One document, seen from the state just before. */
  lemma AppliesOne(s: State, w: nat, k: Request, p: Phase, api: Answers)
    requires w < |s.workers| && k in s.schedules && p.BackupApplying? && p.i < |p.docs|
    requires CallSucceeds(s.objects, p.docs[p.i], k.namespace, api)
    ensures var call := CallFor(p.docs[p.i], k.namespace, api.suffix, s.nextId, true);
            Reaches(At(s, w, k, p), [ApplyDoc(w, api, true)],
                    At(s.(objects := Put(s.objects, Resolve(p.docs[p.i], k.namespace, api.suffix), s.nextId),
                          nextId := s.nextId + 1, landings := s.landings + [Landing(k, false, call)],
                          schedules := s.schedules[k := AppliedOn(s.schedules[k], p, call, true)]),
                       w, k, AppliedBackupPhase(p, call, true)))
  {
    One(At(s, w, k, p), ApplyDoc(w, api, true));
  }

  /** One document that is not the last. */
  lemma OneDocument(s: State, w: nat, k: Request, snap: BackupVersion, docs: seq<Document>, apis: seq<Answers>, n: nat)
    requires w < |s.workers| && n + 1 < |docs| == |apis| && k in s.schedules
    requires AllSucceed(s.objects, docs, k.namespace, apis, s.nextId)
    ensures Reaches(AfterDocs(s, w, k, snap, docs, apis, n), [ApplyDoc(w, apis[n], true)],
                    AfterDocs(s, w, k, snap, docs, apis, n + 1))
  {
    WroteOneMore(s, k, false, docs, apis, n);
    assert s.schedules[k := s.schedules[k]] == s.schedules;
    AppliesOne(Wrote(s, k, false, docs, apis, n), w, k, Within(snap, docs, k.namespace, apis, s.nextId, n), apis[n]);
  }

  lemma {:induction false} FirstDocuments(s: State, w: nat, k: Request, snap: BackupVersion, docs: seq<Document>,
                                          apis: seq<Answers>, n: nat)
    requires w < |s.workers| && n < |docs| == |apis| && k in s.schedules
    requires AllSucceed(s.objects, docs, k.namespace, apis, s.nextId)
    ensures Reaches(At(s, w, k, BackupApplying(snap, docs, 0, [])), ApplyEvents(w, apis[..n]),
                    AfterDocs(s, w, k, snap, docs, apis, n))
  {
    var start := At(s, w, k, BackupApplying(snap, docs, 0, []));
    EventsOneMore(w, apis, if n == 0 then 0 else n - 1);
    if n == 0 {
      WroteNothing(s, k, false, docs, apis);
    } else {
      FirstDocuments(s, w, k, snap, docs, apis, n - 1);
      OneDocument(s, w, k, snap, docs, apis, n - 1);
      Chain(start, ApplyEvents(w, apis[..n - 1]), AfterDocs(s, w, k, snap, docs, apis, n - 1),
            [ApplyDoc(w, apis[n - 1], true)], AfterDocs(s, w, k, snap, docs, apis, n));
    }
  }

  /** A schedule with one more complete application. */
  function Extended(b: Schedule, snap: BackupVersion, docs: seq<Document>, calls: seq<Call>): Schedule {
    b.(applies := b.applies + [snap], installed := b.installed + [Installation(docs, calls)])
  }

  /** The cluster and the schedule once all documents are applied. */
  function AllApplied(s: State, k: Request, snap: BackupVersion, docs: seq<Document>, apis: seq<Answers>): State
    requires |docs| == |apis| && k in s.schedules
  {
    Wrote(s, k, false, docs, apis, |docs|).(
      schedules := s.schedules[k := Extended(s.schedules[k], snap, docs,
                                             CallsFor(docs, k.namespace, apis, s.nextId, |docs|))])
  }

  lemma LastDocument(s: State, w: nat, k: Request, snap: BackupVersion, docs: seq<Document>, apis: seq<Answers>,
                     n: nat)
    requires w < |s.workers| && n + 1 == |docs| == |apis| && k in s.schedules
    requires AllSucceed(s.objects, docs, k.namespace, apis, s.nextId)
    ensures Reaches(AfterDocs(s, w, k, snap, docs, apis, n), [ApplyDoc(w, apis[n], true)],
                    At(AllApplied(s, k, snap, docs, apis), w, k, Marking(snap, True, ThenLeave)))
  {
    WroteOneMore(s, k, false, docs, apis, n);
    AppliesOne(Wrote(s, k, false, docs, apis, n), w, k, Within(snap, docs, k.namespace, apis, s.nextId, n), apis[n]);
  }

  lemma AllDocuments(s: State, w: nat, k: Request, snap: BackupVersion, docs: seq<Document>, apis: seq<Answers>)
    requires w < |s.workers| && docs != [] && |docs| == |apis| && k in s.schedules
    requires AllSucceed(s.objects, docs, k.namespace, apis, s.nextId)
    ensures Reaches(At(s, w, k, BackupApplying(snap, docs, 0, [])), ApplyEvents(w, apis),
                    At(AllApplied(s, k, snap, docs, apis), w, k, Marking(snap, True, ThenLeave)))
  {
    var n := |docs| - 1;
    FirstDocuments(s, w, k, snap, docs, apis, n);
    LastDocument(s, w, k, snap, docs, apis, n);
    EventsOneMore(w, apis, n);
    Chain(At(s, w, k, BackupApplying(snap, docs, 0, [])), ApplyEvents(w, apis[..n]),
          AfterDocs(s, w, k, snap, docs, apis, n), [ApplyDoc(w, apis[n], true)],
          At(AllApplied(s, k, snap, docs, apis), w, k, Marking(snap, True, ThenLeave)));
  }

  // ----- the reconciler's pass -----

  function PassBegin(w: nat, k: Request, version: nat): seq<Event> {
    [Obtain(w, k)] + [ReadBackup(w, version, false)] + [Hydrate(w, true)] + [SaveGet(w), SaveUpdate(w)]
  }

  function PassEnd(w: nat, docs: seq<Document>, apis: seq<Answers>): seq<Event> {
    [Render(w, Some(docs))] + ApplyEvents(w, apis) + [SaveGet(w), SaveUpdate(w)] + [Done(w)]
  }

  function ReconcilerPass(w: nat, k: Request, version: nat, docs: seq<Document>, apis: seq<Answers>): seq<Event> {
    PassBegin(w, k, version) + PassEnd(w, docs, apis)
  }

  function Marked(b: Schedule, snap: BackupVersion, outcome: ConditionStatus): Schedule
    requires b.history != []
  {
    LandedOn(b, Marking(snap, outcome, ThenLeave))
  }

  /** What a reconciler's fault-free pass over a changed spec leaves: in progress, applied, recorded. */
  function Reconciled(b: Schedule, version: nat, docs: seq<Document>, calls: seq<Call>): Schedule
    requires version < |b.history|
  {
    var snap := b.history[version];
    Marked(Extended(Marked(b, snap, Unknown), snap, docs, calls), snap, True)
  }

  /** The first half of the pass: up to rendering. */
  lemma ReconcilerBegins(s: State, w: nat, k: Request, version: nat)
    requires Ready(s, w, k) && s.workers[w].role.BackupReconciler?
    requires k in s.schedules && version < |s.schedules[k].history| && s.schedules[k].history[version].HasSpecChanged()
    ensures var snap := s.schedules[k].history[version];
            Reaches(s, PassBegin(w, k, version),
                    At(s.(schedules := s.schedules[k := Marked(s.schedules[k], snap, Unknown)]), w, k,
                       BackupRendering(snap)))
  {
    var snap := s.schedules[k].history[version];
    var t := s.(schedules := s.schedules[k := Marked(s.schedules[k], snap, Unknown)]);
    var e := [Obtain(w, k)];
    Enter(s, w, k);
    Step(s, w, k, Holding, ReadBackup(w, version, false));
    Chain(s, e, At(s, w, k, Holding), [ReadBackup(w, version, false)], At(s, w, k, BackupRead(snap)));
    e := e + [ReadBackup(w, version, false)];
    Step(s, w, k, BackupRead(snap), Hydrate(w, true));
    Chain(s, e, At(s, w, k, BackupRead(snap)), [Hydrate(w, true)], At(s, w, k, Marking(snap, Unknown, ThenRender)));
    e := e + [Hydrate(w, true)];
    Save(s, w, k, snap, Mark(Unknown), ThenRender);
    Chain(s, e, At(s, w, k, Marking(snap, Unknown, ThenRender)), [SaveGet(w), SaveUpdate(w)],
          At(t, w, k, BackupRendering(snap)));
  }

  /** The cluster and the schedule after a pass whose documents all went through. */
  function AfterInstall(s: State, k: Request, snap: BackupVersion, docs: seq<Document>, apis: seq<Answers>): State
    requires k in s.schedules && s.schedules[k].history != [] && |docs| == |apis|
  {
    var calls := CallsFor(docs, k.namespace, apis, s.nextId, |docs|);
    Wrote(s, k, false, docs, apis, |docs|).(
      schedules := s.schedules[k := Marked(Extended(s.schedules[k], snap, docs, calls), snap, True)])
  }

  /** The second half: render, apply every document, record the hash, leave. */
  lemma ReconcilerFinishes(s: State, w: nat, k: Request, snap: BackupVersion, docs: seq<Document>, apis: seq<Answers>)
    requires Ready(s, w, k) && k in s.schedules && s.schedules[k].history != []
    requires docs != [] && |docs| == |apis| && forall d :: d in docs ==> d.gvk != JOB
    requires AllSucceed(s.objects, docs, k.namespace, apis, s.nextId)
    ensures Reaches(At(s, w, k, BackupRendering(snap)), PassEnd(w, docs, apis),
                    Out(AfterInstall(s, k, snap, docs, apis), w, k))
  {
    var start, rendered := At(s, w, k, BackupRendering(snap)), At(s, w, k, BackupApplying(snap, docs, 0, []));
    var applied := At(AllApplied(s, k, snap, docs, apis), w, k, Marking(snap, True, ThenLeave));
    var e := [Render(w, Some(docs))];
    One(start, e[0]);
    assert Next(start, e[0]) == rendered;
    AllDocuments(s, w, k, snap, docs, apis);
    Chain(start, e, rendered, ApplyEvents(w, apis), applied);
    Records(s, w, k, snap, docs, apis);
    Chain(start, e + ApplyEvents(w, apis), applied, [SaveGet(w), SaveUpdate(w)] + [Done(w)],
          Out(AfterInstall(s, k, snap, docs, apis), w, k));
    assert e + ApplyEvents(w, apis) + ([SaveGet(w), SaveUpdate(w)] + [Done(w)]) == PassEnd(w, docs, apis);
  }

  /** The hash is stored and the lock released. */
  lemma Records(s: State, w: nat, k: Request, snap: BackupVersion, docs: seq<Document>, apis: seq<Answers>)
    requires Ready(s, w, k) && k in s.schedules && s.schedules[k].history != [] && |docs| == |apis|
    ensures Reaches(At(AllApplied(s, k, snap, docs, apis), w, k, Marking(snap, True, ThenLeave)),
                    [SaveGet(w), SaveUpdate(w)] + [Done(w)], Out(AfterInstall(s, k, snap, docs, apis), w, k))
  {
    var applied, t := AllApplied(s, k, snap, docs, apis), AfterInstall(s, k, snap, docs, apis);
    Save(applied, w, k, snap, Mark(True), ThenLeave);
    assert applied.schedules[k := t.schedules[k]] == t.schedules;
    Leave(t, w, k);
    Chain(At(applied, w, k, Marking(snap, True, ThenLeave)), [SaveGet(w), SaveUpdate(w)], At(t, w, k, Leaving),
          [Done(w)], Out(t, w, k));
  }

  /** A pass over a changed spec, for any rendered list and any answers that let it through. */
  lemma ReconcilerSweep(s: State, w: nat, k: Request, version: nat, docs: seq<Document>, apis: seq<Answers>)
    requires Ready(s, w, k) && s.workers[w].role.BackupReconciler?
    requires k in s.schedules && version < |s.schedules[k].history| && s.schedules[k].history[version].HasSpecChanged()
    requires docs != [] && |docs| == |apis| && forall d :: d in docs ==> d.gvk != JOB
    requires AllSucceed(s.objects, docs, k.namespace, apis, s.nextId)
    ensures var calls := CallsFor(docs, k.namespace, apis, s.nextId, |docs|);
            Reaches(s, ReconcilerPass(w, k, version, docs, apis),
                    Out(Wrote(s, k, false, docs, apis, |docs|).(
                          schedules := s.schedules[k := Reconciled(s.schedules[k], version, docs, calls)]), w, k))
  {
    var snap := s.schedules[k].history[version];
    var calls := CallsFor(docs, k.namespace, apis, s.nextId, |docs|);
    var begun := s.(schedules := s.schedules[k := Marked(s.schedules[k], snap, Unknown)]);
    var t := Wrote(s, k, false, docs, apis, |docs|).(
               schedules := s.schedules[k := Reconciled(s.schedules[k], version, docs, calls)]);
    ReconcilerBegins(s, w, k, version);
    ReconcilerFinishes(begun, w, k, snap, docs, apis);
    assert begun.schedules[k := Reconciled(s.schedules[k], version, docs, calls)] == t.schedules;
    assert AfterInstall(begun, k, snap, docs, apis) == t;
    Chain(s, PassBegin(w, k, version), At(begun, w, k, BackupRendering(snap)), PassEnd(w, docs, apis), Out(t, w, k));
  }

  // ----- the stale cache -----

  /** Exactly when a pass of the observer takes a recorded hash back. After any run with a caught-up cache and nobody
      inside, publishing from version `version` loses the hash if and only if the last complete application was
      recorded after that version and is of another spec than what had been recorded by then; and then, only then, an
      unchanged spec looks changed again. In any case the spec looks unchanged afterwards if and only if that version
      shows its hash. */
  lemma StaleObserverLosesRecordExactly(s0: State, events: seq<Event>, k: Request, version: nat)
    requires Init(s0) && Legal(s0, events) && BackupFreshness.AllCaughtUp(s0, events)
    requires k in Exec(s0, events).schedules && version < |Exec(s0, events).schedules[k].history|
    requires forall w :: w in Exec(s0, events).workers && w.key == k ==> !w.Inside()
    ensures var b := Exec(s0, events).schedules[k];
            && Observed(b, version).history != []
            && var before, after := b.Current(), Observed(b, version).Current();
               && after.spec == before.spec
               && (after.status.lastAppliedSpecHash != before.status.lastAppliedSpecHash <==>
                   BackupFreshness.Superseded(b, version))
               && (!before.HasSpecChanged() ==> (after.HasSpecChanged() <==> BackupFreshness.Superseded(b, version)))
               && (!after.HasSpecChanged() <==> BackupFreshness.Shows(b, version, before.spec))
  {
    BackupFreshness.CaughtUpRun(s0, events, k);
    var b := Exec(s0, events).schedules[k];
    BackupFreshness.HashSuperseded(b, version);
    BackupFreshness.HashShown(b, version, b.Current().spec);
  }

  /** Exactly when a pass of the observer hides an edit: the current spec, not the one applied last, looked changed and
      no longer does. The version it read must show the hash of the current spec, edited away since and back again. */
  lemma StaleObserverHidesEditExactly(s0: State, events: seq<Event>, k: Request, version: nat)
    requires Init(s0) && Legal(s0, events) && BackupFreshness.AllCaughtUp(s0, events)
    requires k in Exec(s0, events).schedules && version < |Exec(s0, events).schedules[k].history|
    requires forall w :: w in Exec(s0, events).workers && w.key == k ==> !w.Inside()
    ensures var b := Exec(s0, events).schedules[k];
            && b.history != [] && Observed(b, version).history != []
            && (b.Current().HasSpecChanged() && !Observed(b, version).Current().HasSpecChanged() <==>
                BackupFreshness.HidesEdit(b, version))
  {
    StaleObserverLosesRecordExactly(s0, events, k, version);
    BackupFreshness.RecordedHashIsExact(s0, events, k);
    BackupFreshness.CaughtUpRun(s0, events, k);
    var b := Exec(s0, events).schedules[k];
    if b.applies == [] {
      assert b.records == [];
    }
  }

  /** What the reconciler does next, reading what the observer has just stored: it starts over if and only if the
      version the observer had read does not show the current spec's hash, otherwise it leaves at once. */
  lemma StaleObserverCausesReapplyExactly(s0: State, events: seq<Event>, k: Request, version: nat, v: nat, w: nat)
    requires Init(s0) && Legal(s0, events) && BackupFreshness.AllCaughtUp(s0, events)
    requires k in Exec(s0, events).schedules && version < |Exec(s0, events).schedules[k].history|
    requires Ready(Exec(s0, events), v, k) && Exec(s0, events).workers[v].role.BackupObserver?
    requires Ready(Exec(s0, events), w, k) && Exec(s0, events).workers[w].role.BackupReconciler?
    ensures var s := Exec(s0, events);
            var b := s.schedules[k];
            var run := ObserverPass(v, k, version) + [Obtain(w, k)] + [ReadBackup(w, |b.history|, false)];
            && b.history != [] && Observed(b, version).history != []
            && Legal(s, run) && w < |Exec(s, run).workers|
            && Exec(s, run).workers[w].phase ==
               (if BackupFreshness.Shows(b, version, b.Current().spec) then Leaving
                else BackupRead(Observed(b, version).Current()))
            && (!b.Current().HasSpecChanged() ==>
                  (!BackupFreshness.Shows(b, version, b.Current().spec) <==> BackupFreshness.Superseded(b, version)))
  {
    var s := Exec(s0, events);
    var b := s.schedules[k];
    NobodyInside(s0, events, k, w);
    StaleObserverLosesRecordExactly(s0, events, k, version);
    BackupProtocol.BackupHealthIsVacuous(s0, events, k, w);
    var t := Out(s.(schedules := s.schedules[k := Observed(b, version)]), v, k);
    ObserverSweep(s, v, k, version);
    Enter(t, w, k);
    Step(t, w, k, Holding, ReadBackup(w, |b.history|, false));
    var u := At(t, w, k, NextPhase(At(t, w, k, Holding), ReadBackup(w, |b.history|, false)));
    ThreePasses(s, ObserverPass(v, k, version), t, [Obtain(w, k)], At(t, w, k, Holding),
                [ReadBackup(w, |b.history|, false)], u);
  }

  /** The reconciler needs no observer for that: over a version the cache still holds, stale or not, it goes on if and
      only if that version does not show the hash of its own spec. */
  lemma ReconcilerGoesOnExactly(s0: State, events: seq<Event>, k: Request, version: nat, w: nat)
    requires Init(s0) && Legal(s0, events) && BackupFreshness.AllCaughtUp(s0, events)
    requires k in Exec(s0, events).schedules && version < |Exec(s0, events).schedules[k].history|
    requires Ready(Exec(s0, events), w, k) && Exec(s0, events).workers[w].role.BackupReconciler?
    ensures var s := Exec(s0, events);
            var b := s.schedules[k];
            var run := [Obtain(w, k)] + [ReadBackup(w, version, false)];
            && Legal(s, run) && w < |Exec(s, run).workers|
            && Exec(s, run).workers[w].phase ==
               if BackupFreshness.Shows(b, version, b.history[version].spec) then Leaving
               else BackupRead(b.history[version])
  {
    var s := Exec(s0, events);
    var b := s.schedules[k];
    BackupFreshness.CaughtUpRun(s0, events, k);
    BackupFreshness.HashShown(b, version, b.history[version].spec);
    Enter(s, w, k);
    Step(s, w, k, Holding, ReadBackup(w, version, false));
    Chain(s, [Obtain(w, k)], At(s, w, k, Holding), [ReadBackup(w, version, false)],
          At(s, w, k, NextPhase(At(s, w, k, Holding), ReadBackup(w, version, false))));
  }

  /** A free lock means that nobody is inside. */
  lemma NobodyInside(s0: State, events: seq<Event>, k: Request, w: nat)
    requires Init(s0) && Legal(s0, events) && Ready(Exec(s0, events), w, k)
    ensures forall x :: x in Exec(s0, events).workers && x.key == k ==> !x.Inside()
  {
    MutualExclusion(s0, events);
  }

  /** One schedule never reconciled, one reconciler, one observer. */
  function NewBackup(k: Request, spec: BackupSpec): State {
    State([], [Worker(BackupReconciler, k, LockId(k), Idle), Worker(BackupObserver, k, LockId(k), Idle)], map[],
          map[k := Schedule([BackupVersion(spec, 1, NEW_BACKUP)], 0, [], [], [])], map[], 1, [])
  }

  function AfterPass(s: State, w: nat, k: Request, version: nat, doc: Document): State
    requires w < |s.workers| && k in s.schedules && version < |s.schedules[k].history|
  {
    var calls := CallsFor([doc], k.namespace, [WORKS], s.nextId, 1);
    Out(Wrote(s, k, false, [doc], [WORKS], 1).(
          schedules := s.schedules[k := Reconciled(s.schedules[k], version, [doc], calls)]), w, k)
  }

  lemma OnePass(s: State, w: nat, k: Request, version: nat, doc: Document)
    requires Ready(s, w, k) && s.workers[w].role.BackupReconciler?
    requires k in s.schedules && version < |s.schedules[k].history| && s.schedules[k].history[version].HasSpecChanged()
    requires doc.gvk != JOB && doc.name != ""
    ensures Reaches(s, ReconcilerPass(w, k, version, [doc], [WORKS]), AfterPass(s, w, k, version, doc))
  {
    NamedSucceeds(s.objects, doc, k.namespace, s.nextId);
    ReconcilerSweep(s, w, k, version, [doc], [WORKS]);
  }

  /** What a pass over version `version` leaves: two more versions, one more application, one document in place. */
  lemma PassValues(s: State, w: nat, k: Request, version: nat, doc: Document)
    requires Ready(s, w, k) && k in s.schedules && version < |s.schedules[k].history|
    ensures var t := AfterPass(s, w, k, version, doc);
            var b, c, snap := s.schedules[k], t.schedules[k], s.schedules[k].history[version];
            && |t.workers| == |s.workers| && t.locks == s.locks
            && (forall v :: 0 <= v < |s.workers| && v != w ==> t.workers[v] == s.workers[v])
            && Ready(t, w, k) && t.workers[w].role == s.workers[w].role
            && |c.history| == |b.history| + 2 && c.history[..|b.history|] == b.history
            && c.Current().spec == b.Current().spec && c.Current().generation == b.Current().generation
            && c.Current().status.lastAppliedSpecHash == HashOf(snap.spec)
            && c.Current().status.ownedReferences == b.Current().status.ownedReferences
            && c.applies == b.applies + [snap] && c.lastWrite < |c.history| && |c.records| == |b.records| + 1
            && t.objects == Put(s.objects, Resolve(doc, k.namespace, ""), s.nextId)
  {
    WroteOne(s, k, false, doc, WORKS);
  }

  /** The versions of the runs below: the first pass makes two. */
  const A_APPLIED := 2
  const BEHIND := 3

  /** A fresh schedule after its first pass. */
  lemma FirstPass(k: Request, spec: BackupSpec, doc: Document) returns (t: State)
    requires doc.gvk != JOB && doc.name != ""
    ensures Init(NewBackup(k, spec)) && Reaches(NewBackup(k, spec), ReconcilerPass(0, k, 0, [doc], [WORKS]), t)
    ensures Ready(t, 0, k) && t.workers[0].role.BackupReconciler? && Ready(t, 1, k) && t.workers[1].role.BackupObserver?
    ensures k in t.schedules && |t.schedules[k].history| == A_APPLIED + 1
    ensures var b := t.schedules[k];
            && b.history[0] == BackupVersion(spec, 1, NEW_BACKUP) && b.applies == [b.history[0]]
            && b.Current().spec == spec && b.Current().generation == 1
  {
    PassValues(NewBackup(k, spec), 0, k, 0, doc);
    OnePass(NewBackup(k, spec), 0, k, 0, doc);
    t := AfterPass(NewBackup(k, spec), 0, k, 0, doc);
  }

  /** One more pass, over a version of the same spec that looks changed: the spec is applied a second time. */
  lemma SecondPass(s: State, k: Request, spec: BackupSpec, version: nat, doc: Document) returns (t: State)
    requires Ready(s, 0, k) && s.workers[0].role.BackupReconciler? && doc.gvk != JOB && doc.name != ""
    requires k in s.schedules && version < |s.schedules[k].history|
    requires var b := s.schedules[k];
             && b.history[version].spec == spec && b.history[version].HasSpecChanged() && b.Current().generation == 1
             && |b.applies| == 1 && b.applies[0].spec == spec
    ensures Reaches(s, ReconcilerPass(0, k, version, [doc], [WORKS]), t) && k in t.schedules
    ensures var b := t.schedules[k];
            && b.history != [] && b.Current().generation == 1
            && |b.applies| == 2 && b.applies[0].spec == b.applies[1].spec
  {
    PassValues(s, 0, k, version, doc);
    OnePass(s, 0, k, version, doc);
    t := AfterPass(s, 0, k, version, doc);
  }

  /** Without a caught-up cache the bound on applications fails for every spec: an observer that still sees the first
      version takes the recorded hash back, and the one and only generation is applied a second time. */
  lemma StaleObserverCausesReapply(k: Request, spec: BackupSpec, doc: Document)
    requires doc.gvk != JOB && doc.name != ""
    ensures Init(NewBackup(k, spec))
    ensures var run := ReconcilerPass(0, k, 0, [doc], [WORKS]) + ObserverPass(1, k, 0)
                       + ReconcilerPass(0, k, BEHIND, [doc], [WORKS]);
            && Legal(NewBackup(k, spec), run)
            && k in Exec(NewBackup(k, spec), run).schedules
            && var b := Exec(NewBackup(k, spec), run).schedules[k];
               && b.history != [] && b.Current().generation == 1
               && |b.applies| == 2 && b.applies[0].spec == b.applies[1].spec
  {
    var s := FirstPass(k, spec, doc);
    ObserverSweep(s, 1, k, 0);
    var t := Out(s.(schedules := s.schedules[k := Observed(s.schedules[k], 0)]), 1, k);
    assert t.schedules[k].history[BEHIND] == t.schedules[k].Current();
    var u := SecondPass(t, k, spec, BEHIND, doc);
    ThreePasses(NewBackup(k, spec), ReconcilerPass(0, k, 0, [doc], [WORKS]), s, ObserverPass(1, k, 0), t,
                ReconcilerPass(0, k, BEHIND, [doc], [WORKS]), u);
  }

  /** The reconciler alone applies the one and only generation twice when its own cache has not caught up. */
  lemma StaleReadCausesReapply(k: Request, spec: BackupSpec, doc: Document)
    requires doc.gvk != JOB && doc.name != ""
    ensures var run := ReconcilerPass(0, k, 0, [doc], [WORKS]) + ReconcilerPass(0, k, 0, [doc], [WORKS]);
            && Init(NewBackup(k, spec)) && Legal(NewBackup(k, spec), run)
            && k in Exec(NewBackup(k, spec), run).schedules
            && var b := Exec(NewBackup(k, spec), run).schedules[k];
               && b.history != [] && b.Current().generation == 1
               && |b.applies| == 2 && b.applies[0].spec == b.applies[1].spec
  {
    var s := FirstPass(k, spec, doc);
    var t := SecondPass(s, k, spec, 0, doc);
    Chain(NewBackup(k, spec), ReconcilerPass(0, k, 0, [doc], [WORKS]), s, ReconcilerPass(0, k, 0, [doc], [WORKS]), t);
  }

  function Edit(s: State, k: Request, spec: BackupSpec): State
    requires k in s.schedules && s.schedules[k].history != []
  {
    var b := s.schedules[k];
    s.(schedules := s.schedules[k := b.(history := b.history
                                        + [b.Current().(spec := spec, generation := b.Current().generation + 1)])])
  }

  lemma Edits(s: State, k: Request, spec: BackupSpec)
    requires k in s.schedules && s.schedules[k].history != [] && s.schedules[k].Current().spec != spec
    ensures Reaches(s, [EditSpec(k, spec)], Edit(s, k, spec))
  {
    One(s, EditSpec(k, spec));
  }

  /** From `a` applied, `c` is asked for and applied, then `a` again. */
  const C_WANTED := 3
  const A_AGAIN := 6
  const A_HIDDEN := 7

  function HidingRun(k: Request, a: BackupSpec, c: BackupSpec, da: Document, dc: Document): seq<Event> {
    ReconcilerPass(0, k, 0, [da], [WORKS]) + [EditSpec(k, c)]
    + (ReconcilerPass(0, k, C_WANTED, [dc], [WORKS]) + [EditSpec(k, a)]) + ObserverPass(1, k, A_APPLIED)
  }

  function AfterRound(s: State, k: Request, version: nat, doc: Document, spec: BackupSpec): State
    requires Ready(s, 0, k) && k in s.schedules && version < |s.schedules[k].history|
  {
    PassValues(s, 0, k, version, doc);
    Edit(AfterPass(s, 0, k, version, doc), k, spec)
  }

  /** A pass over the current version, and then an edit. */
  lemma Round(s: State, k: Request, version: nat, doc: Document, spec: BackupSpec)
    requires Ready(s, 0, k) && s.workers[0].role.BackupReconciler?
    requires k in s.schedules && version + 1 == |s.schedules[k].history| && s.schedules[k].Current().HasSpecChanged()
    requires doc.gvk != JOB && doc.name != "" && spec != s.schedules[k].Current().spec
    ensures var t := AfterRound(s, k, version, doc, spec);
            var b, c := s.schedules[k], t.schedules[k];
            && Reaches(s, ReconcilerPass(0, k, version, [doc], [WORKS]) + [EditSpec(k, spec)], t)
            && |t.workers| == |s.workers| && t.locks == s.locks && Ready(t, 0, k) && t.workers[0].role.BackupReconciler?
            && (forall v :: 0 < v < |s.workers| ==> t.workers[v] == s.workers[v])
            && |c.history| == version + 4 && c.history[..version + 1] == b.history
            && c.history[version + 2].status.lastAppliedSpecHash == HashOf(b.Current().spec)
            && c.history[version + 2].status.ownedReferences == b.Current().status.ownedReferences
            && c.Current().spec == spec && c.Current().generation == b.Current().generation + 1
            && c.Current().status == c.history[version + 2].status
            && c.applies == b.applies + [b.Current()] && c.lastWrite < |c.history| && |c.records| == |b.records| + 1
            && t.objects == Put(s.objects, Resolve(doc, k.namespace, ""), s.nextId)
  {
    PassValues(s, 0, k, version, doc);
    OnePass(s, 0, k, version, doc);
    var t := AfterPass(s, 0, k, version, doc);
    Edits(t, k, spec);
    Chain(s, ReconcilerPass(0, k, version, [doc], [WORKS]), t, [EditSpec(k, spec)], Edit(t, k, spec));
  }

  /** From a fresh schedule to the moment before the observer. */
  lemma EditedBack(k: Request, a: BackupSpec, c: BackupSpec, da: Document, dc: Document) returns (t: State)
    requires a != c && da.gvk != JOB && dc.gvk == da.gvk && da.name == dc.name != ""
    ensures Reaches(NewBackup(k, a),
                    ReconcilerPass(0, k, 0, [da], [WORKS]) + [EditSpec(k, c)]
                    + (ReconcilerPass(0, k, C_WANTED, [dc], [WORKS]) + [EditSpec(k, a)]), t)
    ensures Ready(t, 0, k) && t.workers[0].role.BackupReconciler? && Ready(t, 1, k) && t.workers[1].role.BackupObserver?
    ensures k in t.schedules && |t.schedules[k].history| == A_AGAIN + 1
    ensures var b := t.schedules[k];
            && b.Current().spec == a && b.Current().generation == 3 && b.Current().HasSpecChanged()
            && b.history[A_APPLIED].status.lastAppliedSpecHash == HashOf(a)
            && b.history[A_APPLIED].status.ownedReferences == []
            && |b.applies| == 2 && b.applies[1].spec == c
    ensures var id := Resolve(da, k.namespace, "").id; id in t.objects && t.objects[id].doc == dc
  {
    var s := NewBackup(k, a);
    Round(s, k, 0, da, c);
    var m := AfterRound(s, k, 0, da, c);
    Round(m, k, C_WANTED, dc, a);
    t := AfterRound(m, k, C_WANTED, dc, a);
    Chain(s, ReconcilerPass(0, k, 0, [da], [WORKS]) + [EditSpec(k, c)], m,
          ReconcilerPass(0, k, C_WANTED, [dc], [WORKS]) + [EditSpec(k, a)], t);
    assert t.schedules[k].history[A_APPLIED] == m.schedules[k].history[A_APPLIED];
  }

  /** An edit can be skipped for good, without any fault: the spec goes from `a` to `c` and back, and before the
      reconciler comes an observer that still sees `a` applied. The third generation then looks unchanged, a caught-up
      Reconcile leaves at once, and the cluster holds what `c` asked for. */
  lemma StaleObserverHidesEdit(k: Request, a: BackupSpec, c: BackupSpec, da: Document, dc: Document)
    requires a != c && da.gvk != JOB && dc.gvk == da.gvk && da.name == dc.name != "" && da != dc
    ensures Init(NewBackup(k, a)) && Legal(NewBackup(k, a), HidingRun(k, a, c, da, dc))
    ensures var t := Exec(NewBackup(k, a), HidingRun(k, a, c, da, dc));
            && k in t.schedules && |t.schedules[k].history| == A_HIDDEN + 1
            && var b := t.schedules[k];
               && b.Current().spec == a && b.Current().generation == 3 && !b.Current().HasSpecChanged()
               && |b.applies| == 2 && b.applies[1].spec == c
               && (var id := Resolve(da, k.namespace, "").id; id in t.objects && t.objects[id].doc == dc)
               && 0 < |t.workers|
               && Reaches(t, [Obtain(0, k), ReadBackup(0, A_HIDDEN, false), Done(0)], Out(t, 0, k))
  {
    var s := EditedBack(k, a, c, da, dc);
    var b := s.schedules[k];
    ObserverSweep(s, 1, k, A_APPLIED);
    var t := Out(s.(schedules := s.schedules[k := Observed(b, A_APPLIED)]), 1, k);
    Chain(NewBackup(k, a),
          ReconcilerPass(0, k, 0, [da], [WORKS]) + [EditSpec(k, c)]
          + (ReconcilerPass(0, k, C_WANTED, [dc], [WORKS]) + [EditSpec(k, a)]), s, ObserverPass(1, k, A_APPLIED), t);
    assert t.schedules[k].history[A_HIDDEN] == t.schedules[k].Current();
    UnchangedIsNoOp(t, 0, k, A_HIDDEN);
  }
}
