/** Two runs that skip an edit although every read is caught up and no observer interferes. */
module BackupLapses {
  import opened Wrappers
  import opened Locking
  import opened References
  import opened Rendering
  import opened Cluster
  import opened ControlPlane
  import opened LockProtocol
  import opened Runs
  import opened Passes
  import opened BackupSweeps
  import BackupFreshness
  import BackupTraces

  // ----- runs without stale reads and lost writes -----

  /** Every read is caught up and every pass announced; if `recorded`, no hash is lost either. */
  ghost predicate Orderly(s: State, events: seq<Event>, recorded: bool) {
    && Legal(s, events) && BackupTraces.AllFresh(s, events, true)
    && (recorded ==> BackupFreshness.AllCaughtUp(s, events))
  }

  predicate Calm(e: Event) {
    !e.ReadBackup? && !e.SaveError? && !e.Examine? && !e.Crash?
  }

  function Updates(events: seq<Event>): nat
    decreases |events|
  {
    if events == [] then 0 else (if events[0].SaveUpdate? then 1 else 0) + Updates(events[1..])
  }

  lemma {:induction false} UpdatesConcat(a: seq<Event>, b: seq<Event>)
    ensures Updates(a + b) == Updates(a) + Updates(b)
    decreases |a|
  {
    if a == [] {
      assert a + b == b;
    } else {
      UpdatesConcat(a[1..], b);
      assert (a + b)[1..] == a[1..] + b;
    }
  }

  /** No status write has been refused more than `n` times. */
  predicate Tries(s: State, n: nat) {
    forall v :: 0 <= v < |s.workers| && s.workers[v].phase.BackupSaving? ==> s.workers[v].phase.attempt <= n
  }

  lemma SaveTries(s: State, w: nat, n: nat)
    requires w < |s.workers| && (s.workers[w].phase.ActionSaving? || s.workers[w].phase.BackupSaving?) && Tries(s, n)
    ensures Tries(NextSave(s, w), n + 1)
  {
    SaveMoves(s, w);
  }

  lemma ApplyTries(s: State, w: nat, api: Answers, acknowledged: bool, n: nat)
    requires w < |s.workers| && (s.workers[w].phase.ActionApplying? || s.workers[w].phase.BackupApplying?)
    requires s.workers[w].phase.i < |s.workers[w].phase.docs| && Tries(s, n)
    ensures Tries(NextApply(s, w, api, acknowledged), n)
  {
    ApplyMoves(s, w, api, acknowledged);
  }

  lemma RenderTries(s: State, w: nat, docs: Option<seq<Document>>, n: nat)
    requires w < |s.workers| && (s.workers[w].phase.ActionRendering? || s.workers[w].phase.BackupRendering?)
    requires Tries(s, n)
    ensures Tries(NextRender(s, w, docs), n)
  {
    RenderMoves(s, w, docs);
  }

  lemma PhaseTries(s: State, e: Event, n: nat)
    requires Enabled(s, e) && PhaseOnly(e) && Tries(s, n)
    ensures Tries(Next(s, e), n)
  {
    BackupTraces.PhaseStep(s, e);
  }

  lemma StepTries(s: State, e: Event, n: nat)
    requires Enabled(s, e) && Tries(s, n) && !e.Examine? && !e.Crash?
    ensures Tries(Next(s, e), if e.SaveUpdate? then n + 1 else n)
  {
    if e.SaveUpdate? {
      SaveTries(s, e.w, n);
    } else if e.ApplyDoc? {
      ApplyTries(s, e.w, e.api, e.acknowledged, n);
    } else if e.Render? {
      RenderTries(s, e.w, e.docs, n);
    } else if PhaseOnly(e) {
      PhaseTries(s, e, n);
    } else if !IsWorkerEvent(e) {
      EnvironmentStepShape(s, e);
    }
  }

  /** Few status writes, none of which can be given up. */
  lemma {:induction false} CalmRun(s: State, events: seq<Event>, n: nat)
    requires Legal(s, events) && (forall e :: e in events ==> Calm(e))
    requires Tries(s, n) && n + Updates(events) < MAX_ATTEMPTS
    ensures Orderly(s, events, true)
    decreases |events|
  {
    if events != [] {
      var e := events[0];
      assert e in events;
      StepTries(s, e, n);
      CalmRun(Next(s, e), events[1..], if e.SaveUpdate? then n + 1 else n);
    }
  }

  lemma {:induction false} OrderlyChain(s: State, a: seq<Event>, t: State, b: seq<Event>, recorded: bool)
    requires Reaches(s, a, t) && Orderly(s, a, recorded) && Orderly(t, b, recorded)
    ensures Orderly(s, a + b, recorded)
    decreases |a|
  {
    if a == [] {
      assert a + b == b;
    } else {
      OrderlyChain(Next(s, a[0]), a[1..], t, b, recorded);
      assert (a + b)[1..] == a[1..] + b;
    }
  }

  /** A pass that reads what the last status write left. */
  lemma OrderlyPass(s: State, w: nat, k: Request, version: nat, rest: seq<Event>)
    requires Ready(s, w, k) && k in s.schedules && s.schedules[k].lastWrite <= version
    requires Legal(s, [Obtain(w, k)] + [ReadBackup(w, version, false)] + rest) && forall e :: e in rest ==> Calm(e)
    requires Tries(s, 0) && Updates(rest) < MAX_ATTEMPTS
    ensures Orderly(s, [Obtain(w, k)] + [ReadBackup(w, version, false)] + rest, true)
  {
    var events := [Obtain(w, k)] + [ReadBackup(w, version, false)] + rest;
    assert events[1..] == [ReadBackup(w, version, false)] + rest && events[1..][1..] == rest;
    var holding := Next(s, Obtain(w, k));
    StepTries(s, Obtain(w, k), 0);
    StepTries(holding, ReadBackup(w, version, false), 0);
    CalmRun(Next(holding, ReadBackup(w, version, false)), rest, 0);
  }

  lemma OrderlyEdit(s: State, k: Request, spec: BackupSpec)
    requires Enabled(s, EditSpec(k, spec))
    ensures Orderly(s, [EditSpec(k, spec)], true)
  {
    assert [EditSpec(k, spec)][1..] == [];
  }

  // ----- a pass that fails halfway -----

  const FAILS := Answers(false, false, true, "")

  /** The first document goes through, the second does not. */
  function HalfEnd(w: nat, dc: Document, dx: Document): seq<Event> {
    [Render(w, Some([dc, dx]))] + [ApplyDoc(w, WORKS, true)] + [ApplyDoc(w, FAILS, true)]
    + [SaveGet(w), SaveUpdate(w)] + [Done(w)]
  }

  /** The cluster with the first document in place, the second label drawn in vain. */
  function HalfApplied(s: State, k: Request, dc: Document): State {
    s.(objects := Put(s.objects, Resolve(dc, k.namespace, ""), s.nextId), nextId := s.nextId + 2,
       landings := s.landings + [Landing(k, false, CallFor(dc, k.namespace, "", s.nextId, true))])
  }

  lemma HalfApplies(s: State, w: nat, k: Request, snap: BackupVersion, dc: Document, dx: Document)
    requires w < |s.workers| && k in s.schedules && dc.name != ""
    ensures Reaches(At(s, w, k, BackupApplying(snap, [dc, dx], 0, [])),
                    [ApplyDoc(w, WORKS, true)] + [ApplyDoc(w, FAILS, true)],
                    At(HalfApplied(s, k, dc), w, k, Marking(snap, False, ThenLeave)))
  {
    var p := BackupApplying(snap, [dc, dx], 0, []);
    var call := CallFor(dc, k.namespace, "", s.nextId, true);
    var q := BackupApplying(snap, [dc, dx], 1, [call]);
    var first := s.(objects := Put(s.objects, Resolve(dc, k.namespace, ""), s.nextId), nextId := s.nextId + 1,
                    landings := s.landings + [Landing(k, false, call)]);
    assert s.schedules[k := s.schedules[k]] == s.schedules;
    assert p.made + [call] == [call] && AppliedBackupPhase(p, call, true) == q;
    AppliesOne(s, w, k, p, WORKS);
    SecondFails(first, w, k, q);
    Chain(At(s, w, k, p), [ApplyDoc(w, WORKS, true)], At(first, w, k, q), [ApplyDoc(w, FAILS, true)],
          At(HalfApplied(s, k, dc), w, k, Marking(snap, False, ThenLeave)));
  }

  /** A document that does not go through. */
  lemma SecondFails(s: State, w: nat, k: Request, p: Phase)
    requires w < |s.workers| && k in s.schedules && p.BackupApplying? && p.i < |p.docs|
    ensures Reaches(At(s, w, k, p), [ApplyDoc(w, FAILS, true)],
                    At(s.(nextId := s.nextId + 1), w, k, Marking(p.snap, False, ThenLeave)))
  {
    One(At(s, w, k, p), ApplyDoc(w, FAILS, true));
    assert s.schedules[k := s.schedules[k]] == s.schedules;
  }

  function AfterHalf(s: State, w: nat, k: Request, snap: BackupVersion, dc: Document): State
    requires w < |s.workers| && k in s.schedules && s.schedules[k].history != []
  {
    var t := HalfApplied(s, k, dc);
    Out(t.(schedules := t.schedules[k := Marked(t.schedules[k], snap, False)]), w, k)
  }

  /** The failure is stored and the lock released. */
  lemma HalfLeaves(s: State, w: nat, k: Request, snap: BackupVersion, dc: Document)
    requires Ready(s, w, k) && k in s.schedules && s.schedules[k].history != []
    ensures Reaches(At(HalfApplied(s, k, dc), w, k, Marking(snap, False, ThenLeave)),
                    [SaveGet(w), SaveUpdate(w)] + [Done(w)], AfterHalf(s, w, k, snap, dc))
  {
    var half := HalfApplied(s, k, dc);
    var t := half.(schedules := half.schedules[k := Marked(half.schedules[k], snap, False)]);
    Save(half, w, k, snap, Mark(False), ThenLeave);
    Leave(t, w, k);
    Chain(At(half, w, k, Marking(snap, False, ThenLeave)), [SaveGet(w), SaveUpdate(w)], At(t, w, k, Leaving), [Done(w)],
          Out(t, w, k));
  }

  lemma HalfFinishes(s: State, w: nat, k: Request, snap: BackupVersion, dc: Document, dx: Document)
    requires Ready(s, w, k) && k in s.schedules && s.schedules[k].history != []
    requires dc.gvk != JOB && dx.gvk != JOB && dc.name != ""
    ensures Reaches(At(s, w, k, BackupRendering(snap)), HalfEnd(w, dc, dx), AfterHalf(s, w, k, snap, dc))
  {
    var start, rendered := At(s, w, k, BackupRendering(snap)), At(s, w, k, BackupApplying(snap, [dc, dx], 0, []));
    var failed := At(HalfApplied(s, k, dc), w, k, Marking(snap, False, ThenLeave));
    var render, apply := [Render(w, Some([dc, dx]))], [ApplyDoc(w, WORKS, true)] + [ApplyDoc(w, FAILS, true)];
    var leave := [SaveGet(w), SaveUpdate(w)] + [Done(w)];
    One(start, render[0]);
    assert Next(start, render[0]) == rendered;
    HalfApplies(s, w, k, snap, dc, dx);
    HalfLeaves(s, w, k, snap, dc);
    ThreePasses(start, render, rendered, apply, failed, leave, AfterHalf(s, w, k, snap, dc));
    assert render + apply + leave == HalfEnd(w, dc, dx);
  }

  // ----- a pass whose record is lost -----

  /** Everything is applied, and the write that would say so fails for good. */
  lemma LostFinishes(s: State, w: nat, k: Request, snap: BackupVersion, doc: Document)
    requires Ready(s, w, k) && k in s.schedules && s.schedules[k].history != [] && doc.gvk != JOB && doc.name != ""
    ensures var marking := At(AllApplied(s, k, snap, [doc], [WORKS]), w, k, Marking(snap, True, ThenLeave));
            && Reaches(At(s, w, k, BackupRendering(snap)), [Render(w, Some([doc]))] + ApplyEvents(w, [WORKS]), marking)
            && Reaches(marking, [SaveError(w)] + [Done(w)], Out(AllApplied(s, k, snap, [doc], [WORKS]), w, k))
  {
    var start, rendered := At(s, w, k, BackupRendering(snap)), At(s, w, k, BackupApplying(snap, [doc], 0, []));
    var applied := AllApplied(s, k, snap, [doc], [WORKS]);
    One(start, Render(w, Some([doc])));
    assert Next(start, Render(w, Some([doc]))) == rendered;
    NamedSucceeds(s.objects, doc, k.namespace, s.nextId);
    AllDocuments(s, w, k, snap, [doc], [WORKS]);
    Chain(start, [Render(w, Some([doc]))], rendered, ApplyEvents(w, [WORKS]),
          At(applied, w, k, Marking(snap, True, ThenLeave)));
    Step(applied, w, k, Marking(snap, True, ThenLeave), SaveError(w));
    Leave(applied, w, k);
    Chain(At(applied, w, k, Marking(snap, True, ThenLeave)), [SaveError(w)], At(applied, w, k, Leaving), [Done(w)],
          Out(applied, w, k));
  }

  // ----- the runs -----

  function FirstRound(k: Request, a: BackupSpec, c: BackupSpec, da: Document): seq<Event> {
    ReconcilerPass(0, k, 0, [da], [WORKS]) + [EditSpec(k, c)]
  }

  /** The rest of a pass after its read. */
  function AfterRead(w: nat, end: seq<Event>): seq<Event> {
    [Hydrate(w, true)] + [SaveGet(w), SaveUpdate(w)] + end
  }

  lemma PassIsRead(w: nat, k: Request, version: nat, end: seq<Event>)
    ensures PassBegin(w, k, version) + end == [Obtain(w, k)] + [ReadBackup(w, version, false)] + AfterRead(w, end)
    ensures Updates(AfterRead(w, end)) == 1 + Updates(end)
  {
    UpdatesConcat([Hydrate(w, true)] + [SaveGet(w), SaveUpdate(w)], end);
    UpdatesConcat([Hydrate(w, true)], [SaveGet(w), SaveUpdate(w)]);
    OneUpdate(w);
  }

  lemma OneUpdate(w: nat)
    ensures Updates([SaveGet(w), SaveUpdate(w)]) == 1
  {
    UpdatesConcat([SaveGet(w)], [SaveUpdate(w)]);
    assert [SaveGet(w)] + [SaveUpdate(w)] == [SaveGet(w), SaveUpdate(w)];
  }

  lemma EndUpdates(w: nat, doc: Document, dc: Document, dx: Document)
    ensures Updates(PassEnd(w, [doc], [WORKS])) == 1 && Updates(HalfEnd(w, dc, dx)) == 1
    ensures Updates([Render(w, Some([doc]))] + ApplyEvents(w, [WORKS])) == 0
  {
    var saves := [SaveGet(w), SaveUpdate(w)];
    OneUpdate(w);
    EventsOneMore(w, [WORKS], 0);
    var render, apply := [Render(w, Some([doc]))], ApplyEvents(w, [WORKS]);
    assert apply == [ApplyDoc(w, WORKS, true)];
    UpdatesConcat(render, apply);
    UpdatesConcat(render + apply, saves);
    UpdatesConcat(render + apply + saves, [Done(w)]);
    var both := [Render(w, Some([dc, dx]))] + [ApplyDoc(w, WORKS, true)];
    UpdatesConcat([Render(w, Some([dc, dx]))], [ApplyDoc(w, WORKS, true)]);
    UpdatesConcat(both, [ApplyDoc(w, FAILS, true)]);
    UpdatesConcat(both + [ApplyDoc(w, FAILS, true)], saves);
    UpdatesConcat(both + [ApplyDoc(w, FAILS, true)] + saves, [Done(w)]);
  }

  lemma FirstIsOrderly(k: Request, a: BackupSpec, da: Document)
    requires Legal(NewBackup(k, a), ReconcilerPass(0, k, 0, [da], [WORKS]))
    ensures Orderly(NewBackup(k, a), ReconcilerPass(0, k, 0, [da], [WORKS]), true)
  {
    PassIsRead(0, k, 0, PassEnd(0, [da], [WORKS]));
    EndUpdates(0, da, da, da);
    OrderlyPass(NewBackup(k, a), 0, k, 0, AfterRead(0, PassEnd(0, [da], [WORKS])));
  }

  /** The version `a` is applied and recorded, and `c` is asked for. */
  lemma AfterFirst(k: Request, a: BackupSpec, c: BackupSpec, da: Document) returns (m: State)
    requires a != c && da.gvk != JOB && da.name != ""
    ensures Init(NewBackup(k, a)) && Reaches(NewBackup(k, a), FirstRound(k, a, c, da), m)
    ensures Orderly(NewBackup(k, a), FirstRound(k, a, c, da), true)
    ensures Due(m, k)
    ensures var b := m.schedules[k];
            && b.Current().spec == c && b.Current().generation == 2
            && b.Current().status.lastAppliedSpecHash == HashOf(a)
            && |b.applies| == 1 && b.applies[0].spec == a && |b.records| == 1
            && var id := Resolve(da, k.namespace, "").id; id in m.objects && m.objects[id].doc == da
  {
    var s := NewBackup(k, a);
    Round(s, k, 0, da, c);
    m := AfterRound(s, k, 0, da, c);
    PassValues(s, 0, k, 0, da);
    OnePass(s, 0, k, 0, da);
    var applied := AfterPass(s, 0, k, 0, da);
    FirstIsOrderly(k, a, da);
    OrderlyEdit(applied, k, c);
    OrderlyChain(s, ReconcilerPass(0, k, 0, [da], [WORKS]), applied, [EditSpec(k, c)], true);
  }

  // ----- the two runs -----

  function FailedPassRun(k: Request, a: BackupSpec, c: BackupSpec, da: Document, dc: Document, dx: Document)
    : seq<Event>
  {
    FirstRound(k, a, c, da) + (PassBegin(0, k, C_WANTED) + HalfEnd(0, dc, dx) + [EditSpec(k, a)])
  }

  function LostRecordRun(k: Request, a: BackupSpec, c: BackupSpec, da: Document, dc: Document): seq<Event> {
    FirstRound(k, a, c, da) + (LossBegin(k, dc) + ([SaveError(0)] + [Done(0)]) + [EditSpec(k, a)])
  }

  /** The current version shows the hash of `a` again, the cluster holds `doc` instead, and a caught-up Reconcile leaves
      at once. */
  ghost predicate Skips(t: State, k: Request, a: BackupSpec, doc: Document) {
    && k in t.schedules && t.schedules[k].history != [] && 0 < |t.workers|
    && (forall v :: v in t.workers ==> !v.Inside())
    && var b := t.schedules[k];
       && b.Current().spec == a && b.Current().generation == 3 && !b.Current().HasSpecChanged()
       && (var id := Resolve(doc, k.namespace, "").id; id in t.objects && t.objects[id].doc == doc)
       && Reaches(t, [Obtain(0, k), ReadBackup(0, |b.history| - 1, false), Done(0)], Out(t, 0, k))
  }

  /** After `f`, a schedule edited back to `a`. */
  lemma EditedBackSkips(f: State, k: Request, a: BackupSpec, doc: Document) returns (t: State)
    requires Ready(f, 0, k) && f.workers[0].role.BackupReconciler? && forall v :: v in f.workers ==> v.phase.Idle?
    requires k in f.schedules && f.schedules[k].history != []
    requires var v := f.schedules[k].Current();
             v.spec != a && v.generation == 2 && v.status.lastAppliedSpecHash == HashOf(a)
    requires var id := Resolve(doc, k.namespace, "").id; id in f.objects && f.objects[id].doc == doc
    ensures Reaches(f, [EditSpec(k, a)], t) && Orderly(f, [EditSpec(k, a)], true) && Skips(t, k, a, doc)
    ensures t.schedules[k].applies == f.schedules[k].applies && t.schedules[k].records == f.schedules[k].records
    ensures t.schedules[k].Current().status == f.schedules[k].Current().status
  {
    Edits(f, k, a);
    OrderlyEdit(f, k, a);
    t := Edit(f, k, a);
    UnchangedIsNoOp(t, 0, k, |t.schedules[k].history| - 1);
  }

  /** Worker 0 may start over a changed current version, the one behind `C_WANTED`. */
  predicate Due(m: State, k: Request) {
    && Ready(m, 0, k) && m.workers[0].role.BackupReconciler? && (forall v :: v in m.workers ==> v.phase.Idle?)
    && k in m.schedules && |m.schedules[k].history| == C_WANTED + 1 && m.schedules[k].lastWrite <= C_WANTED
    && m.schedules[k].Current().HasSpecChanged()
  }

  /** The pass announced, nobody inside. */
  function Announced(m: State, k: Request): State
    requires k in m.schedules && m.schedules[k].history != []
  {
    m.(schedules := m.schedules[k := Marked(m.schedules[k], m.schedules[k].Current(), Unknown)])
  }

  /** What the second pass leaves when it fails halfway. */
  function AfterFailure(m: State, k: Request, dc: Document): State
    requires Due(m, k)
  {
    AfterHalf(Announced(m, k), 0, k, m.schedules[k].Current(), dc)
  }

  lemma FailureValues(m: State, k: Request, dc: Document)
    requires Due(m, k)
    ensures var f := AfterFailure(m, k, dc);
            && Ready(f, 0, k) && f.workers[0].role.BackupReconciler? && (forall v :: v in f.workers ==> v.phase.Idle?)
            && k in f.schedules && f.schedules[k].history != []
            && var b, v, before := f.schedules[k], f.schedules[k].Current(), m.schedules[k].Current();
               && v.spec == before.spec && v.generation == before.generation
               && v.status.lastAppliedSpecHash == before.status.lastAppliedSpecHash
               && b.applies == m.schedules[k].applies && b.records == m.schedules[k].records
               && INSTALLATION in v.status.conditions && v.status.conditions[INSTALLATION].status == False
               && var id := Resolve(dc, k.namespace, "").id; id in f.objects && f.objects[id].doc == dc
  {
  }

  lemma FailurePass(m: State, k: Request, dc: Document, dx: Document)
    requires Due(m, k) && dc.gvk != JOB && dx.gvk != JOB && dc.name != ""
    ensures Reaches(m, PassBegin(0, k, C_WANTED) + HalfEnd(0, dc, dx), AfterFailure(m, k, dc))
    ensures Orderly(m, PassBegin(0, k, C_WANTED) + HalfEnd(0, dc, dx), true)
  {
    var snap := m.schedules[k].Current();
    ReconcilerBegins(m, 0, k, C_WANTED);
    HalfFinishes(Announced(m, k), 0, k, snap, dc, dx);
    Chain(m, PassBegin(0, k, C_WANTED), At(Announced(m, k), 0, k, BackupRendering(snap)), HalfEnd(0, dc, dx),
          AfterFailure(m, k, dc));
    FailureIsOrderly(m, k, dc, dx);
  }

  lemma FailureIsOrderly(m: State, k: Request, dc: Document, dx: Document)
    requires Due(m, k) && Legal(m, PassBegin(0, k, C_WANTED) + HalfEnd(0, dc, dx))
    ensures Orderly(m, PassBegin(0, k, C_WANTED) + HalfEnd(0, dc, dx), true)
  {
    PassIsRead(0, k, C_WANTED, HalfEnd(0, dc, dx));
    EndUpdates(0, dc, dc, dx);
    OrderlyPass(m, 0, k, C_WANTED, AfterRead(0, HalfEnd(0, dc, dx)));
  }

  /** What the second pass leaves when it is complete but its record is lost. */
  function AfterLoss(m: State, k: Request, dc: Document): State
    requires Due(m, k)
  {
    Out(AllApplied(Announced(m, k), k, m.schedules[k].Current(), [dc], [WORKS]), 0, k)
  }

  lemma LossValues(m: State, k: Request, dc: Document)
    requires Due(m, k)
    ensures var f := AfterLoss(m, k, dc);
            && Ready(f, 0, k) && f.workers[0].role.BackupReconciler? && (forall v :: v in f.workers ==> v.phase.Idle?)
            && k in f.schedules && f.schedules[k].history != []
            && var b, v, before := f.schedules[k], f.schedules[k].Current(), m.schedules[k].Current();
               && v.spec == before.spec && v.generation == before.generation
               && v.status.lastAppliedSpecHash == before.status.lastAppliedSpecHash
               && b.applies == m.schedules[k].applies + [before] && b.records == m.schedules[k].records
               && INSTALLATION in v.status.conditions && v.status.conditions[INSTALLATION].status == Unknown
               && var id := Resolve(dc, k.namespace, "").id; id in f.objects && f.objects[id].doc == dc
  {
    WroteOne(Announced(m, k), k, false, dc, WORKS);
  }

  function LossBegin(k: Request, dc: Document): seq<Event> {
    PassBegin(0, k, C_WANTED) + ([Render(0, Some([dc]))] + ApplyEvents(0, [WORKS]))
  }

  lemma LossPass(m: State, k: Request, dc: Document)
    requires Due(m, k) && dc.gvk != JOB && dc.name != ""
    ensures Reaches(m, LossBegin(k, dc) + ([SaveError(0)] + [Done(0)]), AfterLoss(m, k, dc))
    ensures Orderly(m, LossBegin(k, dc) + ([SaveError(0)] + [Done(0)]), false)
  {
    var snap, begun, end := m.schedules[k].Current(), Announced(m, k), [SaveError(0)] + [Done(0)];
    var u := At(AllApplied(begun, k, snap, [dc], [WORKS]), 0, k, Marking(snap, True, ThenLeave));
    ReconcilerBegins(m, 0, k, C_WANTED);
    LostFinishes(begun, 0, k, snap, dc);
    Chain(m, PassBegin(0, k, C_WANTED), At(begun, 0, k, BackupRendering(snap)),
          [Render(0, Some([dc]))] + ApplyEvents(0, [WORKS]), u);
    Chain(m, LossBegin(k, dc), u, end, AfterLoss(m, k, dc));
    LossBegins(m, k, dc);
    assert end[1..] == [Done(0)] && [Done(0)][1..] == [];
    OrderlyChain(m, LossBegin(k, dc), u, end, false);
  }

  lemma LossBegins(m: State, k: Request, dc: Document)
    requires Due(m, k) && Legal(m, LossBegin(k, dc))
    ensures Orderly(m, LossBegin(k, dc), true)
  {
    PassIsRead(0, k, C_WANTED, [Render(0, Some([dc]))] + ApplyEvents(0, [WORKS]));
    EndUpdates(0, dc, dc, dc);
    OrderlyPass(m, 0, k, C_WANTED, AfterRead(0, [Render(0, Some([dc]))] + ApplyEvents(0, [WORKS])));
  }

  /** An edit is skipped although every read is caught up, no status write is lost and no observer interferes: `a` is
      applied, a pass over `c` replaces the document of `a` and then fails, and the spec goes back to `a`. */
  lemma FailedPassHidesEdit(k: Request, a: BackupSpec, c: BackupSpec, da: Document, dc: Document, dx: Document)
    requires a != c && da.gvk != JOB && dc.gvk == da.gvk && da.name == dc.name != "" && da != dc && dx.gvk != JOB
    ensures var s, run := NewBackup(k, a), FailedPassRun(k, a, c, da, dc, dx);
            && Init(s) && Legal(s, run) && BackupFreshness.AllCaughtUp(s, run) && BackupTraces.AllFresh(s, run, true)
            && var t := Exec(s, run);
               && Skips(t, k, a, dc) && Resolve(da, k.namespace, "").id == Resolve(dc, k.namespace, "").id
               && var b := t.schedules[k];
                  && |b.applies| == 1 && b.applies[0].spec == a
                  && INSTALLATION in b.Current().status.conditions
                  && b.Current().status.conditions[INSTALLATION].status == False
  {
    var s, second := NewBackup(k, a), PassBegin(0, k, C_WANTED) + HalfEnd(0, dc, dx);
    var m := AfterFirst(k, a, c, da);
    var f := AfterFailure(m, k, dc);
    FailurePass(m, k, dc, dx);
    FailureValues(m, k, dc);
    var t := EditedBackSkips(f, k, a, dc);
    Chain(m, second, f, [EditSpec(k, a)], t);
    OrderlyChain(m, second, f, [EditSpec(k, a)], true);
    Chain(s, FirstRound(k, a, c, da), m, second + [EditSpec(k, a)], t);
    OrderlyChain(s, FirstRound(k, a, c, da), m, second + [EditSpec(k, a)], true);
  }

  /** The same without a failed pass: `c` is applied completely, the status write that would record it fails for good,
      and the spec goes back to `a`. */
  lemma LostRecordHidesEdit(k: Request, a: BackupSpec, c: BackupSpec, da: Document, dc: Document)
    requires a != c && da.gvk != JOB && dc.gvk == da.gvk && da.name == dc.name != "" && da != dc
    ensures var s, run := NewBackup(k, a), LostRecordRun(k, a, c, da, dc);
            && Init(s) && Legal(s, run) && BackupTraces.AllFresh(s, run, true)
            && var t := Exec(s, run);
               && Skips(t, k, a, dc) && Resolve(da, k.namespace, "").id == Resolve(dc, k.namespace, "").id
               && var b := t.schedules[k];
                  && |b.applies| == 2 && b.applies[0].spec == a && b.applies[1].spec == c && |b.records| == 1
                  && INSTALLATION in b.Current().status.conditions
                  && b.Current().status.conditions[INSTALLATION].status == Unknown
  {
    var s, second := NewBackup(k, a), LossBegin(k, dc) + ([SaveError(0)] + [Done(0)]);
    var m := AfterFirst(k, a, c, da);
    var f := AfterLoss(m, k, dc);
    LossPass(m, k, dc);
    LossValues(m, k, dc);
    var t := EditedBackSkips(f, k, a, dc);
    Chain(m, second, f, [EditSpec(k, a)], t);
    OrderlyChain(m, second, f, [EditSpec(k, a)], false);
    Chain(s, FirstRound(k, a, c, da), m, second + [EditSpec(k, a)], t);
    OrderlyChain(s, FirstRound(k, a, c, da), m, second + [EditSpec(k, a)], false);
  }

  // ----- a pass that fails before its first call -----

  function NoPass(w: nat): seq<Event> {
    [Render(w, None)] + [SaveGet(w), SaveUpdate(w)] + [Done(w)]
  }

  /** What the second pass leaves when nothing could be rendered. */
  function AfterNothing(m: State, k: Request): State
    requires Due(m, k)
  {
    var begun := Announced(m, k);
    Out(begun.(schedules := begun.schedules[k := Marked(begun.schedules[k], m.schedules[k].Current(), False)]), 0, k)
  }

  lemma NothingPass(m: State, k: Request)
    requires Due(m, k)
    ensures Reaches(m, PassBegin(0, k, C_WANTED) + NoPass(0), AfterNothing(m, k))
    ensures Orderly(m, PassBegin(0, k, C_WANTED) + NoPass(0), true)
  {
    var snap, begun := m.schedules[k].Current(), Announced(m, k);
    var start, marking := At(begun, 0, k, BackupRendering(snap)), At(begun, 0, k, Marking(snap, False, ThenLeave));
    var t := begun.(schedules := begun.schedules[k := Marked(begun.schedules[k], snap, False)]);
    ReconcilerBegins(m, 0, k, C_WANTED);
    One(start, Render(0, None));
    assert Next(start, Render(0, None)) == marking;
    Save(begun, 0, k, snap, Mark(False), ThenLeave);
    Leave(t, 0, k);
    ThreePasses(start, [Render(0, None)], marking, [SaveGet(0), SaveUpdate(0)], At(t, 0, k, Leaving), [Done(0)],
                AfterNothing(m, k));
    Chain(m, PassBegin(0, k, C_WANTED), start, NoPass(0), AfterNothing(m, k));
    NothingIsOrderly(m, k);
  }

  lemma NothingIsOrderly(m: State, k: Request)
    requires Due(m, k) && Legal(m, PassBegin(0, k, C_WANTED) + NoPass(0))
    ensures Orderly(m, PassBegin(0, k, C_WANTED) + NoPass(0), true)
  {
    OneUpdate(0);
    UpdatesConcat([Render(0, None)], [SaveGet(0), SaveUpdate(0)]);
    UpdatesConcat([Render(0, None)] + [SaveGet(0), SaveUpdate(0)], [Done(0)]);
    PassIsRead(0, k, C_WANTED, NoPass(0));
    OrderlyPass(m, 0, k, C_WANTED, AfterRead(0, NoPass(0)));
  }

  function FailedRenderRun(k: Request, a: BackupSpec, c: BackupSpec, da: Document): seq<Event> {
    FirstRound(k, a, c, da) + (PassBegin(0, k, C_WANTED) + NoPass(0) + [EditSpec(k, a)])
  }

  /** A condition other than True does not tell that a document was replaced: here the pass over `c` fails while
      rendering, and the edit back is rightly skipped, with the document of `a` still in place. */
  lemma FailedRenderHidesNothing(k: Request, a: BackupSpec, c: BackupSpec, da: Document)
    requires a != c && da.gvk != JOB && da.name != ""
    ensures var s, run := NewBackup(k, a), FailedRenderRun(k, a, c, da);
            && Init(s) && Legal(s, run) && BackupFreshness.AllCaughtUp(s, run) && BackupTraces.AllFresh(s, run, true)
            && var t := Exec(s, run);
               && Skips(t, k, a, da)
               && var v := t.schedules[k].Current();
                  INSTALLATION in v.status.conditions && v.status.conditions[INSTALLATION].status == False
  {
    var s, second := NewBackup(k, a), PassBegin(0, k, C_WANTED) + NoPass(0);
    var m := AfterFirst(k, a, c, da);
    var f := AfterNothing(m, k);
    NothingPass(m, k);
    var t := EditedBackSkips(f, k, a, da);
    Chain(m, second, f, [EditSpec(k, a)], t);
    OrderlyChain(m, second, f, [EditSpec(k, a)], true);
    Chain(s, FirstRound(k, a, c, da), m, second + [EditSpec(k, a)], t);
    OrderlyChain(s, FirstRound(k, a, c, da), m, second + [EditSpec(k, a)], true);
  }
}
