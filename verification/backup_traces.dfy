/** ScheduledBackups in runs whose reads are caught up, whatever else is lost or fails: how the recorded hash and the
    condition go with the calls made. */
module BackupTraces {
  import opened Wrappers
  import opened Locking
  import opened Rendering
  import opened Cluster
  import opened ControlPlane
  import opened LockProtocol
  import opened StoreProtocol
  import opened BackupProtocol
  import opened BackupFreshness

  // ----- which runs -----

  /** About to say that a pass begins. */
  predicate Announcing(p: Phase) {
    p.BackupSaving? && p.next == ThenRender
  }

  /** The cache shows the last status write. Status writes may be lost, the True one included, applies may fail and
      processes crash; if `announced`, at least the write that announces a pass is not lost. */
  ghost predicate Fresh(s: State, e: Event, announced: bool)
    requires Enabled(s, e)
  {
    && (e.ReadBackup? ==> s.schedules[s.workers[e.w].key].lastWrite <= e.version)
    && (announced && e.SaveError? ==> !Announcing(s.workers[e.w].phase))
    && (announced && e.SaveUpdate? && Announcing(s.workers[e.w].phase) ==>
          Version(s, e.w, s.workers[e.w].phase.got) || s.workers[e.w].phase.attempt + 1 < MAX_ATTEMPTS)
  }

  ghost predicate AllFresh(s: State, events: seq<Event>, announced: bool)
    requires Legal(s, events)
    decreases |events|
  {
    events == [] || (Fresh(s, events[0], announced) && AllFresh(Next(s, events[0]), events[1..], announced))
  }

  lemma {:induction false} CaughtUpIsFresh(s: State, events: seq<Event>)
    requires Legal(s, events) && AllCaughtUp(s, events)
    ensures AllFresh(s, events, false)
    decreases |events|
  {
    if events != [] {
      CaughtUpIsFresh(Next(s, events[0]), events[1..]);
    }
  }

  // ----- calls in a row -----

  /** Some calls in one piece, with nothing in between. */
  predicate RowAt(own: seq<Call>, calls: seq<Call>, n: nat) {
    n + |calls| <= |own| && own[n..n + |calls|] == calls
  }

  predicate InARow(own: seq<Call>, calls: seq<Call>) {
    exists n :: 0 <= n <= |own| && RowAt(own, calls, n)
  }

  predicate EndsWith(own: seq<Call>, calls: seq<Call>) {
    |calls| <= |own| && own[|own| - |calls|..] == calls
  }

  lemma StaysInARow(own: seq<Call>, calls: seq<Call>, call: Call)
    requires InARow(own, calls)
    ensures InARow(own + [call], calls)
  {
    var n :| 0 <= n <= |own| && RowAt(own, calls, n);
    assert (own + [call])[n..n + |calls|] == own[n..n + |calls|];
    assert RowAt(own + [call], calls, n);
  }

  lemma EndsLonger(own: seq<Call>, calls: seq<Call>, call: Call)
    requires EndsWith(own, calls)
    ensures EndsWith(own + [call], calls + [call])
  {
  }

  lemma EndIsARow(own: seq<Call>, calls: seq<Call>)
    requires EndsWith(own, calls)
    ensures RowAt(own, calls, |own| - |calls|) && InARow(own, calls)
  {
    assert RowAt(own, calls, |own| - |calls|);
  }

  // ----- one schedule -----

  function LastRecord(b: Schedule): Record
    requires b.records != []
  {
    b.records[|b.records| - 1]
  }

  /** The status says that the last installation went well. */
  predicate SaysInstalled(v: BackupVersion) {
    INSTALLATION in v.status.conditions && v.status.conditions[INSTALLATION].status == True
  }

  /** The installation whose hash was stored last. */
  function RecordedInstallation(b: Schedule): Installation
    requires b.records != [] && 1 <= LastRecord(b).complete <= |b.installed|
  {
    b.installed[LastRecord(b).complete - 1]
  }

  /** The hash shown is the one stored last, and it is that of an application then complete. */
  predicate ShowsLastRecord(b: Schedule)
    requires b.history != []
  {
    if b.records == [] then b.Current().status.lastAppliedSpecHash == NeverApplied
    else
      var last := LastRecord(b);
      && b.Current().status.lastAppliedSpecHash == HashOf(last.snap.spec)
      && 1 <= last.complete <= |b.applies| == |b.installed| && b.applies[last.complete - 1] == last.snap
  }

  /** The last complete application is the recorded one, and this backup has made no call since. */
  predicate NothingSince(b: Schedule, own: seq<Call>) {
    && b.records != [] && b.installed != [] && LastRecord(b).complete == |b.installed|
    && EndsWith(own, b.installed[|b.installed| - 1].calls)
  }

  predicate Uninterrupted(own: seq<Call>, installed: seq<Installation>) {
    forall i :: 0 <= i < |installed| ==> InARow(own, installed[i].calls)
  }

  /** A schedule and the calls made for it. */
  ghost predicate Traced(b: Schedule, own: seq<Call>, announced: bool) {
    && b.lastWrite < |b.history| && |b.installed| == |b.applies|
    && (forall i {:trigger UpToDate(b, i)} :: b.lastWrite <= i < |b.history| ==> UpToDate(b, i))
    && ShowsLastRecord(b) && Uninterrupted(own, b.installed)
    && (announced && SaysInstalled(b.Current()) ==> NothingSince(b, own))
  }

  /** The same, as the worker inside for it sees it. */
  predicate PhaseTraced(b: Schedule, own: seq<Call>, role: Role, p: Phase, announced: bool)
    requires HasSnap(p) && b.history != []
  {
    match p
    case BackupRead(snap) => role.BackupReconciler? || snap.status == b.Current().status
    case BackupExamining(snap, _) => snap.status == b.Current().status
    case BackupRendering(_) => announced ==> !SaysInstalled(b.Current())
    case BackupApplying(_, _, _, made) => EndsWith(own, made) && (announced ==> !SaysInstalled(b.Current()))
    case BackupSaving(snap, change, next, _, _) =>
      && (next == ThenRender ==> change == Mark(Unknown))
      && (change.Publish? ==> snap.status == b.Current().status)
      && (change == Mark(True) ==>
            && b.applies != [] && |b.installed| == |b.applies| && snap == b.applies[|b.applies| - 1]
            && EndsWith(own, b.installed[|b.installed| - 1].calls))
  }

  /** One more version by a user's hand. */
  lemma EditTraced(b: Schedule, v: BackupVersion, own: seq<Call>, announced: bool)
    requires Traced(b, own, announced) && v.status == b.Current().status
    ensures Traced(b.(history := b.history + [v]), own, announced)
  {
    var c := b.(history := b.history + [v]);
    forall i | c.lastWrite <= i < |c.history| ensures UpToDate(c, i) {
      assert i < |b.history| ==> UpToDate(b, i);
    }
  }

  /** A status write that lands. */
  lemma LandedTraced(b: Schedule, own: seq<Call>, role: Role, p: Phase, announced: bool)
    requires Traced(b, own, announced) && p.BackupSaving? && PhaseTraced(b, own, role, p, announced)
    ensures Traced(LandedOn(b, p), own, announced)
    ensures HasSnap(AfterSaving(p.snap, p.next)) ==>
              PhaseTraced(LandedOn(b, p), own, role, AfterSaving(p.snap, p.next), announced)
  {
    var c := LandedOn(b, p);
    assert UpToDate(c, |b.history|);
  }

  /** A status write that is refused, for now or for good. */
  lemma RefusedTraced(b: Schedule, own: seq<Call>, role: Role, p: Phase, announced: bool)
    requires Traced(b, own, announced) && p.BackupSaving? && PhaseTraced(b, own, role, p, announced)
    ensures PhaseTraced(b, own, role, Retrying(p, p.attempt + 1, None), announced)
    ensures HasSnap(AfterSaving(p.snap, p.next)) && !(announced && Announcing(p)) ==>
              PhaseTraced(b, own, role, AfterSaving(p.snap, p.next), announced)
  {
  }

  /** One document, reported or not, the last one or not. */
  lemma AppliedTraced(b: Schedule, own: seq<Call>, p: Phase, call: Call, reported: bool, announced: bool)
    requires Traced(b, own, announced) && p.BackupApplying?
    requires PhaseTraced(b, own, BackupReconciler, p, announced)
    ensures var c, q := AppliedOn(b, p, call, reported), AppliedBackupPhase(p, call, reported);
            Traced(c, own + [call], announced) && PhaseTraced(c, own + [call], BackupReconciler, q, announced)
  {
    var c := AppliedOn(b, p, call, reported);
    EndsLonger(own, p.made, call);
    EndIsARow(own + [call], p.made + [call]);
    forall i | 0 <= i < |c.installed| ensures InARow(own + [call], c.installed[i].calls) {
      if i < |b.installed| {
        StaysInARow(own, b.installed[i].calls, call);
      }
    }
    forall i | c.lastWrite <= i < |c.history| ensures UpToDate(c, i) {
      assert UpToDate(b, i);
    }
  }

  /** A step of a worker's phase alone. */
  lemma PhaseStaysTraced(s: State, e: Event, b: Schedule, own: seq<Call>, announced: bool)
    requires Enabled(s, e) && PhaseOnly(e) && Fresh(s, e, announced) && Traced(b, own, announced)
    requires e.ReadBackup? ==> b == s.schedules[s.workers[e.w].key]
    requires HasSnap(s.workers[e.w].phase) ==>
               && SnapSound(b, s.workers[e.w].role, s.workers[e.w].phase)
               && PhaseTraced(b, own, s.workers[e.w].role, s.workers[e.w].phase, announced)
    ensures HasSnap(NextPhase(s, e)) ==> PhaseTraced(b, own, s.workers[e.w].role, NextPhase(s, e), announced)
  {
    if e.ReadBackup? {
      assert UpToDate(b, e.version);
    }
  }

  // ----- all schedules and workers -----

  ghost predicate ScheduleTraced(s: State, k: Request, announced: bool)
    requires k in s.schedules
  {
    Traced(s.schedules[k], CallsOf(s.landings, k, false), announced)
  }

  predicate WorkerTraced(s: State, v: nat, announced: bool)
    requires v < |s.workers|
  {
    var worker := s.workers[v];
    HasSnap(worker.phase) && worker.key in s.schedules ==>
      && s.schedules[worker.key].history != []
      && PhaseTraced(s.schedules[worker.key], CallsOf(s.landings, worker.key, false), worker.role, worker.phase,
                     announced)
  }

  ghost predicate AllTraced(s: State, announced: bool) {
    && (forall k :: k in s.schedules ==> ScheduleTraced(s, k, announced))
    && (forall v :: 0 <= v < |s.workers| ==> WorkerTraced(s, v, announced))
  }

  /** For this request nothing has changed. */
  predicate SameFor(s: State, t: State, k: Request) {
    && (k in t.schedules <==> k in s.schedules) && (k in s.schedules ==> t.schedules[k] == s.schedules[k])
    && CallsOf(t.landings, k, false) == CallsOf(s.landings, k, false)
  }

  /** A step of worker `w` that leaves all other requests alone. */
  lemma OwnTraced(s: State, t: State, w: nat, announced: bool)
    requires AllTraced(s, announced) && MovesOnly(s, t, w) && s.workers[w].Inside() && Alone(s.workers, w)
    requires forall k :: k != s.workers[w].key ==> SameFor(s, t, k)
    requires s.workers[w].key in t.schedules ==> ScheduleTraced(t, s.workers[w].key, announced)
    requires WorkerTraced(t, w, announced)
    ensures AllTraced(t, announced)
  {
    forall k | k in t.schedules ensures ScheduleTraced(t, k, announced) {
      if k != s.workers[w].key {
        assert SameFor(s, t, k) && ScheduleTraced(s, k, announced);
      }
    }
    forall v | 0 <= v < |t.workers| ensures WorkerTraced(t, v, announced) {
      assert WorkerTraced(s, v, announced);
      if v != w && HasSnap(s.workers[v].phase) {
        assert SameFor(s, t, s.workers[v].key);
      }
    }
  }

  /** A step of worker `w` on its own schedule, given by its result. */
  lemma ResultTraced(s: State, t: State, w: nat, b: Schedule, p: Phase, announced: bool)
    requires AllTraced(s, announced) && w < |s.workers| && s.workers[w].Inside() && Alone(s.workers, w)
    requires s.workers[w].key in s.schedules && t.schedules == s.schedules[s.workers[w].key := b]
    requires t.workers == s.workers[w := s.workers[w].(phase := p)]
    requires forall k :: k != s.workers[w].key ==> CallsOf(t.landings, k, false) == CallsOf(s.landings, k, false)
    requires var own := CallsOf(t.landings, s.workers[w].key, false);
             && Traced(b, own, announced) && b.history != []
             && (HasSnap(p) ==> PhaseTraced(b, own, s.workers[w].role, p, announced))
    ensures AllTraced(t, announced)
  {
    forall k | k != s.workers[w].key ensures SameFor(s, t, k) {
    }
    OwnTraced(s, t, w, announced);
  }

  /** A step of worker `w` that leaves all schedules and their calls alone. */
  lemma MovedTraced(s: State, t: State, w: nat, announced: bool)
    requires AllTraced(s, announced) && MovesOnly(s, t, w) && s.workers[w].Inside() && Alone(s.workers, w)
    requires t.schedules == s.schedules && forall k :: CallsOf(t.landings, k, false) == CallsOf(s.landings, k, false)
    requires HasSnap(t.workers[w].phase) && s.workers[w].key in s.schedules ==> WorkerTraced(t, w, announced)
    ensures AllTraced(t, announced)
  {
    if s.workers[w].key in s.schedules {
      assert ScheduleTraced(s, s.workers[w].key, announced);
    }
    OwnTraced(s, t, w, announced);
  }

  // ----- steps of the machine -----

  /** The worker inside, after a step of its phase alone. */
  lemma OwnPhase(s: State, e: Event, announced: bool)
    requires AllTraced(s, announced) && Enabled(s, e) && PhaseOnly(e) && Fresh(s, e, announced)
    requires WorkerSound(s.schedules, s.workers[e.w]) && s.workers[e.w].key in s.schedules
    ensures var k, own := s.workers[e.w].key, CallsOf(s.landings, s.workers[e.w].key, false);
            && s.schedules[k].history != []
            && (HasSnap(NextPhase(s, e)) ==>
                  PhaseTraced(s.schedules[k], own, s.workers[e.w].role, NextPhase(s, e), announced))
  {
    var k := s.workers[e.w].key;
    assert ScheduleTraced(s, k, announced) && WorkerTraced(s, e.w, announced);
    PhaseStaysTraced(s, e, s.schedules[k], CallsOf(s.landings, k, false), announced);
  }

  lemma PhaseTraces(s: State, e: Event, announced: bool)
    requires AllTraced(s, announced) && Enabled(s, e) && PhaseOnly(e) && Fresh(s, e, announced)
    requires s.workers[e.w].Inside() && Alone(s.workers, e.w) && WorkerSound(s.schedules, s.workers[e.w])
    ensures AllTraced(Next(s, e), announced)
  {
    if s.workers[e.w].key in s.schedules {
      OwnPhase(s, e, announced);
    }
    PhaseStep(s, e);
    MovedTraced(s, Next(s, e), e.w, announced);
  }

  lemma PhaseStep(s: State, e: Event)
    requires Enabled(s, e) && PhaseOnly(e)
    ensures var t := Next(s, e);
            && t.schedules == s.schedules && t.landings == s.landings
            && t.workers == s.workers[e.w := s.workers[e.w].(phase := NextPhase(s, e))]
  {
  }

  lemma RenderTraces(s: State, w: nat, docs: Option<seq<Document>>, announced: bool)
    requires w < |s.workers| && (s.workers[w].phase.ActionRendering? || s.workers[w].phase.BackupRendering?)
    requires AllTraced(s, announced) && Alone(s.workers, w)
    ensures AllTraced(NextRender(s, w, docs), announced)
  {
    RenderMoves(s, w, docs);
    RenderPhase(s, w, docs);
    assert WorkerTraced(s, w, announced);
    MovedTraced(s, NextRender(s, w, docs), w, announced);
  }

  /** A document of an action is no call of any scheduled backup. */
  lemma ApplyActionTraces(s: State, w: nat, api: Answers, acknowledged: bool, announced: bool)
    requires w < |s.workers| && s.workers[w].phase.ActionApplying? && s.workers[w].phase.i < |s.workers[w].phase.docs|
    requires AllTraced(s, announced) && Alone(s.workers, w)
    ensures AllTraced(NextApply(s, w, api, acknowledged), announced)
  {
    ApplyMoves(s, w, api, acknowledged);
    ApplyStore(s, w, api, acknowledged);
    ApplyHistories(s, w, api, acknowledged);
    OneMoreLanding(s.landings, NextLanding(s, w, api, acknowledged));
    MovedTraced(s, NextApply(s, w, api, acknowledged), w, announced);
  }

  /** A document of a scheduled backup, as it changes the calls of each. */
  lemma BackupCalls(s: State, w: nat, api: Answers, acknowledged: bool)
    requires w < |s.workers| && s.workers[w].phase.BackupApplying? && s.workers[w].phase.i < |s.workers[w].phase.docs|
    ensures var t, key, p := NextApply(s, w, api, acknowledged), s.workers[w].key, s.workers[w].phase;
            var call := CallFor(p.docs[p.i], key.namespace, api.suffix, s.nextId, acknowledged);
            var landed := CallSucceeds(s.objects, p.docs[p.i], key.namespace, api);
            && CallsOf(t.landings, key, false) == CallsOf(s.landings, key, false) + (if landed then [call] else [])
            && forall k :: k != key ==> CallsOf(t.landings, k, false) == CallsOf(s.landings, k, false)
  {
    BackupWrites(s, w, api, acknowledged);
    OneMoreLanding(s.landings, NextLanding(s, w, api, acknowledged));
  }

  lemma ApplyTraces(s: State, w: nat, api: Answers, acknowledged: bool, announced: bool)
    requires w < |s.workers| && s.workers[w].phase.BackupApplying? && s.workers[w].phase.i < |s.workers[w].phase.docs|
    requires AllTraced(s, announced) && Alone(s.workers, w) && WorkerSound(s.schedules, s.workers[w])
    ensures AllTraced(NextApply(s, w, api, acknowledged), announced)
  {
    var t, key, p := NextApply(s, w, api, acknowledged), s.workers[w].key, s.workers[w].phase;
    var call := CallFor(p.docs[p.i], key.namespace, api.suffix, s.nextId, acknowledged);
    assert WorkerTraced(s, w, announced) && ScheduleTraced(s, key, announced);
    if CallSucceeds(s.objects, p.docs[p.i], key.namespace, api) {
      AppliedTraced(s.schedules[key], CallsOf(s.landings, key, false), p, call, acknowledged, announced);
    }
    BackupCalls(s, w, api, acknowledged);
    ApplyBackupShape(s, w, api, acknowledged);
    var ok := CallSucceeds(s.objects, p.docs[p.i], key.namespace, api) && acknowledged;
    ResultTraced(s, t, w, AppliedOn(s.schedules[key], p, call, ok), AppliedBackupPhase(p, call, ok), announced);
  }

  lemma SaveLandsTraces(s: State, w: nat, announced: bool)
    requires w < |s.workers| && s.workers[w].phase.BackupSaving? && Version(s, w, s.workers[w].phase.got)
    requires AllTraced(s, announced) && Alone(s.workers, w) && s.workers[w].key in s.schedules
    ensures AllTraced(NextSave(s, w), announced)
  {
    var key, p := s.workers[w].key, s.workers[w].phase;
    assert WorkerTraced(s, w, announced) && ScheduleTraced(s, key, announced);
    LandedTraced(s.schedules[key], CallsOf(s.landings, key, false), s.workers[w].role, p, announced);
    SaveBackupShape(s, w);
    SilentBackupSave(s, w);
    ResultTraced(s, NextSave(s, w), w, LandedOn(s.schedules[key], p), AfterSaving(p.snap, p.next), announced);
  }

  lemma SaveRefusedTraces(s: State, w: nat, announced: bool)
    requires w < |s.workers| && s.workers[w].phase.BackupSaving? && !Version(s, w, s.workers[w].phase.got)
    requires announced && Announcing(s.workers[w].phase) ==> s.workers[w].phase.attempt + 1 < MAX_ATTEMPTS
    requires AllTraced(s, announced) && Alone(s.workers, w) && s.workers[w].key in s.schedules
    ensures AllTraced(NextSave(s, w), announced)
  {
    var key, p := s.workers[w].key, s.workers[w].phase;
    assert WorkerTraced(s, w, announced) && ScheduleTraced(s, key, announced);
    RefusedTraced(s.schedules[key], CallsOf(s.landings, key, false), s.workers[w].role, p, announced);
    SaveBackupShape(s, w);
    SilentBackupSave(s, w);
    MovedTraced(s, NextSave(s, w), w, announced);
  }

  lemma SaveTraces(s: State, e: Event, announced: bool)
    requires Enabled(s, e) && e.SaveUpdate? && s.workers[e.w].phase.BackupSaving? && Fresh(s, e, announced)
    requires AllTraced(s, announced) && Alone(s.workers, e.w) && WorkerSound(s.schedules, s.workers[e.w])
    ensures AllTraced(NextSave(s, e.w), announced)
  {
    if Version(s, e.w, s.workers[e.w].phase.got) {
      SaveLandsTraces(s, e.w, announced);
    } else {
      SaveRefusedTraces(s, e.w, announced);
    }
  }

  lemma SaveActionTraces(s: State, w: nat, announced: bool)
    requires w < |s.workers| && s.workers[w].phase.ActionSaving? && AllTraced(s, announced) && Alone(s.workers, w)
    ensures AllTraced(NextSave(s, w), announced)
  {
    SaveMoves(s, w);
    SilentActionSave(s, w);
    ActionSaveKeepsSchedules(s, w);
    MovedTraced(s, NextSave(s, w), w, announced);
  }

  lemma ExamineOrDoneTraces(s: State, e: Event, announced: bool)
    requires Enabled(s, e) && (e.Examine? || e.Done?) && !Restarts(s, e) && AllTraced(s, announced)
    requires Alone(s.workers, e.w)
    ensures AllTraced(Next(s, e), announced)
  {
    WorkerStepShape(s, e);
    assert WorkerTraced(s, e.w, announced);
    MovedTraced(s, Next(s, e), e.w, announced);
  }

  lemma ObtainTraces(s: State, e: Event, announced: bool)
    requires Enabled(s, e) && e.Obtain? && AllTraced(s, announced)
    ensures AllTraced(Next(s, e), announced)
  {
    var t := Next(s, e);
    forall k | k in t.schedules ensures ScheduleTraced(t, k, announced) {
      assert ScheduleTraced(s, k, announced);
    }
    forall v | 0 <= v < |t.workers| ensures WorkerTraced(t, v, announced) {
      assert WorkerTraced(s, v, announced);
    }
  }

  lemma RestartTraces(s: State, e: Event, announced: bool)
    requires Enabled(s, e) && Restarts(s, e) && AllTraced(s, announced)
    ensures AllTraced(Next(s, e), announced)
  {
    assert Next(s, e) == Restarted(s);
    forall k | k in s.schedules ensures ScheduleTraced(Next(s, e), k, announced) {
      assert ScheduleTraced(s, k, announced);
    }
  }

  /** A version added by a user's hand. */
  lemma EditTraces(s: State, t: State, k: Request, v: BackupVersion, announced: bool)
    requires AllTraced(s, announced) && k in s.schedules && s.schedules[k].history != []
    requires v.status == s.schedules[k].Current().status && t.workers == s.workers && t.landings == s.landings
    requires t.schedules == s.schedules[k := s.schedules[k].(history := s.schedules[k].history + [v])]
    ensures AllTraced(t, announced)
  {
    forall x | x in t.schedules ensures ScheduleTraced(t, x, announced) {
      assert ScheduleTraced(s, x, announced);
      if x == k {
        EditTraced(s.schedules[k], v, CallsOf(s.landings, k, false), announced);
      }
    }
    forall x | 0 <= x < |t.workers| ensures WorkerTraced(t, x, announced) {
      assert WorkerTraced(s, x, announced);
      if HasSnap(s.workers[x].phase) && s.workers[x].key == k {
        EditKeepsPhase(s.schedules[k], v, CallsOf(s.landings, k, false), s.workers[x].role, s.workers[x].phase,
                       announced);
      }
    }
  }

  lemma EditKeepsPhase(b: Schedule, v: BackupVersion, own: seq<Call>, role: Role, p: Phase, announced: bool)
    requires HasSnap(p) && b.history != [] && v.status == b.Current().status && PhaseTraced(b, own, role, p, announced)
    ensures PhaseTraced(b.(history := b.history + [v]), own, role, p, announced)
  {
  }

  /** Nothing that matters here has changed. */
  lemma UntouchedTraces(s: State, t: State, announced: bool)
    requires AllTraced(s, announced) && t.workers == s.workers && t.landings == s.landings
    requires t.schedules == s.schedules
    ensures AllTraced(t, announced)
  {
    forall k | k in t.schedules ensures ScheduleTraced(t, k, announced) {
      assert ScheduleTraced(s, k, announced);
    }
    forall v | 0 <= v < |t.workers| ensures WorkerTraced(t, v, announced) {
      assert WorkerTraced(s, v, announced);
    }
  }

  lemma EnvironmentTraces(s: State, e: Event, announced: bool)
    requires Enabled(s, e) && !IsWorkerEvent(e) && !e.Crash? && AllTraced(s, announced)
    ensures AllTraced(Next(s, e), announced)
  {
    EnvironmentStepShape(s, e);
    EnvironmentShape(s, e);
    SilentEnvironment(s, e);
    if e.EditSpec? || e.TouchBackup? {
      EditTraces(s, Next(s, e), e.key, Edited(s.schedules[e.key], e), announced);
    } else {
      UntouchedTraces(s, Next(s, e), announced);
    }
  }

  lemma WorkerTraces(s: State, e: Event, announced: bool)
    requires LockInv(s) && BackupInv(s) && AllTraced(s, announced) && Enabled(s, e) && Fresh(s, e, announced)
    requires IsWorkerEvent(e) && !e.Obtain? && !Restarts(s, e)
    ensures AllTraced(Next(s, e), announced)
  {
    var worker := s.workers[e.w];
    assert worker in s.workers;
    InsideAlone(s, e.w);
    if e.Render? {
      RenderTraces(s, e.w, e.docs, announced);
    } else if e.ApplyDoc? {
      if worker.phase.BackupApplying? {
        ApplyTraces(s, e.w, e.api, e.acknowledged, announced);
      } else {
        ApplyActionTraces(s, e.w, e.api, e.acknowledged, announced);
      }
    } else if e.SaveUpdate? {
      if worker.phase.BackupSaving? {
        SaveTraces(s, e, announced);
      } else {
        SaveActionTraces(s, e.w, announced);
      }
    } else if PhaseOnly(e) {
      PhaseTraces(s, e, announced);
    } else {
      ExamineOrDoneTraces(s, e, announced);
    }
  }

  lemma StepTraces(s: State, e: Event, announced: bool)
    requires LockInv(s) && BackupInv(s) && AllTraced(s, announced) && Enabled(s, e) && Fresh(s, e, announced)
    ensures AllTraced(Next(s, e), announced)
  {
    if Restarts(s, e) {
      RestartTraces(s, e, announced);
    } else if e.Obtain? {
      ObtainTraces(s, e, announced);
    } else if IsWorkerEvent(e) {
      WorkerTraces(s, e, announced);
    } else {
      EnvironmentTraces(s, e, announced);
    }
  }

  lemma {:induction false} RunTraces(s: State, events: seq<Event>, announced: bool)
    requires LockInv(s) && BackupInv(s) && AllTraced(s, announced) && Legal(s, events)
    requires AllFresh(s, events, announced)
    ensures AllTraced(Exec(s, events), announced)
    decreases |events|
  {
    if events != [] {
      StepKeepsLocks(s, events[0]);
      StepKeepsBackups(s, events[0]);
      StepTraces(s, events[0], announced);
      RunTraces(Next(s, events[0]), events[1..], announced);
    }
  }

  lemma InitTraced(s: State, announced: bool)
    requires Init(s)
    ensures LockInv(s) && BackupInv(s) && AllTraced(s, announced)
  {
    InitHasLockInv(s);
    assert forall v :: 0 <= v < |s.workers| ==> s.workers[v] in s.workers;
  }
}
