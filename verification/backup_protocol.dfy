/** ScheduledBackups in every run, however stale the cache and whatever is lost: what a recorded hash means. */
module BackupProtocol {
  import opened Wrappers
  import opened Locking
  import opened References
  import opened Cluster
  import opened ControlPlane
  import opened LockProtocol
  import opened StoreProtocol
  import opened ActionProtocol

  predicate HasSnap(p: Phase) {
    p.BackupRead? || p.BackupRendering? || p.BackupApplying? || p.BackupExamining? || p.BackupSaving?
  }

  /** The reconciler has applied everything and is about to record the hash. */
  predicate StoringHash(p: Phase) {
    p.BackupSaving? && p.change == Mark(True)
  }

  /** A recorded hash is that of a snapshot all of whose objects were applied. */
  predicate Justified(hash: SpecHash, applies: seq<BackupVersion>) {
    hash == NeverApplied || exists a :: a in applies && hash == HashOf(a.spec)
  }

  predicate VersionSound(v: BackupVersion, applies: seq<BackupVersion>) {
    && v.status.ownedReferences == [] && v.status.childrenHealth == []
    && Justified(v.status.lastAppliedSpecHash, applies)
  }

  predicate ScheduleSound(b: Schedule) {
    b.history != [] && forall v :: v in b.history ==> VersionSound(v, b.applies)
  }

  /** A worker's snapshot is some version the server once held, and its phase fits its role. */
  predicate SnapSound(b: Schedule, role: Role, p: Phase)
    requires HasSnap(p)
  {
    && p.snap in b.history
    && match p
       case BackupRead(_) => role.BackupReconciler? || role.BackupObserver?
       case BackupExamining(_, readings) => role.BackupObserver? && readings == []
       case BackupSaving(snap, Mark(outcome), _, _, _) =>
         role.BackupReconciler? && (outcome == True ==> snap in b.applies)
       case BackupSaving(_, Publish(entries, healthy), next, _, _) =>
         role.BackupObserver? && entries == [] && healthy && next == ThenLeave
       case _ => role.BackupReconciler?
  }

  predicate WorkerSound(schedules: map<Request, Schedule>, worker: Worker) {
    HasSnap(worker.phase) ==>
      worker.key in schedules && SnapSound(schedules[worker.key], worker.role, worker.phase)
  }

  ghost predicate BackupInv(s: State) {
    && (forall k :: k in s.schedules ==> ScheduleSound(s.schedules[k]))
    && (forall w :: w in s.workers ==> WorkerSound(s.schedules, w))
  }

  /** Versions and complete applications are only ever added. */
  predicate Grows(b: Schedule, c: Schedule) {
    b.history <= c.history && b.applies <= c.applies
  }

  ghost predicate AllGrow(s: State, t: State) {
    t.schedules.Keys == s.schedules.Keys && forall k :: k in s.schedules ==> Grows(s.schedules[k], t.schedules[k])
  }

  lemma PrefixMember<T>(a: seq<T>, b: seq<T>, x: T)
    requires a <= b && x in a
    ensures x in b
  {
    var i :| 0 <= i < |a| && a[i] == x;
    assert b[i] == x;
  }

  lemma StaysSound(b: Schedule, c: Schedule, role: Role, p: Phase)
    requires Grows(b, c) && HasSnap(p) && SnapSound(b, role, p)
    ensures SnapSound(c, role, p)
  {
    PrefixMember(b.history, c.history, p.snap);
    if p.snap in b.applies {
      PrefixMember(b.applies, c.applies, p.snap);
    }
  }

  lemma StaysJustified(hash: SpecHash, applies: seq<BackupVersion>, more: seq<BackupVersion>)
    requires Justified(hash, applies) && applies <= more
    ensures Justified(hash, more)
  {
    if hash != NeverApplied {
      var a :| a in applies && hash == HashOf(a.spec);
      PrefixMember(applies, more, a);
    }
  }

  /** A step that rewrites one worker keeps all others sound. */
  lemma OneMoves(s: State, t: State, w: nat)
    requires BackupInv(s) && AllGrow(s, t) && MovesOnly(s, t, w)
    requires WorkerSound(t.schedules, t.workers[w])
    requires forall k :: k in t.schedules ==> ScheduleSound(t.schedules[k])
    ensures BackupInv(t)
  {
    forall x | x in t.workers ensures WorkerSound(t.schedules, x) {
      var v :| 0 <= v < |t.workers| && t.workers[v] == x;
      if v != w {
        assert s.workers[v] in s.workers;
        if HasSnap(x.phase) {
          StaysSound(s.schedules[x.key], t.schedules[x.key], x.role, x.phase);
        }
      }
    }
  }

  /** One more version, sound by itself. */
  lemma AppendSound(b: Schedule, v: BackupVersion, lastWrite: nat, records: seq<Record>)
    requires ScheduleSound(b) && VersionSound(v, b.applies)
    ensures ScheduleSound(b.(history := b.history + [v], lastWrite := lastWrite, records := records))
  {
  }

  lemma CompleteSound(b: Schedule, snap: BackupVersion, pass: Installation)
    requires ScheduleSound(b)
    ensures ScheduleSound(b.(applies := b.applies + [snap], installed := b.installed + [pass]))
  {
    forall v | v in b.history ensures VersionSound(v, b.applies + [snap]) {
      StaysJustified(v.status.lastAppliedSpecHash, b.applies, b.applies + [snap]);
    }
  }

  /** Whatever is saved, by reconciler or observer, from whatever snapshot, records a justified hash. */
  lemma SavedSound(b: Schedule, role: Role, p: Phase)
    requires ScheduleSound(b) && p.BackupSaving? && SnapSound(b, role, p)
    ensures VersionSound(b.Current().(status := SavedBackup(p.snap, p.change, b.Current())), b.applies)
  {
    assert b.Current() in b.history && VersionSound(p.snap, b.applies);
  }

  /** The worker after a step that concerns its phase only. */
  lemma PhaseStaysSound(s: State, e: Event)
    requires Enabled(s, e) && PhaseOnly(e) && WorkerSound(s.schedules, s.workers[e.w])
    requires s.workers[e.w].key in s.schedules ==> ScheduleSound(s.schedules[s.workers[e.w].key])
    ensures WorkerSound(s.schedules, s.workers[e.w].(phase := NextPhase(s, e)))
  {
    var worker := s.workers[e.w];
    if HasSnap(worker.phase) {
      assert VersionSound(worker.phase.snap, s.schedules[worker.key].applies);
    }
  }

  lemma PhaseSound(s: State, e: Event)
    requires BackupInv(s) && Enabled(s, e) && PhaseOnly(e)
    ensures BackupInv(Next(s, e))
  {
    assert s.workers[e.w] in s.workers;
    PhaseStaysSound(s, e);
    OneMoves(s, Move(s, e.w, NextPhase(s, e)), e.w);
  }

  lemma RenderSound(s: State, e: Event)
    requires BackupInv(s) && Enabled(s, e) && e.Render?
    ensures BackupInv(Next(s, e))
  {
    RenderMoves(s, e.w, e.docs);
    assert s.workers[e.w] in s.workers;
    OneMoves(s, NextRender(s, e.w, e.docs), e.w);
  }

  /** A step of worker `w` given by its result: its schedule `b` and its phase `p`. */
  lemma OwnSchedule(s: State, w: nat, b: Schedule, p: Phase)
    requires BackupInv(s) && w < |s.workers| && s.workers[w].key in s.schedules
    requires ScheduleSound(b) && Grows(s.schedules[s.workers[w].key], b)
    requires HasSnap(p) ==> SnapSound(b, s.workers[w].role, p)
    ensures forall t: State ::
              t.schedules == s.schedules[s.workers[w].key := b]
              && t.workers == s.workers[w := s.workers[w].(phase := p)]
              ==> BackupInv(t)
  {
    var t := s.(schedules := s.schedules[s.workers[w].key := b], workers := s.workers[w := s.workers[w].(phase := p)]);
    OneMoves(s, t, w);
  }

  lemma ApplyBackupShape(s: State, w: nat, api: Answers, acknowledged: bool)
    requires w < |s.workers| && s.workers[w].phase.BackupApplying? && s.workers[w].key in s.schedules
    requires s.workers[w].phase.i < |s.workers[w].phase.docs|
    ensures var t := NextApply(s, w, api, acknowledged);
            var key, p := s.workers[w].key, s.workers[w].phase;
            var call := CallFor(p.docs[p.i], key.namespace, api.suffix, s.nextId, acknowledged);
            var ok := CallSucceeds(s.objects, p.docs[p.i], key.namespace, api) && acknowledged;
            && t.schedules == s.schedules[key := AppliedOn(s.schedules[key], p, call, ok)]
            && t.workers == s.workers[w := s.workers[w].(phase := AppliedBackupPhase(p, call, ok))]
  {
  }

  lemma ApplyBackupSound(s: State, w: nat, api: Answers, acknowledged: bool)
    requires BackupInv(s) && w < |s.workers| && s.workers[w].phase.BackupApplying?
    requires s.workers[w].phase.i < |s.workers[w].phase.docs|
    ensures BackupInv(NextApply(s, w, api, acknowledged))
  {
    var worker := s.workers[w];
    assert worker in s.workers && WorkerSound(s.schedules, worker);
    var b, p := s.schedules[worker.key], worker.phase;
    var ok := CallSucceeds(s.objects, p.docs[p.i], worker.key.namespace, api) && acknowledged;
    var call := CallFor(p.docs[p.i], worker.key.namespace, api.suffix, s.nextId, acknowledged);
    CompleteSound(b, p.snap, Installation(p.docs, p.made + [call]));
    ApplyBackupShape(s, w, api, acknowledged);
    OwnSchedule(s, w, AppliedOn(b, p, call, ok), AppliedBackupPhase(p, call, ok));
  }

  /** Steps that concern actions only. */
  lemma SchedulesUntouched(s: State, t: State, w: nat)
    requires BackupInv(s) && t.schedules == s.schedules && MovesOnly(s, t, w) && !HasSnap(t.workers[w].phase)
    ensures BackupInv(t)
  {
    OneMoves(s, t, w);
  }

  lemma SaveBackupShape(s: State, w: nat)
    requires w < |s.workers| && s.workers[w].phase.BackupSaving? && s.workers[w].key in s.schedules
    ensures var t := NextSave(s, w);
            var key, p := s.workers[w].key, s.workers[w].phase;
            if Version(s, w, p.got) then
              t.schedules == s.schedules[key := LandedOn(s.schedules[key], p)]
              && t.workers == s.workers[w := s.workers[w].(phase := AfterSaving(p.snap, p.next))]
            else
              t.schedules == s.schedules
              && t.workers == s.workers[w := s.workers[w].(phase :=
                   if p.attempt + 1 < MAX_ATTEMPTS then Retrying(p, p.attempt + 1, None)
                   else AfterSaving(p.snap, p.next))]
  {
  }

  lemma LandedSound(b: Schedule, role: Role, p: Phase)
    requires ScheduleSound(b) && p.BackupSaving? && SnapSound(b, role, p)
    ensures ScheduleSound(LandedOn(b, p)) && Grows(b, LandedOn(b, p))
    ensures HasSnap(AfterSaving(p.snap, p.next)) ==> SnapSound(LandedOn(b, p), role, AfterSaving(p.snap, p.next))
  {
    SavedSound(b, role, p);
    AppendSound(b, b.Current().(status := SavedBackup(p.snap, p.change, b.Current())), |b.history|,
                LandedOn(b, p).records);
    PrefixMember(b.history, LandedOn(b, p).history, p.snap);
  }

  lemma SaveBackupSound(s: State, w: nat)
    requires BackupInv(s) && w < |s.workers| && s.workers[w].phase.BackupSaving?
    ensures BackupInv(NextSave(s, w))
  {
    var worker := s.workers[w];
    assert worker in s.workers && WorkerSound(s.schedules, worker);
    var b, p := s.schedules[worker.key], worker.phase;
    SaveBackupShape(s, w);
    if Version(s, w, p.got) {
      LandedSound(b, worker.role, p);
      OwnSchedule(s, w, LandedOn(b, p), AfterSaving(p.snap, p.next));
    } else {
      assert s.schedules[worker.key := b] == s.schedules;
      OwnSchedule(s, w, b, if p.attempt + 1 < MAX_ATTEMPTS then Retrying(p, p.attempt + 1, None)
                           else AfterSaving(p.snap, p.next));
    }
  }

  lemma EnvironmentSound(s: State, e: Event)
    requires BackupInv(s) && Enabled(s, e) && !IsWorkerEvent(e) && !e.Crash?
    ensures BackupInv(Next(s, e))
  {
    EnvironmentStepShape(s, e);
    var t := Next(s, e);
    if e.EditSpec? || e.TouchBackup? {
      var b := s.schedules[e.key];
      assert b.Current() in b.history;
      AppendSound(b, t.schedules[e.key].Current(), b.lastWrite, b.records);
    }
    forall x | x in t.workers && HasSnap(x.phase) ensures WorkerSound(t.schedules, x) {
      assert x in s.workers && WorkerSound(s.schedules, x);
      StaysSound(s.schedules[x.key], t.schedules[x.key], x.role, x.phase);
    }
  }

  lemma ApplySound(s: State, e: Event)
    requires BackupInv(s) && Enabled(s, e) && e.ApplyDoc?
    ensures BackupInv(Next(s, e))
  {
    if s.workers[e.w].phase.BackupApplying? {
      ApplyBackupSound(s, e.w, e.api, e.acknowledged);
    } else {
      ApplyMoves(s, e.w, e.api, e.acknowledged);
      SchedulesUntouched(s, NextApply(s, e.w, e.api, e.acknowledged), e.w);
    }
  }

  lemma SaveSound(s: State, e: Event)
    requires BackupInv(s) && Enabled(s, e) && e.SaveUpdate?
    ensures BackupInv(Next(s, e))
  {
    if s.workers[e.w].phase.BackupSaving? {
      SaveBackupSound(s, e.w);
    } else {
      SaveMoves(s, e.w);
      SchedulesUntouched(s, NextSave(s, e.w), e.w);
    }
  }

  lemma ObtainSound(s: State, e: Event)
    requires BackupInv(s) && Enabled(s, e) && e.Obtain?
    ensures BackupInv(Next(s, e))
  {
    var t := Next(s, e);
    forall x | x in t.workers ensures WorkerSound(t.schedules, x) {
      assert x in s.workers || !HasSnap(x.phase);
    }
  }

  lemma ExamineOrDoneSound(s: State, e: Event)
    requires BackupInv(s) && Enabled(s, e) && (e.Examine? || e.Done?) && !Restarts(s, e)
    ensures BackupInv(Next(s, e))
  {
    var worker := s.workers[e.w];
    assert worker in s.workers && WorkerSound(s.schedules, worker);
    assert HasSnap(worker.phase) ==> VersionSound(worker.phase.snap, s.schedules[worker.key].applies);
    WorkerStepShape(s, e);
    OneMoves(s, Next(s, e), e.w);
  }

  lemma StepKeepsBackups(s: State, e: Event)
    requires BackupInv(s) && Enabled(s, e)
    ensures BackupInv(Next(s, e))
  {
    if Restarts(s, e) {
      assert Next(s, e) == Restarted(s);
    } else if e.Obtain? {
      ObtainSound(s, e);
    } else if e.Render? {
      RenderSound(s, e);
    } else if e.ApplyDoc? {
      ApplySound(s, e);
    } else if e.SaveUpdate? {
      SaveSound(s, e);
    } else if PhaseOnly(e) {
      PhaseSound(s, e);
    } else if IsWorkerEvent(e) {
      ExamineOrDoneSound(s, e);
    } else {
      EnvironmentSound(s, e);
    }
  }

  lemma {:induction false} RunKeepsBackups(s: State, events: seq<Event>)
    requires BackupInv(s) && Legal(s, events)
    ensures BackupInv(Exec(s, events))
    decreases |events|
  {
    if events != [] {
      StepKeepsBackups(s, events[0]);
      RunKeepsBackups(Next(s, events[0]), events[1..]);
    }
  }

  /** An unchanged look means applied once before: in every reachable state, with arbitrarily stale caches, concurrent
      edits, lost writes and restarts, a version, cached or current, looks unchanged only if at some earlier point every
      document rendered for that very spec was applied; each is in the cluster unless a later call rewrote its object.
      It need not be the spec applied last. */
  lemma UnchangedLookMeansAppliedBefore(s0: State, events: seq<Event>, k: Request, v: BackupVersion)
    requires Init(s0) && Legal(s0, events)
    requires k in Exec(s0, events).schedules && v in Exec(s0, events).schedules[k].history && !v.HasSpecChanged()
    ensures var s := Exec(s0, events);
            var b := s.schedules[k];
            exists i :: 0 <= i < |b.applies| && i < |b.installed|
                        && b.applies[i].spec == v.spec && Installed(s, k, b.installed[i])
  {
    RunKeepsBackups(s0, events);
    InstallationsAreInTheCluster(s0, events, k);
    var s := Exec(s0, events);
    var b := s.schedules[k];
    assert VersionSound(v, b.applies);
    var a :| a in b.applies && HashOf(v.spec) == HashOf(a.spec);
    var i :| 0 <= i < |b.applies| && b.applies[i] == a;
    assert Installed(s, k, b.installed[i]);
  }

  /** The references a scheduled backup's reconciler collects are never stored: every version of every run has none,
      and its observer, having nothing to look at, sends an empty report and Healthy = true in every run. */
  lemma BackupHealthIsVacuous(s0: State, events: seq<Event>, k: Request, w: nat)
    requires Init(s0) && Legal(s0, events)
    ensures var s := Exec(s0, events);
            && (k in s.schedules ==> forall v :: v in s.schedules[k].history ==>
                  v.status.ownedReferences == [] && v.status.childrenHealth == [])
            && (w < |s.workers| && s.workers[w].role.BackupObserver? && s.workers[w].phase.BackupSaving? ==>
                  s.workers[w].phase.change == Publish([], true))
  {
    RunKeepsBackups(s0, events);
    var s := Exec(s0, events);
    if k in s.schedules {
      assert forall v :: v in s.schedules[k].history ==> VersionSound(v, s.schedules[k].applies);
    }
    if w < |s.workers| {
      assert s.workers[w] in s.workers;
    }
  }

  lemma OnlyCrashRestarts(s: State, e: Event)
    requires Inv(s) && BackupInv(s) && Enabled(s, e)
    ensures Restarts(s, e) <==> e.Crash?
  {
    if IsWorkerEvent(e) {
      var worker := s.workers[e.w];
      assert worker in s.workers && WorkerSound(s.schedules, worker);
      assert HasSnap(worker.phase) ==> VersionSound(worker.phase.snap, s.schedules[worker.key].applies);
      assert WorkerOk(s.actions, s.nextId, worker);
      if e.Examine? && worker.phase.ActionExamining? {
        assert ActionOk(s.actions[worker.key], s.nextId);
        var ref := Refs(worker.phase)[|worker.phase.readings|];
        assert ref in worker.phase.base.ownedReferences;
        ReferenceRoundTrip(JOB, ref.trackingId);
      }
    }
  }

  /** Both health loops only meet references they can decode: no step but an outside crash takes the process down. */
  lemma HealthLoopNeverPanics(s0: State, events: seq<Event>, e: Event)
    requires Init(s0) && Legal(s0, events) && Enabled(Exec(s0, events), e)
    ensures Restarts(Exec(s0, events), e) <==> e.Crash?
  {
    RunKeepsBackups(s0, events);
    InitHasInv(s0);
    RunKeepsInv(s0, events);
    OnlyCrashRestarts(Exec(s0, events), e);
  }
}
