/** ScheduledBackups in runs whose cache has caught up with the last status write: no update is lost and no spec is
    applied twice. */
module BackupFreshness {
  import opened Wrappers
  import opened Locking
  import opened Rendering
  import opened Cluster
  import opened ControlPlane
  import opened LockProtocol
  import opened BackupProtocol

  // ----- which runs -----

  /** The cache shows the last status write, and the write that records a hash is not lost. Applies may fail, other
      status writes may be lost, spec edits may come at any moment and remain unseen for any time. */
  ghost predicate CaughtUp(s: State, e: Event)
    requires Enabled(s, e)
  {
    && (e.ReadBackup? ==> s.schedules[s.workers[e.w].key].lastWrite <= e.version)
    && (Restarts(s, e) ==> forall w :: w in s.workers ==> !StoringHash(w.phase))
    && (e.SaveError? ==> !StoringHash(s.workers[e.w].phase))
    && (e.SaveUpdate? && StoringHash(s.workers[e.w].phase) ==>
          Version(s, e.w, s.workers[e.w].phase.got) || s.workers[e.w].phase.attempt + 1 < MAX_ATTEMPTS)
  }

  ghost predicate AllCaughtUp(s: State, events: seq<Event>)
    requires Legal(s, events)
    decreases |events|
  {
    events == [] || (CaughtUp(s, events[0]) && AllCaughtUp(Next(s, events[0]), events[1..]))
  }

  // ----- one schedule -----

  /** Of two versions the later one has a newer spec or the same. */
  predicate InOrder(u: BackupVersion, v: BackupVersion) {
    u.generation < v.generation || (u.generation == v.generation && u.spec == v.spec)
  }

  predicate Older(u: BackupVersion, v: BackupVersion) {
    u.generation < v.generation
  }

  predicate Held(b: Schedule, v: BackupVersion) {
    v in b.history
  }

  predicate UpToDate(b: Schedule, version: nat)
    requires version < |b.history|
  {
    b.history[version].status == b.Current().status
  }

  /** The snapshot whose hash the last write up to this version recorded. */
  function RecordedBy(records: seq<Record>, version: nat): Option<BackupVersion>
    decreases |records|
  {
    if records == [] then None
    else
      var n := |records| - 1;
      if records[n].version <= version then Some(records[n].snap) else RecordedBy(records[..n], version)
  }

  function HashBy(records: seq<Record>, version: nat): SpecHash {
    var snap := RecordedBy(records, version);
    if snap.None? then NeverApplied else HashOf(snap.value.spec)
  }

  predicate Stored(b: Schedule, version: nat)
    requires version < |b.history|
  {
    b.history[version].status.lastAppliedSpecHash == HashBy(b.records, version)
  }

  /** No status write ever takes a recorded hash back: every version shows the last one recorded by then. */
  ghost predicate RecordsOk(b: Schedule) {
    && (b.records != [] ==> b.records[|b.records| - 1].version < |b.history|)
    && (forall i {:trigger Stored(b, i)} :: 0 <= i < |b.history| ==> Stored(b, i))
  }

  /** The first `n` applications were recorded, each by one write, in their order. */
  predicate Recorded(b: Schedule, n: nat) {
    |b.records| == n <= |b.applies| && forall i :: 0 <= i < n ==> b.records[i].snap == b.applies[i]
  }

  /** The generation numbers the specs in the order of their edits; only a status write changes the status. */
  ghost predicate HistoryOk(b: Schedule) {
    && b.lastWrite < |b.history|
    && 1 <= b.history[0].generation
    && (forall i, j {:trigger InOrder(b.history[i], b.history[j])} ::
          0 <= i <= j < |b.history| ==> InOrder(b.history[i], b.history[j]))
    && (forall i {:trigger UpToDate(b, i)} :: b.lastWrite <= i < |b.history| ==> UpToDate(b, i))
  }

  ghost predicate Increasing(applies: seq<BackupVersion>) {
    forall i, j {:trigger Older(applies[i], applies[j])} :: 0 <= i < j < |applies| ==> Older(applies[i], applies[j])
  }

  /** Every complete application used a strictly newer spec than the one before. */
  ghost predicate AppliesOk(b: Schedule) {
    && (forall i {:trigger Held(b, b.applies[i])} :: 0 <= i < |b.applies| ==> Held(b, b.applies[i]))
    && Increasing(b.applies)
  }

  ghost predicate Tidy(b: Schedule) {
    HistoryOk(b) && AppliesOk(b) && RecordsOk(b)
  }

  function LastApplied(b: Schedule): BackupVersion
    requires b.applies != []
  {
    b.applies[|b.applies| - 1]
  }

  /** All applications are recorded, and the hash is that of the last one, which is no newer than the record. */
  predicate Settled(b: Schedule) {
    b.lastWrite < |b.history| && Recorded(b, |b.applies|) &&
    if b.applies == [] then b.Current().status.lastAppliedSpecHash == NeverApplied
    else
      && b.Current().status.lastAppliedSpecHash == HashOf(LastApplied(b).spec)
      && InOrder(LastApplied(b), b.history[b.lastWrite])
  }

  predicate Newer(b: Schedule, snap: BackupVersion) {
    b.applies == [] || Older(LastApplied(b), snap)
  }

  /** A schedule as the worker inside for it sees it. */
  predicate Fits(b: Schedule, role: Role, p: Phase) {
    if StoringHash(p) then
      && role.BackupReconciler? && p.next == ThenLeave
      && b.applies != [] && p.snap == LastApplied(b) && Recorded(b, |b.applies| - 1)
    else
      && Settled(b)
      && (HasSnap(p) ==> if role.BackupObserver? then p.snap.status == b.Current().status else Newer(b, p.snap))
  }

  lemma RecordedAtEnd(records: seq<Record>, version: nat)
    requires records != [] ==> records[|records| - 1].version <= version
    ensures RecordedBy(records, version) == if records == [] then None else Some(records[|records| - 1].snap)
  {
  }

  lemma LaterRecord(records: seq<Record>, r: Record, version: nat)
    ensures RecordedBy(records + [r], version) ==
            if r.version <= version then Some(r.snap) else RecordedBy(records, version)
  {
    assert (records + [r])[..|records|] == records;
  }

  /** What a status write or an edit does to the list of records. */
  predicate RecordsWith(b: Schedule, v: BackupVersion, records: seq<Record>)
    requires b.history != []
  {
    || (records == b.records && v.status.lastAppliedSpecHash == b.Current().status.lastAppliedSpecHash)
    || (records != [] && records[..|records| - 1] == b.records && records[|records| - 1].version == |b.history|
        && v.status.lastAppliedSpecHash == HashOf(records[|records| - 1].snap.spec))
  }

  lemma GrownRecords(b: Schedule, v: BackupVersion, lastWrite: nat, records: seq<Record>)
    requires b.history != [] && RecordsOk(b) && RecordsWith(b, v, records)
    ensures RecordsOk(b.(history := b.history + [v], lastWrite := lastWrite, records := records))
  {
    var c := b.(history := b.history + [v], lastWrite := lastWrite, records := records);
    var n := |b.history|;
    assert Stored(b, n - 1);
    if records == b.records {
      RecordedAtEnd(records, n - 1);
      RecordedAtEnd(records, n);
    }
    forall i | 0 <= i < |c.history| ensures Stored(c, i) {
      if i < n {
        assert Stored(b, i);
        if records != b.records {
          LaterRecord(b.records, records[|records| - 1], i);
        }
      }
    }
  }

  /** One more version, either of a new generation or with the spec of the current one. */
  lemma GrownTidy(b: Schedule, v: BackupVersion, lastWrite: nat, records: seq<Record>)
    requires Tidy(b) && InOrder(b.Current(), v) && RecordsWith(b, v, records)
    requires lastWrite == |b.history| || (lastWrite == b.lastWrite && v.status == b.Current().status)
    ensures Tidy(b.(history := b.history + [v], lastWrite := lastWrite, records := records))
  {
    var c := b.(history := b.history + [v], lastWrite := lastWrite, records := records);
    GrownRecords(b, v, lastWrite, records);
    forall i, j | 0 <= i <= j < |c.history| ensures InOrder(c.history[i], c.history[j]) {
      if j < |b.history| {
        assert InOrder(b.history[i], b.history[j]);
      } else if i < j {
        assert InOrder(b.history[i], b.history[|b.history| - 1]);
      }
    }
    forall i | lastWrite <= i < |c.history| ensures UpToDate(c, i) {
      assert i < |b.history| ==> UpToDate(b, i);
    }
    forall i | 0 <= i < |c.applies| ensures Held(c, c.applies[i]) {
      assert Held(b, b.applies[i]);
    }
  }

  /** The spec is edited or metadata touched: the history grows, everything a worker relies on stays. */
  lemma EditFits(b: Schedule, v: BackupVersion, role: Role, p: Phase)
    requires Tidy(b) && v.status == b.Current().status && InOrder(b.Current(), v)
    ensures var c := b.(history := b.history + [v]);
            && Tidy(c) && (Settled(b) ==> Settled(c)) && (Fits(b, role, p) ==> Fits(c, role, p))
  {
    GrownTidy(b, v, b.lastWrite, b.records);
  }

  /** A version that looks changed to a caught-up reader is newer than everything applied. */
  lemma ChangedIsNewer(b: Schedule, version: nat)
    requires Tidy(b) && Settled(b) && b.lastWrite <= version < |b.history|
    ensures b.history[version].status == b.Current().status
    ensures b.history[version].HasSpecChanged() ==> Newer(b, b.history[version])
  {
    assert UpToDate(b, version);
    assert InOrder(b.history[b.lastWrite], b.history[version]);
  }

  lemma CompleteTidy(b: Schedule, snap: BackupVersion, pass: Installation)
    requires Tidy(b) && snap in b.history && Newer(b, snap)
    ensures Tidy(b.(applies := b.applies + [snap], installed := b.installed + [pass]))
  {
    var c := b.(applies := b.applies + [snap], installed := b.installed + [pass]);
    var n := |b.applies|;
    forall i, j | 0 <= i < j < |c.applies| ensures Older(c.applies[i], c.applies[j]) {
      if j < n {
        assert Older(b.applies[i], b.applies[j]);
      } else if i < n - 1 {
        assert Older(b.applies[i], b.applies[n - 1]);
      }
    }
    forall i | 0 <= i < |c.applies| ensures Held(c, c.applies[i]) {
      assert i < n ==> Held(b, b.applies[i]);
    }
    forall i | c.lastWrite <= i < |c.history| ensures UpToDate(c, i) {
      assert UpToDate(b, i);
    }
    forall i | 0 <= i < |c.history| ensures Stored(c, i) {
      assert Stored(b, i);
    }
  }

  lemma AppliedFits(b: Schedule, p: Phase, call: Call, ok: bool)
    requires Tidy(b) && p.BackupApplying? && p.snap in b.history && Fits(b, BackupReconciler, p)
    ensures var c := AppliedOn(b, p, call, ok);
            Tidy(c) && Fits(c, BackupReconciler, AppliedBackupPhase(p, call, ok))
  {
    CompleteTidy(b, p.snap, Installation(p.docs, p.made + [call]));
  }

  lemma LastAppliedIsKnown(b: Schedule)
    requires Tidy(b) && b.applies != []
    ensures LastApplied(b) in b.history && InOrder(LastApplied(b), b.Current())
  {
    assert Held(b, b.applies[|b.applies| - 1]);
    var i :| 0 <= i < |b.history| && b.history[i] == LastApplied(b);
    assert InOrder(b.history[i], b.history[|b.history| - 1]);
  }

  /** The schedule and the phase after a status write that lands. */
  lemma LandedFits(b: Schedule, role: Role, p: Phase)
    requires Tidy(b) && p.BackupSaving? && SnapSound(b, role, p) && Fits(b, role, p)
    ensures Tidy(LandedOn(b, p)) && Fits(LandedOn(b, p), role, AfterSaving(p.snap, p.next))
  {
    GrownTidy(b, LandedOn(b, p).Current(), |b.history|, LandedOn(b, p).records);
    if b.applies != [] {
      LastAppliedIsKnown(b);
    }
  }

  // ----- all schedules and workers -----

  predicate StoresFor(worker: Worker, k: Request) {
    worker.key == k && StoringHash(worker.phase)
  }

  ghost predicate WorkerFits(schedules: map<Request, Schedule>, worker: Worker) {
    HasSnap(worker.phase) && worker.key in schedules ==>
      Fits(schedules[worker.key], worker.role, worker.phase)
  }

  ghost predicate Everywhere(schedules: map<Request, Schedule>, workers: seq<Worker>) {
    && (forall k :: k in schedules ==> Tidy(schedules[k]))
    && (forall v :: 0 <= v < |workers| ==> WorkerFits(schedules, workers[v]))
    && (forall k :: k in schedules && (forall v :: 0 <= v < |workers| ==> !StoresFor(workers[v], k)) ==>
          Settled(schedules[k]))
  }

  ghost predicate Kept(s: State) {
    LockInv(s) && BackupInv(s) && Everywhere(s.schedules, s.workers)
  }

  /** The same, as worker `w` inside knows it. */
  ghost predicate Ours(s: State, w: nat) {
    w < |s.workers| && s.workers[w].Inside() && Alone(s.workers, w) && Everywhere(s.schedules, s.workers)
  }

  /** A worker inside sees its own schedule as it should. */
  lemma OwnFits(s: State, w: nat)
    requires Ours(s, w) && s.workers[w].key in s.schedules
    ensures Tidy(s.schedules[s.workers[w].key])
    ensures Fits(s.schedules[s.workers[w].key], s.workers[w].role, s.workers[w].phase)
  {
    assert WorkerFits(s.schedules, s.workers[w]);
    if !HasSnap(s.workers[w].phase) {
      assert forall v :: 0 <= v < |s.workers| ==> !StoresFor(s.workers[v], s.workers[w].key);
    }
  }

  /** Schedules other than that of worker `w` are what they were. */
  predicate OnlyOwn(s: State, t: State, w: nat) {
    && MovesOnly(s, t, w) && t.schedules.Keys == s.schedules.Keys
    && forall k :: k in s.schedules && k != s.workers[w].key ==> t.schedules[k] == s.schedules[k]
  }

  lemma OtherFits(s: State, t: State, w: nat, v: nat)
    requires Ours(s, w) && OnlyOwn(s, t, w) && v < |t.workers| && v != w
    ensures WorkerFits(t.schedules, t.workers[v])
  {
    assert WorkerFits(s.schedules, s.workers[v]);
  }

  lemma OtherRests(s: State, t: State, w: nat, k: Request)
    requires Ours(s, w) && OnlyOwn(s, t, w) && k in t.schedules && k != s.workers[w].key
    requires forall v :: 0 <= v < |t.workers| ==> !StoresFor(t.workers[v], k)
    ensures Settled(t.schedules[k])
  {
    forall v | 0 <= v < |s.workers| ensures !StoresFor(s.workers[v], k) {
      assert v != w ==> !StoresFor(t.workers[v], k);
    }
  }

  /** A step of worker `w` keeps everything if it keeps its own schedule in order. */
  lemma OwnKept(s: State, t: State, w: nat)
    requires Ours(s, w) && OnlyOwn(s, t, w)
    requires s.workers[w].key in t.schedules ==>
               Tidy(t.schedules[s.workers[w].key])
               && Fits(t.schedules[s.workers[w].key], t.workers[w].role, t.workers[w].phase)
    ensures Everywhere(t.schedules, t.workers)
  {
    forall v | 0 <= v < |t.workers| && v != w ensures WorkerFits(t.schedules, t.workers[v]) {
      OtherFits(s, t, w, v);
    }
    forall k | k in t.schedules && (forall v :: 0 <= v < |t.workers| ==> !StoresFor(t.workers[v], k))
      ensures Settled(t.schedules[k])
    {
      assert !StoresFor(t.workers[w], k);
      if k != s.workers[w].key {
        OtherRests(s, t, w, k);
      }
    }
  }

  lemma OwnResult(s: State, w: nat, b: Schedule, p: Phase)
    requires Ours(s, w) && s.workers[w].key in s.schedules
    requires Tidy(b) && Fits(b, s.workers[w].role, p)
    ensures Everywhere(s.schedules[s.workers[w].key := b], s.workers[w := s.workers[w].(phase := p)])
  {
    var t := s.(schedules := s.schedules[s.workers[w].key := b], workers := s.workers[w := s.workers[w].(phase := p)]);
    OwnKept(s, t, w);
  }

  /** A step that leaves all schedules alone, given what it does to its own worker. */
  lemma SameSchedules(s: State, t: State, w: nat)
    requires Ours(s, w) && MovesOnly(s, t, w) && t.schedules == s.schedules
    requires var k := s.workers[w].key;
             k in s.schedules && Tidy(s.schedules[k]) && Fits(s.schedules[k], s.workers[w].role, s.workers[w].phase) ==>
               Fits(s.schedules[k], s.workers[w].role, t.workers[w].phase)
    ensures Everywhere(t.schedules, t.workers)
  {
    if s.workers[w].key in s.schedules {
      OwnFits(s, w);
    }
    OwnKept(s, t, w);
  }

  // ----- steps of the machine -----

  lemma ReadFits(s: State, e: Event)
    requires Enabled(s, e) && e.ReadBackup? && CaughtUp(s, e) && Ours(s, e.w)
    ensures var b := s.schedules[s.workers[e.w].key];
            Tidy(b) && Fits(b, s.workers[e.w].role, NextPhase(s, e))
  {
    OwnFits(s, e.w);
    ChangedIsNewer(s.schedules[s.workers[e.w].key], e.version);
  }

  lemma PhaseFits(s: State, e: Event, b: Schedule)
    requires Enabled(s, e) && PhaseOnly(e) && !e.ReadBackup? && CaughtUp(s, e)
    requires b.lastWrite < |b.history| && Fits(b, s.workers[e.w].role, s.workers[e.w].phase)
    ensures Fits(b, s.workers[e.w].role, NextPhase(s, e))
  {
    var p := s.workers[e.w].phase;
    if StoringHash(p) {
      assert e.SaveGet?;
    }
  }

  lemma PhaseKeeps(s: State, e: Event)
    requires Enabled(s, e) && PhaseOnly(e) && CaughtUp(s, e) && Ours(s, e.w)
    ensures Everywhere(Next(s, e).schedules, Next(s, e).workers)
  {
    var t := Move(s, e.w, NextPhase(s, e));
    PhaseMoves(s, e);
    if s.workers[e.w].key in s.schedules {
      OwnFits(s, e.w);
      if e.ReadBackup? {
        ReadFits(s, e);
      } else {
        PhaseFits(s, e, s.schedules[s.workers[e.w].key]);
      }
    }
    OwnKept(s, t, e.w);
  }

  lemma RenderPhase(s: State, w: nat, docs: Option<seq<Document>>)
    requires w < |s.workers| && (s.workers[w].phase.ActionRendering? || s.workers[w].phase.BackupRendering?)
    ensures var p, q, t := s.workers[w].phase, NextRender(s, w, docs).workers[w].phase, NextRender(s, w, docs);
            && t.schedules == s.schedules && t.landings == s.landings
            && (HasSnap(q) ==>
                  && p.BackupRendering?
                  && (q == Marking(p.snap, False, ThenLeave) || (q.BackupApplying? && q.made == [])))
  {
  }

  lemma RenderKeeps(s: State, w: nat, docs: Option<seq<Document>>)
    requires Ours(s, w) && (s.workers[w].phase.ActionRendering? || s.workers[w].phase.BackupRendering?)
    ensures Everywhere(NextRender(s, w, docs).schedules, NextRender(s, w, docs).workers)
  {
    RenderMoves(s, w, docs);
    RenderPhase(s, w, docs);
    SameSchedules(s, NextRender(s, w, docs), w);
  }

  lemma ApplyKeeps(s: State, w: nat, api: Answers, acknowledged: bool)
    requires Ours(s, w) && s.workers[w].phase.BackupApplying?
    requires s.workers[w].phase.i < |s.workers[w].phase.docs| && WorkerSound(s.schedules, s.workers[w])
    ensures Everywhere(NextApply(s, w, api, acknowledged).schedules, NextApply(s, w, api, acknowledged).workers)
  {
    var worker := s.workers[w];
    var b, p := s.schedules[worker.key], worker.phase;
    var ok := CallSucceeds(s.objects, p.docs[p.i], worker.key.namespace, api) && acknowledged;
    OwnFits(s, w);
    var call := CallFor(p.docs[p.i], worker.key.namespace, api.suffix, s.nextId, acknowledged);
    AppliedFits(b, p, call, ok);
    OwnResult(s, w, AppliedOn(b, p, call, ok), AppliedBackupPhase(p, call, ok));
    ApplyBackupShape(s, w, api, acknowledged);
  }

  lemma ApplyActionKeeps(s: State, w: nat, api: Answers, acknowledged: bool)
    requires Ours(s, w) && s.workers[w].phase.ActionApplying?
    requires s.workers[w].phase.i < |s.workers[w].phase.docs|
    ensures Everywhere(NextApply(s, w, api, acknowledged).schedules, NextApply(s, w, api, acknowledged).workers)
  {
    ApplyMoves(s, w, api, acknowledged);
    SameSchedules(s, NextApply(s, w, api, acknowledged), w);
  }

  lemma SaveLandsKeeps(s: State, w: nat)
    requires Ours(s, w) && s.workers[w].phase.BackupSaving? && Version(s, w, s.workers[w].phase.got)
    requires WorkerSound(s.schedules, s.workers[w])
    ensures Everywhere(NextSave(s, w).schedules, NextSave(s, w).workers)
  {
    var worker := s.workers[w];
    var b, p := s.schedules[worker.key], worker.phase;
    OwnFits(s, w);
    LandedFits(b, worker.role, p);
    OwnResult(s, w, LandedOn(b, p), AfterSaving(p.snap, p.next));
    SaveBackupShape(s, w);
  }

  /** A refused write leaves every schedule alone. */
  lemma SaveRefusedKeeps(s: State, w: nat)
    requires Ours(s, w) && s.workers[w].phase.BackupSaving? && !Version(s, w, s.workers[w].phase.got)
    requires StoringHash(s.workers[w].phase) ==> s.workers[w].phase.attempt + 1 < MAX_ATTEMPTS
    ensures Everywhere(NextSave(s, w).schedules, NextSave(s, w).workers)
  {
    SaveMoves(s, w);
    SameSchedules(s, NextSave(s, w), w);
  }

  lemma SaveKeeps(s: State, w: nat)
    requires Ours(s, w) && s.workers[w].phase.BackupSaving? && WorkerSound(s.schedules, s.workers[w])
    requires StoringHash(s.workers[w].phase) ==>
               Version(s, w, s.workers[w].phase.got) || s.workers[w].phase.attempt + 1 < MAX_ATTEMPTS
    ensures Everywhere(NextSave(s, w).schedules, NextSave(s, w).workers)
  {
    if Version(s, w, s.workers[w].phase.got) {
      SaveLandsKeeps(s, w);
    } else {
      SaveRefusedKeeps(s, w);
    }
  }

  lemma SaveActionKeeps(s: State, w: nat)
    requires Ours(s, w) && s.workers[w].phase.ActionSaving?
    ensures Everywhere(NextSave(s, w).schedules, NextSave(s, w).workers)
  {
    SaveMoves(s, w);
    SameSchedules(s, NextSave(s, w), w);
  }

  lemma ExamineOrDoneKeeps(s: State, e: Event)
    requires Enabled(s, e) && (e.Examine? || e.Done?) && !Restarts(s, e) && Ours(s, e.w)
    ensures Everywhere(Next(s, e).schedules, Next(s, e).workers)
  {
    WorkerStepShape(s, e);
    SameSchedules(s, Next(s, e), e.w);
  }

  lemma ObtainKeeps(s: State, e: Event)
    requires Everywhere(s.schedules, s.workers) && Enabled(s, e) && e.Obtain?
    ensures Everywhere(Next(s, e).schedules, Next(s, e).workers)
  {
    var t := Next(s, e);
    forall v, k | 0 <= v < |s.workers| ensures StoresFor(t.workers[v], k) <==> StoresFor(s.workers[v], k) {
    }
    forall v | 0 <= v < |s.workers| ensures WorkerFits(t.schedules, t.workers[v]) {
      assert WorkerFits(s.schedules, s.workers[v]);
    }
  }

  lemma RestartKeeps(s: State, e: Event)
    requires Everywhere(s.schedules, s.workers) && Enabled(s, e) && Restarts(s, e) && CaughtUp(s, e)
    ensures Everywhere(Next(s, e).schedules, Next(s, e).workers)
  {
    assert Next(s, e) == Restarted(s);
    assert forall v :: 0 <= v < |s.workers| ==> s.workers[v] in s.workers;
    assert forall v, k :: 0 <= v < |s.workers| ==> !StoresFor(s.workers[v], k);
  }

  /** A new version by a user's hand. */
  lemma EditKeeps(schedules: map<Request, Schedule>, workers: seq<Worker>, k: Request, v: BackupVersion)
    requires Everywhere(schedules, workers) && k in schedules && schedules[k].history != []
    requires v.status == schedules[k].Current().status && InOrder(schedules[k].Current(), v)
    ensures Everywhere(schedules[k := schedules[k].(history := schedules[k].history + [v])], workers)
  {
    var b := schedules[k];
    var after := schedules[k := b.(history := b.history + [v])];
    EditFits(b, v, BackupReconciler, Idle);
    forall x | 0 <= x < |workers| ensures WorkerFits(after, workers[x]) {
      assert WorkerFits(schedules, workers[x]);
      EditFits(b, v, workers[x].role, workers[x].phase);
    }
  }

  /** The version an edit adds. */
  function Edited(b: Schedule, e: Event): BackupVersion
    requires b.history != [] && (e.EditSpec? || e.TouchBackup?)
  {
    if e.EditSpec? then b.Current().(spec := e.spec, generation := b.Current().generation + 1) else b.Current()
  }

  lemma EnvironmentShape(s: State, e: Event)
    requires Enabled(s, e) && !IsWorkerEvent(e) && !e.Crash?
    ensures Next(s, e).schedules ==
            if e.EditSpec? || e.TouchBackup? then
              var b := s.schedules[e.key];
              s.schedules[e.key := b.(history := b.history + [Edited(b, e)])]
            else s.schedules
  {
  }

  lemma EnvironmentKeeps(s: State, e: Event)
    requires Everywhere(s.schedules, s.workers) && Enabled(s, e) && !IsWorkerEvent(e) && !e.Crash?
    ensures Everywhere(Next(s, e).schedules, Next(s, e).workers)
  {
    EnvironmentStepShape(s, e);
    EnvironmentShape(s, e);
    if e.EditSpec? || e.TouchBackup? {
      EditKeeps(s.schedules, s.workers, e.key, Edited(s.schedules[e.key], e));
    }
  }

  lemma WorkerKeeps(s: State, e: Event)
    requires Kept(s) && Enabled(s, e) && CaughtUp(s, e) && IsWorkerEvent(e) && !e.Obtain? && !Restarts(s, e)
    ensures Everywhere(Next(s, e).schedules, Next(s, e).workers)
  {
    var worker := s.workers[e.w];
    assert worker in s.workers && WorkerSound(s.schedules, worker);
    InsideAlone(s, e.w);
    if e.Render? {
      RenderKeeps(s, e.w, e.docs);
    } else if e.ApplyDoc? {
      if worker.phase.BackupApplying? {
        ApplyKeeps(s, e.w, e.api, e.acknowledged);
      } else {
        ApplyActionKeeps(s, e.w, e.api, e.acknowledged);
      }
    } else if e.SaveUpdate? {
      if worker.phase.BackupSaving? {
        SaveKeeps(s, e.w);
      } else {
        SaveActionKeeps(s, e.w);
      }
    } else if PhaseOnly(e) {
      PhaseKeeps(s, e);
    } else {
      ExamineOrDoneKeeps(s, e);
    }
  }

  lemma StepKeeps(s: State, e: Event)
    requires Kept(s) && Enabled(s, e) && CaughtUp(s, e)
    ensures Everywhere(Next(s, e).schedules, Next(s, e).workers)
  {
    if Restarts(s, e) {
      RestartKeeps(s, e);
    } else if e.Obtain? {
      ObtainKeeps(s, e);
    } else if IsWorkerEvent(e) {
      WorkerKeeps(s, e);
    } else {
      EnvironmentKeeps(s, e);
    }
  }

  lemma {:induction false} RunKeeps(s: State, events: seq<Event>)
    requires Kept(s) && Legal(s, events) && AllCaughtUp(s, events)
    ensures Kept(Exec(s, events))
    decreases |events|
  {
    if events != [] {
      StepKeepsLocks(s, events[0]);
      StepKeepsBackups(s, events[0]);
      StepKeeps(s, events[0]);
      RunKeeps(Next(s, events[0]), events[1..]);
    }
  }

  lemma InitKept(s: State)
    requires Init(s)
    ensures Kept(s)
  {
    InitHasLockInv(s);
    assert forall v :: 0 <= v < |s.workers| ==> s.workers[v] in s.workers;
  }

  // ----- the theorems -----

  lemma {:induction false} StrictlyIncreasing(applies: seq<BackupVersion>, bound: nat)
    requires Increasing(applies) && forall i :: 0 <= i < |applies| ==> 1 <= applies[i].generation <= bound
    ensures |applies| <= bound
  {
    if applies != [] {
      var n := |applies| - 1;
      var init := applies[..n];
      forall i, j | 0 <= i < j < n ensures Older(init[i], init[j]) {
        assert Older(applies[i], applies[j]);
      }
      forall i | 0 <= i < n ensures init[i].generation <= applies[n].generation - 1 {
        assert Older(applies[i], applies[n]);
      }
      StrictlyIncreasing(init, applies[n].generation - 1);
    }
  }

  lemma BoundedApplies(b: Schedule)
    requires Tidy(b)
    ensures forall i, j :: 0 <= i < j < |b.applies| ==> b.applies[i].generation < b.applies[j].generation
    ensures |b.applies| <= b.Current().generation
  {
    forall x | 0 <= x < |b.applies| ensures 1 <= b.applies[x].generation <= b.Current().generation {
      assert Held(b, b.applies[x]);
      var i :| 0 <= i < |b.history| && b.history[i] == b.applies[x];
      assert InOrder(b.history[0], b.history[i]) && InOrder(b.history[i], b.history[|b.history| - 1]);
    }
    StrictlyIncreasing(b.applies, b.Current().generation);
    forall i, j | 0 <= i < j < |b.applies| ensures b.applies[i].generation < b.applies[j].generation {
      assert Older(b.applies[i], b.applies[j]);
    }
  }

  lemma CaughtUpRun(s0: State, events: seq<Event>, k: Request)
    requires Init(s0) && Legal(s0, events) && AllCaughtUp(s0, events) && k in Exec(s0, events).schedules
    ensures Tidy(Exec(s0, events).schedules[k])
    ensures (forall w :: w in Exec(s0, events).workers && w.key == k ==> !w.Inside()) ==>
              Settled(Exec(s0, events).schedules[k])
  {
    InitKept(s0);
    RunKeeps(s0, events);
    var s := Exec(s0, events);
    if forall w :: w in s.workers && w.key == k ==> !w.Inside() {
      forall v | 0 <= v < |s.workers| ensures !StoresFor(s.workers[v], k) {
        assert s.workers[v] in s.workers;
      }
    }
  }

  /** No reconcile loop: however often the reconciler fires, complete applications use strictly newer generations of
      the spec each time, so there are never more of them than there were generations. */
  lemma NoReconcileLoop(s0: State, events: seq<Event>, k: Request)
    requires Init(s0) && Legal(s0, events) && AllCaughtUp(s0, events) && k in Exec(s0, events).schedules
    ensures var b := Exec(s0, events).schedules[k];
            && b.history != []
            && (forall i, j :: 0 <= i < j < |b.applies| ==> b.applies[i].generation < b.applies[j].generation)
            && |b.applies| <= b.Current().generation
  {
    CaughtUpRun(s0, events, k);
    BoundedApplies(Exec(s0, events).schedules[k]);
  }

  /** The recorded hash is exact: with no worker inside, every complete application was recorded by one write, in
      order, and the current version looks unchanged if and only if its spec is the one of the last of them. */
  lemma RecordedHashIsExact(s0: State, events: seq<Event>, k: Request)
    requires Init(s0) && Legal(s0, events) && AllCaughtUp(s0, events) && k in Exec(s0, events).schedules
    requires forall w :: w in Exec(s0, events).workers && w.key == k ==> !w.Inside()
    ensures var b := Exec(s0, events).schedules[k];
            && b.history != [] && Recorded(b, |b.applies|)
            && (!b.Current().HasSpecChanged() <==> b.applies != [] && LastApplied(b).spec == b.Current().spec)
  {
    CaughtUpRun(s0, events, k);
  }

  /** The last complete application was recorded after this version, and is of another spec than what had been recorded
      by then. */
  predicate Superseded(b: Schedule, version: nat) {
    b.records != [] &&
    var last := b.records[|b.records| - 1];
    && version < last.version
    && (RecordedBy(b.records, version).None? || RecordedBy(b.records, version).value.spec != last.snap.spec)
  }

  /** The version shows the hash of this spec. */
  predicate Shows(b: Schedule, version: nat, spec: BackupSpec) {
    var snap := RecordedBy(b.records, version);
    snap.Some? && snap.value.spec == spec
  }

  lemma HashShown(b: Schedule, version: nat, spec: BackupSpec)
    requires Tidy(b) && version < |b.history|
    ensures b.history[version].status.lastAppliedSpecHash == HashOf(spec) <==> Shows(b, version, spec)
  {
    assert Stored(b, version);
  }

  /** What was applied last is not the current spec, but this version shows the current spec's hash. */
  predicate HidesEdit(b: Schedule, version: nat)
    requires b.history != []
  {
    b.applies != [] && LastApplied(b).spec != b.Current().spec && Shows(b, version, b.Current().spec)
  }

  lemma HashSuperseded(b: Schedule, version: nat)
    requires Tidy(b) && Settled(b) && version < |b.history|
    ensures b.history[version].status.lastAppliedSpecHash != b.Current().status.lastAppliedSpecHash
            <==> Superseded(b, version)
  {
    assert Stored(b, version);
    assert b.records == [] ==> RecordedBy(b.records, version).None?;
  }

  // ----- status writes -----

  /** Only the health report differs. */
  predicate BackupObserverWrite(before: BackupStatus, after: BackupStatus) {
    after == before.(childrenHealth := after.childrenHealth, healthy := after.healthy)
  }

  /** Only the condition, for the generation written to, and, on success, the hash differ; the hash is that of the
      objects just applied. */
  predicate BackupReconcilerWrite(before: BackupVersion, after: BackupStatus, applies: seq<BackupVersion>) {
    && INSTALLATION in after.conditions
    && after == before.status.(conditions := before.status.conditions[INSTALLATION := after.conditions[INSTALLATION]],
                               lastAppliedSpecHash := after.lastAppliedSpecHash)
    && after.conditions[INSTALLATION].observedGeneration == before.generation
    && if after.conditions[INSTALLATION].status == True then
         applies != [] && after.lastAppliedSpecHash == HashOf(applies[|applies| - 1].spec)
       else after.lastAppliedSpecHash == before.status.lastAppliedSpecHash
  }

  lemma LandedIsFaithful(b: Schedule, role: Role, p: Phase)
    requires Tidy(b) && p.BackupSaving? && SnapSound(b, role, p) && Fits(b, role, p)
    ensures var before, after := b.Current().status, LandedOn(b, p).Current().status;
            || (role.BackupObserver? && BackupObserverWrite(before, after))
            || (role.BackupReconciler? && BackupReconcilerWrite(b.Current(), after, b.applies))
  {
  }

  lemma OwnSaveIsFaithful(s: State, w: nat)
    requires Ours(s, w) && s.workers[w].phase.BackupSaving? && WorkerSound(s.schedules, s.workers[w])
    ensures var k, role, t := s.workers[w].key, s.workers[w].role, NextSave(s, w);
            && k in t.schedules && s.schedules[k].history != [] && t.schedules[k].history != []
            && (forall o :: o in s.schedules && o != k ==> o in t.schedules && t.schedules[o] == s.schedules[o])
            && var before, after := s.schedules[k].Current().status, t.schedules[k].Current().status;
               || after == before
               || (role == BackupObserver && BackupObserverWrite(before, after))
               || (role == BackupReconciler
                   && BackupReconcilerWrite(s.schedules[k].Current(), after, s.schedules[k].applies))
  {
    OwnFits(s, w);
    SaveBackupShape(s, w);
    LandedIsFaithful(s.schedules[s.workers[w].key], s.workers[w].role, s.workers[w].phase);
  }

  lemma ActionSaveKeepsSchedules(s: State, w: nat)
    requires w < |s.workers| && s.workers[w].phase.ActionSaving?
    ensures NextSave(s, w).schedules == s.schedules
  {
  }

  lemma SaveIsFaithful(s: State, e: Event, k: Request)
    requires Enabled(s, e) && e.SaveUpdate? && k in s.schedules && s.schedules[k].history != []
    requires Ours(s, e.w) && WorkerSound(s.schedules, s.workers[e.w])
    ensures var t := NextSave(s, e.w);
            && k in t.schedules && t.schedules[k].history != []
            && var before, after := s.schedules[k].Current().status, t.schedules[k].Current().status;
               || after == before
               || (WroteBy(s, e, k, BackupObserver) && BackupObserverWrite(before, after))
               || (WroteBy(s, e, k, BackupReconciler)
                   && BackupReconcilerWrite(s.schedules[k].Current(), after, s.schedules[k].applies))
  {
    if s.workers[e.w].phase.BackupSaving? {
      OwnSaveIsFaithful(s, e.w);
    } else {
      ActionSaveKeepsSchedules(s, e.w);
    }
  }

  lemma StepIsFaithful(s: State, e: Event, k: Request)
    requires Enabled(s, e) && k in s.schedules && s.schedules[k].history != []
    requires e.SaveUpdate? ==> Ours(s, e.w) && WorkerSound(s.schedules, s.workers[e.w])
    ensures var t := Next(s, e);
            && k in t.schedules && t.schedules[k].history != []
            && var before, after := s.schedules[k].Current().status, t.schedules[k].Current().status;
               || after == before
               || (WroteBy(s, e, k, BackupObserver) && BackupObserverWrite(before, after))
               || (WroteBy(s, e, k, BackupReconciler)
                   && BackupReconcilerWrite(s.schedules[k].Current(), after, s.schedules[k].applies))
  {
    if e.SaveUpdate? {
      SaveIsFaithful(s, e, k);
    } else {
      OnlySavesWriteStatus(s, e, k);
    }
  }

  lemma KeptIsOurs(s: State, e: Event, k: Request)
    requires Kept(s) && Enabled(s, e) && k in s.schedules
    ensures s.schedules[k].history != []
    ensures e.SaveUpdate? ==> Ours(s, e.w) && WorkerSound(s.schedules, s.workers[e.w])
  {
    assert ScheduleSound(s.schedules[k]);
    if e.SaveUpdate? {
      assert s.workers[e.w] in s.workers;
      InsideAlone(s, e.w);
    }
  }

  /** No lost update on a ScheduledBackup, given a caught-up cache: the observer, which overwrites the whole status from
      its cached snapshot, preserves the hash and all conditions, and the reconciler preserves the health report. */
  lemma NoLostBackupUpdate(s0: State, events: seq<Event>, e: Event, k: Request)
    requires Init(s0) && Legal(s0, events) && AllCaughtUp(s0, events) && k in Exec(s0, events).schedules
    requires Enabled(Exec(s0, events), e)
    ensures var s := Exec(s0, events);
            var t := Next(s, e);
            && k in t.schedules && s.schedules[k].history != [] && t.schedules[k].history != []
            && var before, after := s.schedules[k].Current().status, t.schedules[k].Current().status;
               || after == before
               || (WroteBy(s, e, k, BackupObserver) && BackupObserverWrite(before, after))
               || (WroteBy(s, e, k, BackupReconciler)
                   && BackupReconcilerWrite(s.schedules[k].Current(), after, s.schedules[k].applies))
  {
    InitKept(s0);
    RunKeeps(s0, events);
    KeptIsOurs(Exec(s0, events), e, k);
    StepIsFaithful(Exec(s0, events), e, k);
  }

  /** No other step touches a status. */
  lemma OnlySavesWriteStatus(s: State, e: Event, k: Request)
    requires Enabled(s, e) && !e.SaveUpdate? && k in s.schedules && s.schedules[k].history != []
    ensures var t := Next(s, e);
            && k in t.schedules && t.schedules[k].history != []
            && t.schedules[k].Current().status == s.schedules[k].Current().status
  {
    if e.ApplyDoc? {
      ApplyKeepsStatus(s, e.w, e.api, e.acknowledged, k);
    } else if e.Render? {
      assert NextRender(s, e.w, e.docs).schedules == s.schedules;
    }
  }

  lemma ApplyKeepsStatus(s: State, w: nat, api: Answers, acknowledged: bool, k: Request)
    requires w < |s.workers| && (s.workers[w].phase.ActionApplying? || s.workers[w].phase.BackupApplying?)
    requires s.workers[w].phase.i < |s.workers[w].phase.docs| && k in s.schedules
    ensures k in NextApply(s, w, api, acknowledged).schedules
    ensures NextApply(s, w, api, acknowledged).schedules[k].history == s.schedules[k].history
  {
  }
}
