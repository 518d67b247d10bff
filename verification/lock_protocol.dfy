/** Mutual exclusion of the reconcilers: what the in-memory locker's list means in every run. */
module LockProtocol {
  import opened Wrappers
  import opened Locking
  import opened References
  import opened ControlPlane
  import opened Cluster
  import opened Rendering

  predicate Holds(workers: seq<Worker>, w: nat, id: string) {
    w < |workers| && workers[w].Inside() && workers[w].session == id
  }

  /** A worker inside holds the session of its own request. */
  predicate OwnSessions(workers: seq<Worker>) {
    forall w :: w in workers && w.Inside() ==> w.session == LockId(w.key)
  }

  /** The list holds no identifier twice and names exactly the workers between Obtain and Done, one each. */
  ghost predicate Bracketed(locks: seq<string>, workers: seq<Worker>) {
    && Distinct(locks)
    && (forall id :: id in locks <==> exists w :: Holds(workers, w, id))
    && (forall v, w, id :: Holds(workers, v, id) && Holds(workers, w, id) ==> v == w)
  }

  ghost predicate LockInv(s: State) {
    OwnSessions(s.workers) && Bracketed(s.locks, s.workers)
  }

  /** The process goes down: on its own, or by decoding a reference without a slash. */
  ghost predicate Restarts(s: State, e: Event)
    requires Enabled(s, e)
  {
    e.Crash? || (e.Examine? && var p := s.workers[e.w].phase; GetGVK(Refs(p)[|p.readings|]).None?)
  }

  /** This step is a status write of a worker in this role for this object. */
  ghost predicate WroteBy(s: State, e: Event, k: Request, role: Role) {
    e.SaveUpdate? && e.w < |s.workers| && s.workers[e.w].key == k && s.workers[e.w].role == role
  }

  /** A step of worker `w` rewrites its phase and no other worker. */
  predicate MovesOnly(s: State, t: State, w: nat) {
    && w < |s.workers| == |t.workers|
    && t.workers == s.workers[w := s.workers[w].(phase := t.workers[w].phase)]
  }

  lemma SaveMoves(s: State, w: nat)
    requires w < |s.workers| && (s.workers[w].phase.ActionSaving? || s.workers[w].phase.BackupSaving?)
    ensures var t := NextSave(s, w);
            MovesOnly(s, t, w) && t.locks == s.locks && t.workers[w].Inside()
            && t.objects == s.objects && t.nextId == s.nextId
  {
  }

  lemma ApplyMoves(s: State, w: nat, api: Answers, acknowledged: bool)
    requires w < |s.workers| && (s.workers[w].phase.ActionApplying? || s.workers[w].phase.BackupApplying?)
    requires s.workers[w].phase.i < |s.workers[w].phase.docs|
    ensures var t := NextApply(s, w, api, acknowledged);
            MovesOnly(s, t, w) && t.locks == s.locks && t.workers[w].Inside()
  {
  }

  lemma RenderMoves(s: State, w: nat, docs: Option<seq<Document>>)
    requires w < |s.workers| && (s.workers[w].phase.ActionRendering? || s.workers[w].phase.BackupRendering?)
    ensures var t := NextRender(s, w, docs);
            MovesOnly(s, t, w) && t.locks == s.locks && t.workers[w].Inside()
  {
  }

  lemma PhaseMoves(s: State, e: Event)
    requires IsWorkerEvent(e) && e.w < |s.workers| && WorkerEnabled(s, e)
    requires PhaseOnly(e)
    ensures !NextPhase(s, e).Idle?
  {
  }

  /** What any worker step leaves alone: all other workers, and the list of locks except in Obtain and Done. */
  lemma WorkerStepShape(s: State, e: Event)
    requires Enabled(s, e) && IsWorkerEvent(e) && !e.Obtain? && !Restarts(s, e)
    ensures var t := Next(s, e);
            && MovesOnly(s, t, e.w)
            && s.workers[e.w].Inside() && t.workers[e.w].Inside() == !e.Done?
            && (!e.Done? ==> t.locks == s.locks)
  {
    match e
    case SaveUpdate(w) => SaveMoves(s, w);
    case ApplyDoc(w, api, acknowledged) => ApplyMoves(s, w, api, acknowledged);
    case Render(w, docs) => RenderMoves(s, w, docs);
    case Examine(_, _) =>
    case Done(_) =>
    case _ => PhaseMoves(s, e);
  }

  lemma EnvironmentStepShape(s: State, e: Event)
    requires Enabled(s, e) && !IsWorkerEvent(e) && !e.Crash?
    ensures Next(s, e).workers == s.workers && Next(s, e).locks == s.locks
  {
  }

  /** Entering with an identifier nobody holds. */
  lemma Enters(locks: seq<string>, workers: seq<Worker>, w: nat, entered: Worker)
    requires Bracketed(locks, workers) && w < |workers| && !workers[w].Inside()
    requires entered.Inside() && entered.session !in locks
    ensures Bracketed(locks + [entered.session], workers[w := entered])
  {
    var after := workers[w := entered];
    assert forall v, id {:trigger Holds(after, v, id)} {:trigger Holds(workers, v, id)} ::
        Holds(after, v, id) <==> if v == w then id == entered.session else Holds(workers, v, id);
    assert Holds(after, w, entered.session);
  }

  /** Leaving removes one's own identifier, by name alone. */
  lemma Leaves(locks: seq<string>, workers: seq<Worker>, w: nat, left: Worker)
    requires Bracketed(locks, workers) && w < |workers| && workers[w].Inside() && !left.Inside()
    ensures Bracketed(Remove(locks, workers[w].session), workers[w := left])
  {
    var after := workers[w := left];
    RemoveExact(locks, workers[w].session);
    assert Holds(workers, w, workers[w].session);
    assert forall v, id {:trigger Holds(after, v, id)} {:trigger Holds(workers, v, id)} ::
        Holds(after, v, id) <==> v != w && Holds(workers, v, id);
  }

  /** A step inside changes neither the list nor what it stands for. */
  lemma StaysInside(locks: seq<string>, workers: seq<Worker>, w: nat, moved: Worker)
    requires Bracketed(locks, workers) && w < |workers| && workers[w].Inside() && moved.Inside()
    requires moved.session == workers[w].session
    ensures Bracketed(locks, workers[w := moved])
  {
    var after := workers[w := moved];
    assert forall v, id {:trigger Holds(after, v, id)} {:trigger Holds(workers, v, id)} ::
        Holds(after, v, id) <==> Holds(workers, v, id);
  }

  lemma StepKeepsLocks(s: State, e: Event)
    requires LockInv(s) && Enabled(s, e)
    ensures LockInv(Next(s, e))
  {
    var t := Next(s, e);
    if Restarts(s, e) {
      assert t == Restarted(s);
      assert forall w, id :: !Holds(t.workers, w, id);
    } else if !IsWorkerEvent(e) {
      EnvironmentStepShape(s, e);
    } else if e.Obtain? {
      if LockId(e.key) !in s.locks {
        Enters(s.locks, s.workers, e.w, t.workers[e.w]);
      }
    } else {
      WorkerStepShape(s, e);
      if e.Done? {
        Leaves(s.locks, s.workers, e.w, t.workers[e.w]);
      } else {
        StaysInside(s.locks, s.workers, e.w, t.workers[e.w]);
      }
    }
  }

  lemma InitHasLockInv(s: State)
    requires Init(s)
    ensures LockInv(s)
  {
    assert forall w, id :: !Holds(s.workers, w, id) by {
      assert forall w :: 0 <= w < |s.workers| ==> s.workers[w] in s.workers;
    }
  }

  lemma {:induction false} RunKeepsLocks(s: State, events: seq<Event>)
    requires LockInv(s) && Legal(s, events)
    ensures LockInv(Exec(s, events))
    decreases |events|
  {
    if events != [] {
      StepKeepsLocks(s, events[0]);
      RunKeepsLocks(Next(s, events[0]), events[1..]);
    }
  }

  /** Two workers on the same object are never inside together. */
  lemma OthersElsewhere(s: State, v: nat, w: nat)
    requires LockInv(s) && v < |s.workers| && w < |s.workers| && v != w
    requires s.workers[v].Inside() && s.workers[w].Inside()
    ensures s.workers[v].key != s.workers[w].key
  {
    assert Holds(s.workers, v, s.workers[v].session) && Holds(s.workers, w, s.workers[w].session);
    assert s.workers[v] in s.workers && s.workers[w] in s.workers;
  }

  /** Nobody else is inside for the object of worker `w`. */
  predicate Alone(workers: seq<Worker>, w: nat)
    requires w < |workers|
  {
    forall v {:trigger workers[v]} ::
      0 <= v < |workers| && v != w && workers[v].Inside() ==> workers[v].key != workers[w].key
  }

  lemma InsideAlone(s: State, w: nat)
    requires LockInv(s) && w < |s.workers| && s.workers[w].Inside()
    ensures Alone(s.workers, w)
  {
    forall v | 0 <= v < |s.workers| && v != w && s.workers[v].Inside() ensures s.workers[v].key != s.workers[w].key {
      OthersElsewhere(s, v, w);
    }
  }

  /** In every run: no two workers are ever inside for the same namespaced name, the list of locks is exactly the
      identifiers of those inside, without duplicates, and when all workers rest nothing stays locked. */
  lemma MutualExclusion(s0: State, events: seq<Event>)
    requires Init(s0) && Legal(s0, events)
    ensures var s := Exec(s0, events);
            && Distinct(s.locks)
            && (forall id :: id in s.locks <==>
                  exists w :: w in s.workers && w.Inside() && LockId(w.key) == id)
            && (forall v, w :: 0 <= v < w < |s.workers| && s.workers[v].Inside() && s.workers[w].Inside() ==>
                  s.workers[v].key != s.workers[w].key)
            && ((forall w :: w in s.workers ==> !w.Inside()) ==> s.locks == [])
  {
    InitHasLockInv(s0);
    RunKeepsLocks(s0, events);
    var s := Exec(s0, events);
    forall w | w in s.workers && w.Inside() ensures LockId(w.key) in s.locks {
      var i :| 0 <= i < |s.workers| && s.workers[i] == w;
      assert Holds(s.workers, i, w.session);
    }
    forall id | id in s.locks ensures exists w :: w in s.workers && w.Inside() && LockId(w.key) == id {
      var i: nat :| Holds(s.workers, i, id);
      assert s.workers[i] in s.workers;
    }
    forall v, w | 0 <= v < w < |s.workers| && s.workers[v].Inside() && s.workers[w].Inside()
      ensures s.workers[v].key != s.workers[w].key
    {
      OthersElsewhere(s, v, w);
    }
    assert s.locks != [] ==> s.locks[0] in s.locks;
  }
}
