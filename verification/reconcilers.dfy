/** The four Reconcile methods of pkg/controllers, step by step. Each one drives the state machine, so whatever it does
    is a legal run, and between any two of its steps every other worker, the users and the cluster may do anything.
    Its contract says what it did to its own object all the same, as if it had run alone. */
module Reconcilers {
  import opened Wrappers
  import opened Locking
  import opened References
  import opened Rendering
  import opened Cluster
  import opened Health
  import opened ControlPlane
  import opened LockProtocol
  import opened ActionProtocol
  import StoreProtocol
  import ActionExactness
  import opened BackupProtocol
  import opened Isolation
  import opened Runs

  /** ctrl.Result with the returned error; no requeue is 0. */
  datatype Outcome = Outcome(requeueAfter: nat, failed: bool)

  const LOCKED := Outcome(10, false)

  // ----- what a pass over an action did to it -----

  /** `at` is the generation under which a status write landed, if it did. */
  datatype ActionPass =
    | Refused                                                       // somebody else holds the lock
    | NotFetched
    | WasProcessed
    | NotRendered(at: Option<nat>)
    | Broken(docs: seq<Document>, n: nat, at: Option<nat>)          // document n was not applied, or not reported so
    | Complete(docs: seq<Document>, at: Option<nat>)

  predicate NewCalls(a: Action, b: Action, docs: seq<Document>, n: nat) {
    && b.passes == a.passes + [docs] && (forall d :: d in docs ==> d.gvk == JOB)
    && |b.calls| >= |a.calls| + n && b.calls[..|a.calls|] == a.calls
    && StoreProtocol.Matches(b.calls[|a.calls|..][..n], docs, n)
  }

  /** The status stored by updateObjectStatus, or the one from before when the write was lost. */
  predicate Stored(a: Action, b: Action, refs: seq<ChildReference>, outcome: ConditionStatus, at: Option<nat>) {
    if at.None? then b.status == a.status
    else
      && a.generation <= at.value <= b.generation
      && b.status == a.status.(ownedReferences := a.status.ownedReferences + refs,
                               processed := a.status.processed || outcome == True,
                               conditions := a.status.conditions[INSTALLATION := Condition(outcome, at.value)],
                               healthy := a.status.healthy && outcome == True)
  }

  predicate Explains(a: Action, b: Action, pass: ActionPass) {
    match pass
    case Refused => ActionStill(a, b)
    case NotFetched => ActionStill(a, b)
    case WasProcessed => a.status.processed && ActionStill(a, b)
    case NotRendered(at) =>
      !a.status.processed && b.passes == a.passes && b.calls == a.calls && Stored(a, b, [], False, at)
    case Broken(docs, n, at) =>
      && !a.status.processed && n < |docs| && NewCalls(a, b, docs, n)
      && |b.calls| <= |a.calls| + n + 1
      && (forall j :: |a.calls| + n <= j < |b.calls| ==> !b.calls[j].reported)
      && Stored(a, b, ActionExactness.Reported(b.calls[|a.calls|..][..n]), False, at)
    case Complete(docs, at) =>
      && !a.status.processed && docs != [] && NewCalls(a, b, docs, |docs|) && |b.calls| == |a.calls| + |docs|
      && Stored(a, b, ActionExactness.Reported(b.calls[|a.calls|..][..|docs|]), True, at)
  }

  function ActionOutcome(pass: ActionPass): Outcome {
    match pass
    case Refused => LOCKED
    case NotFetched => Outcome(30, true)
    case WasProcessed => Outcome(0, false)
    case NotRendered(_) => Outcome(30, true)
    case Broken(_, _, _) => Outcome(30, true)
    case Complete(_, _) => Outcome(0, false)
  }

  /** From the calls of the apply loop to the action's history. */
  lemma Tried(a: Action, b: Action, docs: seq<Document>, n: nat, calls: seq<Call>)
    requires b.passes == a.passes + [docs] && b.calls == a.calls + calls && n <= |calls|
    requires forall d :: d in docs ==> d.gvk == JOB
    requires StoreProtocol.Matches(calls[..n], docs, n)
    ensures NewCalls(a, b, docs, n) && b.calls[|a.calls|..] == calls
  {
  }

  // ----- what an observer's pass over an action did to it -----

  datatype ObserverPass =
    | Denied
    | NotRead
    | StillRunning(evidence: seq<Reading>)
    | Published(evidence: seq<Reading>, at: Option<nat>)

  /** The listings were made for the action's references in order, up to the end or the first failing lookup. */
  predicate Examined(refs: seq<ChildReference>, evidence: seq<Reading>) {
    |evidence| <= |refs| && (|evidence| == |refs| || HealthReport(refs[..|evidence|], evidence).erred)
  }

  predicate ExplainsObserver(a: Action, b: Action, pass: ObserverPass) {
    var refs := a.status.ownedReferences;
    match pass
    case Denied => ActionStill(a, b)
    case NotRead => ActionStill(a, b)
    case StillRunning(evidence) =>
      Examined(refs, evidence) && !NoneRunning(HealthReport(refs[..|evidence|], evidence)) && ActionStill(a, b)
    case Published(evidence, at) =>
      && Examined(refs, evidence)
      && var report := HealthReport(refs[..|evidence|], evidence);
         && NoneRunning(report) && b.passes == a.passes && b.calls == a.calls
         && b.status == if at.None? then a.status
                        else a.status.(childrenHealth := report.entries, healthy := report.healthy)
  }

  function ObserverOutcome(pass: ObserverPass): Outcome {
    match pass
    case Denied => LOCKED
    case NotRead => Outcome(0, true)
    case StillRunning(_) => Outcome(10, false)
    case Published(_, _) => Outcome(0, false)
  }

  // ----- what a pass over a scheduled backup did to it -----

  /** `marks` are the conditions whose write landed, in order; the recorded hash goes with a True one. */
  datatype BackupPass =
    | Shut
    | Missing
    | Unchanged(snap: BackupVersion)
    | Unhydrated(snap: BackupVersion, marks: seq<Condition>)
    | Unapplied(snap: BackupVersion, marks: seq<Condition>)
    | Applied(snap: BackupVersion, pass: Installation, marks: seq<Condition>)

  function Marked(status: BackupStatus, snap: BackupVersion, marks: seq<Condition>): BackupStatus {
    if marks == [] then status
    else
      var n := |marks| - 1;
      var before := Marked(status, snap, marks[..n]);
      before.(conditions := before.conditions[INSTALLATION := marks[n]],
              lastAppliedSpecHash := if marks[n].status == True then HashOf(snap.spec) else before.lastAppliedSpecHash)
  }

  lemma MarkedOnce(status: BackupStatus, snap: BackupVersion, marks: seq<Condition>, mark: Condition)
    ensures var before := Marked(status, snap, marks);
            Marked(status, snap, marks + [mark]) ==
            before.(conditions := before.conditions[INSTALLATION := mark],
                    lastAppliedSpecHash := if mark.status == True then HashOf(snap.spec)
                                           else before.lastAppliedSpecHash)
  {
    assert (marks + [mark])[..|marks|] == marks;
  }

  /** In progress first, then the outcome; either write may have been lost. */
  predicate MarkedAs(marks: seq<Condition>, outcome: ConditionStatus) {
    match |marks|
    case 0 => true
    case 1 => marks[0].status == Unknown || marks[0].status == outcome
    case _ => |marks| == 2 && marks[0].status == Unknown && marks[1].status == outcome
  }

  /** The schedule `b` after its status and its applications were changed and others had their turn. */
  predicate Became(b: Schedule, c: Schedule, status: BackupStatus, applies: seq<BackupVersion>,
                   installed: seq<Installation>)
  {
    && b.history <= c.history && c.history != [] && c.Current().status == status
    && c.applies == applies && c.installed == installed
  }

  predicate ExplainsBackup(b: Schedule, c: Schedule, pass: BackupPass) {
    b.history != [] &&
    match pass
    case Shut => Became(b, c, b.Current().status, b.applies, b.installed)
    case Missing => Became(b, c, b.Current().status, b.applies, b.installed)
    case Unchanged(snap) =>
      && snap in c.history
      && (snap.status.lastAppliedSpecHash == HashOf(snap.spec)
          || exists t :: t in snap.status.conditions && snap.status.conditions[t].status == Unknown)
      && Became(b, c, b.Current().status, b.applies, b.installed)
    case Unhydrated(snap, marks) =>
      && snap in c.history && snap.HasSpecChanged() && MarkedAs(marks, False)
      && Became(b, c, Marked(b.Current().status, snap, marks), b.applies, b.installed)
    case Unapplied(snap, marks) =>
      && snap in c.history && snap.HasSpecChanged() && MarkedAs(marks, False)
      && Became(b, c, Marked(b.Current().status, snap, marks), b.applies, b.installed)
    case Applied(snap, install, marks) =>
      && snap in c.history && snap.HasSpecChanged() && MarkedAs(marks, True)
      && install.docs != [] && StoreProtocol.Matches(install.calls, install.docs, |install.docs|)
      && Became(b, c, Marked(b.Current().status, snap, marks), b.applies + [snap], b.installed + [install])
  }

  function BackupOutcome(pass: BackupPass): Outcome {
    match pass
    case Shut => LOCKED
    case Missing => Outcome(0, true)
    case Unchanged(_) => Outcome(0, false)
    case Unhydrated(_, _) => Outcome(5, false)
    case Unapplied(_, _) => Outcome(60, false)
    case Applied(_, _, _) => Outcome(0, false)
  }

  // ----- what an observer's pass over a scheduled backup did to it -----

  datatype BackupObserverPass =
    | Excluded
    | NotHydrated
    | Overwritten(snap: BackupVersion, at: Option<nat>)

  /** The whole status comes from the version read, whichever that was, with an empty report on top. */
  predicate ExplainsBackupObserver(b: Schedule, c: Schedule, pass: BackupObserverPass) {
    b.history != [] &&
    match pass
    case Excluded => Became(b, c, b.Current().status, b.applies, b.installed)
    case NotHydrated => Became(b, c, b.Current().status, b.applies, b.installed)
    case Overwritten(snap, at) =>
      && snap in c.history
      && Became(b, c, if at.None? then b.Current().status else snap.status.(childrenHealth := [], healthy := true),
                b.applies, b.installed)
  }

  function BackupObserverOutcome(pass: BackupObserverPass): Outcome {
    match pass
    case Excluded => LOCKED
    case NotHydrated => Outcome(0, true)
    case Overwritten(_, _) => Outcome(0, false)
  }

  // ----- what a Reconcile call finds outside -----

  /** Whether the object can be fetched, then every dependency of its aggregate, whether the generator works and what it
      prints for each operation. */
  datatype Outside = Outside(fetches: bool, hydrates: bool, generates: bool, manifest: Operation -> string) {
    /** What the generator's output makes of an action; an error when it does not work. */
    predicate PrintsForAction(decode: string -> Option<Document>, action: Operation, result: Option<seq<Document>>) {
      if generates then RendersAction(manifest, decode, action, result) else result.None?
    }

    predicate PrintsForBackup(decode: string -> Option<Document>, spec: BackupSpec, result: Option<seq<Document>>) {
      if generates then RendersBackup(manifest, decode, spec.operation, spec.cronJobEnabled, result) else result.None?
    }
  }

  /** A pass over an action stops where something is missing and only there; it applies the Jobs of its operation's
      manifest. */
  predicate ActionFrom(out: Outside, decode: string -> Option<Document>, action: Operation, known: bool,
                       pass: ActionPass)
  {
    && (!pass.Refused? ==> (pass.NotFetched? <==> !(known && out.fetches && out.hydrates)))
    && (pass.NotRendered? ==>
          out.PrintsForAction(decode, action, None) || out.PrintsForAction(decode, action, Some([])))
    && (pass.Broken? ==> pass.docs != [] && out.PrintsForAction(decode, action, Some(pass.docs)))
    && (pass.Complete? ==> pass.docs != [] && out.PrintsForAction(decode, action, Some(pass.docs)))
  }

  /** A pass over a scheduled backup applies what both manifests hold for the spec of the version read, and says so when
      a dependency is missing. */
  predicate BackupFrom(out: Outside, decode: string -> Option<Document>, known: bool, pass: BackupPass) {
    && (!pass.Shut? ==> (pass.Missing? <==> !(known && out.fetches)))
    && (pass.Unhydrated? ==> !out.hydrates) && (pass.Unapplied? || pass.Applied? ==> out.hydrates)
    && (pass.Applied? ==> out.PrintsForBackup(decode, pass.snap.spec, Some(pass.pass.docs)))
  }

  // ----- the machine as an object -----

  class Operator {
    const decode: string -> Option<Document>
    ghost const start: State
    ghost var trace: seq<Event>
    var st: State

    ghost predicate Valid()
      reads this
    {
      Init(start) && Reaches(start, trace, st) && SoundDecoder(decode)
    }

    constructor (st: State, decode: string -> Option<Document>)
      requires Init(st) && SoundDecoder(decode)
      ensures Valid() && this.st == st && trace == []
    {
      this.st, this.decode, start, trace := st, decode, st, [];
    }

    lemma Sound()
      requires Valid()
      ensures Inv(st) && BackupInv(st)
    {
      InitHasInv(start);
      RunKeepsInv(start, trace);
      RunKeepsBackups(start, trace);
    }

    /** What the cluster holds of an action's calls and of a scheduled backup's installations, unless a later call
        rewrote the object. */
    lemma Stands(k: Request)
      requires Valid()
      ensures k in st.actions ==> forall c :: c in st.actions[k].calls ==> StoreProtocol.InCluster(st, c)
      ensures k in st.schedules ==>
                forall i :: 0 <= i < |st.schedules[k].installed| ==>
                  StoreProtocol.Installed(st, k, st.schedules[k].installed[i])
    {
      if k in st.actions {
        forall c | c in st.actions[k].calls ensures StoreProtocol.InCluster(st, c) {
          StoreProtocol.CallsAreInTheCluster(start, trace, k, c);
        }
      }
      if k in st.schedules {
        StoreProtocol.InstallationsAreInTheCluster(start, trace, k);
      }
    }

    /** One step of the caller. */
    method Do(e: Event)
      requires Valid() && Enabled(st, e)
      modifies `st, `trace
      ensures Valid() && st == Next(old(st), e) && trace == old(trace) + [e]
    {
      One(st, e);
      Chain(start, trace, st, [e], Next(st, e));
      st := Next(st, e);
      trace := trace + [e];
    }

    /** Anything anybody else may do, for any length of time. */
    method Interfere(w: nat)
      requires Valid() && w < |st.workers| && st.workers[w].Inside()
      modifies `st, `trace
      ensures Valid() && old(trace) <= trace
      ensures |st.workers| == |old(st).workers| && st.workers[w] == old(st.workers[w])
      ensures Still(old(st), st, st.workers[w].key)
    {
      Sound();
      StillSame(st, st.workers[w].key);
      var others: seq<Event> := *;
      if Legal(st, others) && forall e :: e in others ==> Elsewhere(e, w) {
        RunElsewhere(st, others, w);
        Chain(start, trace, st, others, Exec(st, others));
        st := Exec(st, others);
        trace := trace + others;
      }
    }

    /** Locker.Obtain; the caller is inside unless it is told so. */
    method Obtain(w: nat, key: Request) returns (locked: bool)
      requires Valid() && w < |st.workers| && st.workers[w].phase.Idle?
      modifies `st, `trace
      ensures Valid() && old(trace) <= trace && |st.workers| == |old(st).workers|
      ensures locked <==> LockId(key) in old(st).locks
      ensures locked ==> st == old(st)
      ensures !locked ==> st.workers[w] == Worker(old(st).workers[w].role, key, LockId(key), Holding)
                          && Still(old(st), st, key)
    {
      Do(ControlPlane.Obtain(w, key));
      if st.workers[w].phase.Idle? {
        return true;
      }
      Interfere(w);
      return false;
    }

    /** The deferred Locker.Done. */
    method Leave(w: nat)
      requires Valid() && w < |st.workers| && st.workers[w].phase.Leaving?
      modifies `st, `trace
      ensures Valid() && old(trace) <= trace
      ensures st.workers == old(st).workers[w := old(st).workers[w].(phase := Idle)]
      ensures st.locks == Remove(old(st).locks, old(st).workers[w].session)
      ensures st.actions == old(st).actions && st.schedules == old(st).schedules
    {
      Do(Done(w));
    }

    /** Leave, for a worker of whom only the key matters. */
    method Release(w: nat)
      requires Valid() && w < |st.workers| && st.workers[w].phase.Leaving?
      modifies `st, `trace
      ensures Valid() && old(trace) <= trace && |st.workers| == |old(st).workers| && st.workers[w].phase.Idle?
      ensures LockId(old(st).workers[w].key) !in st.locks
      ensures st.actions == old(st).actions && st.schedules == old(st).schedules
    {
      Sound();
      assert st.workers[w] in st.workers;
      RemoveExact(st.locks, st.workers[w].session);
      Leave(w);
    }

    /** A step that concerns the worker's own variables only. */
    method Tell(e: Event)
      requires Valid() && PhaseOnly(e) && Enabled(st, e)
      modifies `st, `trace
      ensures Valid() && old(trace) <= trace && |st.workers| == |old(st).workers|
      ensures st.workers[e.w] == old(st).workers[e.w].(phase := NextPhase(old(st), e))
      ensures Still(old(st), st, st.workers[e.w].key)
    {
      PhaseMoves(st, e);
      ghost var s := st;
      Do(e);
      assert Still(s, st, st.workers[e.w].key) by {
        Sound();
        StillSame(st, st.workers[e.w].key);
      }
      label done:
      Interfere(e.w);
      StillThen(s, old@done(st), st, st.workers[e.w].key);
    }

    // ----- RequestedBackupAction -----

    /** The action `a` seen by its worker after `a` was changed to `b` and others had their turn. */
    ghost predicate Mine(w: nat, me: Worker, b: Action)
      reads this
    {
      && w < |st.workers| && st.workers[w] == me && me.key in st.actions
      && ActionStill(b, st.actions[me.key])
    }

    /** The manifest of the action's operation, parsed and filtered, if the generator works. */
    method ParseAction(out: Outside, action: Operation) returns (result: Option<seq<Document>>)
      requires SoundDecoder(decode)
      ensures out.PrintsForAction(decode, action, result)
      ensures result.Some? ==> forall d :: d in result.value ==> d.gvk == JOB
    {
      if !out.generates {
        return None;
      }
      result := RenderRequestedAction(out.manifest, decode, action);
      RenderedKinds(out.manifest, decode, action, false, action);
    }

    /** Rendering, up to the point where the first document is about to be applied. */
    method RenderAction(w: nat, out: Outside, action: Operation) returns (docs: seq<Document>)
      requires Valid() && w < |st.workers| && st.workers[w].phase.ActionRendering? && st.workers[w].key in st.actions
      modifies `st, `trace
      ensures Valid() && old(trace) <= trace && |st.workers| == |old(st).workers|
      ensures forall d :: d in docs ==> d.gvk == JOB
      ensures out.PrintsForAction(decode, action, Some(docs))
              || (docs == [] && out.PrintsForAction(decode, action, None))
      ensures var me, a := old(st).workers[w], old(st).actions[old(st).workers[w].key];
              if docs == [] then Mine(w, me.(phase := Failing(me.phase.base, me.phase.base.ownedReferences)), a)
              else Mine(w, me.(phase := ActionApplying(me.phase.base, me.phase.base.ownedReferences, docs, 0)),
                        a.(passes := a.passes + [docs]))
    {
      var result := ParseAction(out, action);
      docs := if result.Some? then result.value else [];
      Do(Render(w, result));
      Interfere(w);
    }

    /** One document: label, create or update, and remember the reference if it is reported to have worked. */
    method ApplyToAction(w: nat) returns (ok: bool, ghost call: Call, ghost calls: seq<Call>)
      requires Valid() && w < |st.workers| && st.workers[w].phase.ActionApplying? && st.workers[w].key in st.actions
      requires st.workers[w].phase.i < |st.workers[w].phase.docs|
      modifies `st, `trace
      ensures Valid() && old(trace) <= trace && |st.workers| == |old(st).workers|
      ensures var me, a := old(st).workers[w], old(st).actions[old(st).workers[w].key];
              && Mine(w, me.(phase := AppliedPhase(me.phase, call.reference, ok)), a.(calls := a.calls + calls))
              && (ok ==> StoreProtocol.Applied(call, me.phase.docs[me.phase.i]))
      ensures calls == [] || calls == [call]
      ensures ok ==> calls == [call]
      ensures !ok && calls != [] ==> !call.reported
    {
      var api: Answers, acknowledged: bool := *, *;
      ghost var s := st;
      var p := st.workers[w].phase;
      var landed := CallSucceeds(st.objects, p.docs[p.i], st.workers[w].key.namespace, api);
      ok := landed && acknowledged;
      call := CallFor(p.docs[p.i], st.workers[w].key.namespace, api.suffix, st.nextId, acknowledged);
      calls := if landed then [call] else [];
      Do(ApplyDoc(w, api, acknowledged));
      ApplyShape(s, w, api, acknowledged);
      assert Logged(s.actions[s.workers[w].key], call, landed).calls == s.actions[s.workers[w].key].calls + calls;
      Interfere(w);
    }

    /** The apply loop: stops at the first document that is not reported as applied. */
    method ApplyObjects(w: nat) returns (ok: bool, ghost n: nat, ghost calls: seq<Call>)
      requires Valid() && w < |st.workers| && st.workers[w].phase.ActionApplying? && st.workers[w].key in st.actions
      requires var p := st.workers[w].phase; p.i == 0 && p.docs != [] && p.refs == p.base.ownedReferences
      modifies `st, `trace
      ensures Valid() && old(trace) <= trace && |st.workers| == |old(st).workers|
      ensures var me, a := old(st).workers[w], old(st).actions[old(st).workers[w].key];
              && n <= |calls| && StoreProtocol.Matches(calls[..n], me.phase.docs, n)
              && (if ok then n == |me.phase.docs| == |calls| else n < |me.phase.docs| && |calls| <= n + 1)
              && (forall j :: n <= j < |calls| ==> !calls[j].reported)
              && var refs := me.phase.base.ownedReferences + ActionExactness.Reported(calls[..n]);
                 Mine(w, me.(phase := if ok then Succeeding(me.phase.base, refs) else Failing(me.phase.base, refs)),
                      a.(calls := a.calls + calls))
    {
      ghost var me, a := st.workers[w], st.actions[st.workers[w].key];
      var base, docs := st.workers[w].phase.base, st.workers[w].phase.docs;
      calls := [];
      var i := 0;
      assert Mine(w, me.(phase := ActionApplying(base, base.ownedReferences + ActionExactness.Reported(calls), docs,
                                                 i)),
                  a.(calls := a.calls + calls)) by {
        assert base.ownedReferences + ActionExactness.Reported(calls) == base.ownedReferences;
        assert a.calls + calls == a.calls;
        assert ActionStill(a, a);
      }
      while i < |docs|
        invariant i <= |docs| && Valid() && old(trace) <= trace && |st.workers| == |old(st).workers|
        invariant StoreProtocol.Matches(calls, docs, i)
        invariant var refs := base.ownedReferences + ActionExactness.Reported(calls);
                  Mine(w, me.(phase := if i == |docs| then Succeeding(base, refs)
                                       else ActionApplying(base, refs, docs, i)),
                       a.(calls := a.calls + calls))
      {
        ghost var refs := base.ownedReferences + ActionExactness.Reported(calls);
        ghost var before := a.(calls := a.calls + calls);
        ghost var now := st.actions[me.key];
        var applied;
        ghost var call, made;
        applied, call, made := ApplyToAction(w);
        assert a.calls + calls + made == a.calls + (calls + made);
        if !applied {
          assert (calls + made)[..i] == calls;
          return false, i, calls + made;
        }
        StoreProtocol.OneMoreMatch(calls, docs, i, call);
        ActionExactness.ReportedLast(calls, call);
        assert refs + [call.reference] == base.ownedReferences + ActionExactness.Reported(calls + made);
        calls := calls + made;
        i := i + 1;
      }
      assert calls[..i] == calls;
      return true, i, calls;
    }

    /** One UpdateStatus call with the version just fetched. */
    method TryActionUpdate(w: nat) returns (landed: bool)
      requires Valid() && w < |st.workers| && st.workers[w].phase.ActionSaving? && st.workers[w].phase.got.Some?
      requires st.workers[w].key in st.actions
      modifies `st, `trace
      ensures Valid() && old(trace) <= trace && |st.workers| == |old(st).workers|
      ensures var me, a := old(st).workers[w], old(st).actions[old(st).workers[w].key];
              var p := me.phase;
              if landed then
                Mine(w, me.(phase := Leaving), a.(status := SavedAction(p.wanted, p.outcome, a.generation)))
              else
                Mine(w, me.(phase := if p.attempt + 1 < MAX_ATTEMPTS then Retrying(p, p.attempt + 1, None)
                                     else Leaving), a)
    {
      ghost var s := st;
      landed := Version(st, w, st.workers[w].phase.got);
      Do(SaveUpdate(w));
      ActionExactness.SaveShape(s, w);
      Interfere(w);
    }

    /** The Get of one round, unless a call fails for good. */
    method FetchForUpdate(w: nat) returns (failed: bool)
      requires Valid() && w < |st.workers| && (st.workers[w].phase.ActionSaving? || st.workers[w].phase.BackupSaving?)
      requires var me := st.workers[w];
               me.phase.got == None && if me.phase.ActionSaving? then me.key in st.actions else me.key in st.schedules
      modifies `st, `trace
      ensures Valid() && old(trace) <= trace && |st.workers| == |old(st).workers|
      ensures var me, p := old(st).workers[w], old(st).workers[w].phase;
              && Still(old(st), st, me.key)
              && if failed then
                   st.workers[w] == me.(phase := if p.ActionSaving? then Leaving else AfterSaving(p.snap, p.next))
                 else exists version :: st.workers[w] == me.(phase := Retrying(p, p.attempt, Some(version)))
    {
      ghost var s, k := st, st.workers[w].key;
      var failing: bool := *;
      if failing {
        Tell(SaveError(w));
        return true;
      }
      Tell(SaveGet(w));
      failing := *;
      if failing {
        label fetched:
        Tell(SaveError(w));
        StillThen(s, old@fetched(st), st, k);
        return true;
      }
      return false;
    }

    /** One round of RetryOnConflict on an action: get, then update with the version just fetched. */
    method SaveActionOnce(w: nat, attempt: nat) returns (again: bool, ghost at: Option<nat>)
      requires Valid() && w < |st.workers| && st.workers[w].phase.ActionSaving? && st.workers[w].key in st.actions
      requires st.workers[w].phase == Retrying(st.workers[w].phase, attempt, None) && attempt < MAX_ATTEMPTS
      modifies `st, `trace
      ensures Valid() && old(trace) <= trace && |st.workers| == |old(st).workers|
      ensures again ==> attempt + 1 < MAX_ATTEMPTS && at == None
      ensures var me, a := old(st).workers[w], old(st).actions[old(st).workers[w].key];
              if again then Mine(w, me.(phase := Retrying(me.phase, attempt + 1, None)), a)
              else if at.None? then Mine(w, me.(phase := Leaving), a)
              else
                && Mine(w, me.(phase := Leaving),
                        a.(status := SavedAction(me.phase.wanted, me.phase.outcome, at.value)))
                && a.generation <= at.value <= st.actions[me.key].generation
    {
      var failed := FetchForUpdate(w);
      if failed {
        return false, None;
      }
      ghost var generation := st.actions[st.workers[w].key].generation;
      var landed := TryActionUpdate(w);
      return !landed && attempt + 1 < MAX_ATTEMPTS, if landed then Some(generation) else None;
    }

    /** updateObjectStatus and updateStatus on an action: RetryOnConflict around get and update. */
    method UpdateActionStatus(w: nat) returns (ghost at: Option<nat>)
      requires Valid() && w < |st.workers| && st.workers[w].phase.ActionSaving? && st.workers[w].key in st.actions
      requires st.workers[w].phase.attempt == 0 && st.workers[w].phase.got == None
      modifies `st, `trace
      ensures Valid() && old(trace) <= trace && |st.workers| == |old(st).workers|
      ensures var me, a := old(st).workers[w], old(st).actions[old(st).workers[w].key];
              if at.None? then Mine(w, me.(phase := Leaving), a)
              else
                var wanted, outcome := me.phase.wanted, me.phase.outcome;
                && Mine(w, me.(phase := Leaving), a.(status :=
                     if outcome.None? then wanted
                     else wanted.(conditions := wanted.conditions[INSTALLATION := Condition(outcome.value, at.value)],
                                  healthy := wanted.healthy && outcome.value == True)))
                && a.generation <= at.value <= st.actions[me.key].generation
    {
      ghost var me, a := st.workers[w], st.actions[st.workers[w].key];
      var attempt, again := 0, true;
      at := None;
      while again
        invariant again ==> attempt < MAX_ATTEMPTS && at == None
        invariant Valid() && old(trace) <= trace && |st.workers| == |old(st).workers|
        invariant if again then Mine(w, me.(phase := Retrying(me.phase, attempt, None)), a)
                  else if at.None? then Mine(w, me.(phase := Leaving), a)
                  else
                    && Mine(w, me.(phase := Leaving),
                            a.(status := SavedAction(me.phase.wanted, me.phase.outcome, at.value)))
                    && a.generation <= at.value <= st.actions[me.key].generation
        decreases if again then MAX_ATTEMPTS - attempt else 0, again
      {
        again, at := SaveActionOnce(w, attempt);
        attempt := attempt + 1;
      }
    }

    /** Apply the rendered documents and store the outcome; `a` is the action before it was rendered. */
    method ApplyAndStore(w: nat, ghost a: Action) returns (result: Outcome, ghost pass: ActionPass)
      requires Valid() && w < |st.workers| && st.workers[w].phase.ActionApplying? && st.workers[w].key in st.actions
      requires var p := st.workers[w].phase;
               && p.i == 0 && p.docs != [] && p.base == a.status && !a.status.processed
               && p.refs == p.base.ownedReferences && (forall d :: d in p.docs ==> d.gvk == JOB)
               && ActionStill(a.(passes := a.passes + [p.docs]), st.actions[st.workers[w].key])
      modifies `st, `trace
      ensures Valid() && old(trace) <= trace && |st.workers| == |old(st).workers|
      ensures st.workers[w] == old(st).workers[w].(phase := Leaving)
      ensures result == ActionOutcome(pass) && (pass.Broken? || pass.Complete?)
      ensures pass.docs == old(st).workers[w].phase.docs
      ensures var key := old(st).workers[w].key; key in st.actions && Explains(a, st.actions[key], pass)
    {
      ghost var key := st.workers[w].key;
      var docs := st.workers[w].phase.docs;
      var ok;
      ghost var n, calls;
      ok, n, calls := ApplyObjects(w);
      ghost var at := UpdateActionStatus(w);
      Tried(a, st.actions[key], docs, n, calls);
      if !ok {
        return Outcome(30, true), Broken(docs, n, at);
      }
      assert calls[..n] == calls;
      return Outcome(0, false), Complete(docs, at);
    }

    /** What Reconcile does to an unprocessed action: render, apply, store the outcome. */
    method Perform(w: nat, out: Outside, action: Operation) returns (result: Outcome, ghost pass: ActionPass)
      requires Valid() && w < |st.workers| && st.workers[w].phase.ActionRendering? && st.workers[w].key in st.actions
      requires var a := st.actions[st.workers[w].key]; st.workers[w].phase.base == a.status && !a.status.processed
      modifies `st, `trace
      ensures Valid() && old(trace) <= trace && |st.workers| == |old(st).workers|
      ensures st.workers[w] == old(st).workers[w].(phase := Leaving)
      ensures result == ActionOutcome(pass) && !pass.Refused? && !pass.NotFetched? && !pass.WasProcessed?
      ensures out.fetches && out.hydrates ==> ActionFrom(out, decode, action, true, pass)
      ensures var key := old(st).workers[w].key;
              key in st.actions && Explains(old(st).actions[key], st.actions[key], pass)
    {
      ghost var at;
      ghost var a, key := st.actions[st.workers[w].key], st.workers[w].key;
      var docs := RenderAction(w, out, action);
      if docs == [] {
        assert a.status.ownedReferences + [] == a.status.ownedReferences;
        at := UpdateActionStatus(w);
        return Outcome(30, true), NotRendered(at);
      }
      result, pass := ApplyAndStore(w, a);
    }

    /** Reconcile once the lock is obtained. */
    method Proceed(w: nat, out: Outside, action: Operation) returns (result: Outcome, ghost pass: ActionPass)
      requires Valid() && w < |st.workers| && st.workers[w].phase.Holding? && st.workers[w].role.ActionReconciler?
      modifies `st, `trace
      ensures Valid() && old(trace) <= trace && |st.workers| == |old(st).workers|
      ensures st.workers[w] == old(st).workers[w].(phase := Leaving)
      ensures result == ActionOutcome(pass) && !pass.Refused?
      ensures ActionFrom(out, decode, action, old(st).workers[w].key in old(st).actions, pass)
      ensures var key := old(st).workers[w].key;
              if key in old(st).actions then
                key in st.actions && Explains(old(st).actions[key], st.actions[key], pass)
              else pass.NotFetched?
    {
      if !out.fetches || st.workers[w].key !in st.actions {
        Tell(FetchError(w));
        return Outcome(30, true), NotFetched;
      }
      Tell(ReadAction(w));
      var base := st.workers[w].phase.base;
      Tell(Hydrate(w, out.hydrates));
      if !out.hydrates {
        return Outcome(30, true), NotFetched;
      }
      if base.processed {
        return Outcome(0, false), WasProcessed;
      }
      result, pass := Perform(w, out, action);
    }

    /** RequestedBackupActionReconciler.Reconcile */
    method ReconcileAction(w: nat, key: Request, out: Outside, action: Operation)
      returns (result: Outcome, ghost pass: ActionPass)
      requires Valid() && w < |st.workers| && st.workers[w].phase.Idle? && st.workers[w].role.ActionReconciler?
      modifies `st, `trace
      ensures Valid() && old(trace) <= trace && |st.workers| == |old(st).workers| && st.workers[w].phase.Idle?
      ensures result == ActionOutcome(pass) && ActionFrom(out, decode, action, key in old(st).actions, pass)
      ensures pass.Refused? <==> LockId(key) in old(st).locks
      ensures !pass.Refused? ==> LockId(key) !in st.locks
      ensures key in old(st).actions ==> key in st.actions && Explains(old(st).actions[key], st.actions[key], pass)
      ensures key !in old(st).actions ==> pass.Refused? || pass.NotFetched?
    {
      var locked := Obtain(w, key);
      if locked {
        return LOCKED, Refused;
      }
      result, pass := Proceed(w, out, action);
      Release(w);
    }

    /** A List call with the label selector; it may fail, and returns the Jobs in any order. */
    method ListJobs(namespace: string, id: TrackingId) returns (reading: Reading)
      ensures reading.Some? ==> Lists(st.objects, namespace, id, reading.value)
    {
      var failing: bool := *;
      if failing {
        return None;
      }
      var pending := JobsOf(st.objects, namespace, id);
      var jobs: seq<Item> := [];
      while pending != {}
        invariant multiset(jobs) + multiset(pending) == multiset(JobsOf(st.objects, namespace, id))
        decreases pending
      {
        var job :| job in pending;
        jobs, pending := jobs + [job], pending - {job};
      }
      return Some(jobs);
    }

    /** The health loop over an action's references, each listing at its own moment. */
    method ExamineAction(w: nat) returns (ghost evidence: seq<Reading>)
      requires Valid() && w < |st.workers| && st.workers[w].key in st.actions
      requires st.workers[w].phase.ActionExamining? && st.workers[w].phase.readings == []
      modifies `st, `trace
      ensures Valid() && old(trace) <= trace && |st.workers| == |old(st).workers|
      ensures var me, a := old(st).workers[w], old(st).actions[old(st).workers[w].key];
              && Examined(me.phase.base.ownedReferences, evidence)
              && Mine(w, me.(phase := ActionExamining(me.phase.base, evidence)), a)
    {
      ghost var me, a := st.workers[w], st.actions[st.workers[w].key];
      var base := st.workers[w].phase.base;
      var refs := base.ownedReferences;
      var i := 0;
      evidence := [];
      while i < |refs| && !SoFar(st.workers[w].phase).erred
        invariant i == |evidence| <= |refs| && Valid() && old(trace) <= trace && |st.workers| == |old(st).workers|
        invariant Mine(w, me.(phase := ActionExamining(base, evidence)), a)
      {
        var reading := ListJobs(st.workers[w].key.namespace, refs[i].trackingId);
        assert !Restarts(st, Examine(w, reading)) by {
          Sound();
          OnlyCrashRestarts(st, Examine(w, reading));
        }
        Do(Examine(w, reading));
        Interfere(w);
        evidence := evidence + [reading];
        i := i + 1;
      }
    }

    /** What the observer does once it holds the action: examine, wait for running Jobs, publish. */
    method Report(w: nat) returns (result: Outcome, ghost pass: ObserverPass)
      requires Valid() && w < |st.workers| && st.workers[w].key in st.actions
      requires st.workers[w].phase == ActionExamining(st.actions[st.workers[w].key].status, [])
      modifies `st, `trace
      ensures Valid() && old(trace) <= trace && |st.workers| == |old(st).workers|
      ensures st.workers[w] == old(st).workers[w].(phase := Leaving)
      ensures result == ObserverOutcome(pass) && (pass.StillRunning? || pass.Published?)
      ensures var key := old(st).workers[w].key;
              key in st.actions && ExplainsObserver(old(st).actions[key], st.actions[key], pass)
    {
      ghost var evidence := ExamineAction(w);
      Tell(Judge(w));
      if st.workers[w].phase.Leaving? {
        return Outcome(10, false), StillRunning(evidence);
      }
      ghost var at := UpdateActionStatus(w);
      return Outcome(0, false), Published(evidence, at);
    }

    /** The observer's Reconcile once the lock is obtained. */
    method Observe(w: nat, out: Outside) returns (result: Outcome, ghost pass: ObserverPass)
      requires Valid() && w < |st.workers| && st.workers[w].phase.Holding? && st.workers[w].role.ActionObserver?
      modifies `st, `trace
      ensures Valid() && old(trace) <= trace && |st.workers| == |old(st).workers|
      ensures st.workers[w] == old(st).workers[w].(phase := Leaving)
      ensures result == ObserverOutcome(pass) && !pass.Denied?
      ensures pass.NotRead? <==> !(old(st).workers[w].key in old(st).actions && out.fetches && out.hydrates)
      ensures var key := old(st).workers[w].key;
              key in old(st).actions ==>
                key in st.actions && ExplainsObserver(old(st).actions[key], st.actions[key], pass)
    {
      if !out.fetches || st.workers[w].key !in st.actions {
        Tell(FetchError(w));
        return Outcome(0, true), NotRead;
      }
      Tell(ReadAction(w));
      Tell(Hydrate(w, out.hydrates));
      if !out.hydrates {
        return Outcome(0, true), NotRead;
      }
      result, pass := Report(w);
    }

    /** JobsManagedByRequestedBackupActionObserver.Reconcile */
    method ObserveAction(w: nat, key: Request, out: Outside) returns (result: Outcome, ghost pass: ObserverPass)
      requires Valid() && w < |st.workers| && st.workers[w].phase.Idle? && st.workers[w].role.ActionObserver?
      modifies `st, `trace
      ensures Valid() && old(trace) <= trace && |st.workers| == |old(st).workers| && st.workers[w].phase.Idle?
      ensures result == ObserverOutcome(pass)
      ensures pass.Denied? <==> LockId(key) in old(st).locks
      ensures !pass.Denied? ==> LockId(key) !in st.locks
      ensures !pass.Denied? ==> (pass.NotRead? <==> !(key in old(st).actions && out.fetches && out.hydrates))
      ensures key in old(st).actions ==>
                key in st.actions && ExplainsObserver(old(st).actions[key], st.actions[key], pass)
    {
      var locked := Obtain(w, key);
      if locked {
        return LOCKED, Denied;
      }
      result, pass := Observe(w, out);
      Release(w);
    }

    // ----- ScheduledBackup -----

    ghost predicate MySchedule(w: nat, me: Worker, b: Schedule, status: BackupStatus, applies: seq<BackupVersion>,
                               installed: seq<Installation>)
      reads this
    {
      && w < |st.workers| && st.workers[w] == me && me.key in st.schedules
      && Became(b, st.schedules[me.key], status, applies, installed)
    }

    /** The status stored under generation `at`, or the one from before when the write was lost. */
    ghost function SavedAt(p: Phase, c: Schedule, at: Option<nat>): BackupStatus
      requires p.BackupSaving? && c.history != []
    {
      if at.None? then c.Current().status
      else SavedBackup(p.snap, p.change, BackupVersion(c.Current().spec, at.value, c.Current().status))
    }

    /** One UpdateStatus call with the version just fetched. */
    method TryBackupUpdate(w: nat) returns (landed: bool)
      requires Valid() && w < |st.workers| && st.workers[w].phase.BackupSaving? && st.workers[w].phase.got.Some?
      requires st.workers[w].key in st.schedules && st.schedules[st.workers[w].key].history != []
      modifies `st, `trace
      ensures Valid() && old(trace) <= trace && |st.workers| == |old(st).workers|
      ensures var me, c := old(st).workers[w], old(st).schedules[old(st).workers[w].key];
              var p := me.phase;
              if landed then
                MySchedule(w, me.(phase := AfterSaving(p.snap, p.next)), c, SavedBackup(p.snap, p.change, c.Current()),
                           c.applies, c.installed)
              else
                MySchedule(w, me.(phase := if p.attempt + 1 < MAX_ATTEMPTS then Retrying(p, p.attempt + 1, None)
                                           else AfterSaving(p.snap, p.next)),
                           c, c.Current().status, c.applies, c.installed)
    {
      ghost var s, me, c := st, st.workers[w], st.schedules[st.workers[w].key];
      landed := Version(st, w, st.workers[w].phase.got);
      Do(SaveUpdate(w));
      SaveBackupShape(s, w);
      assert MySchedule(w, st.workers[w], c, if landed then SavedBackup(me.phase.snap, me.phase.change, c.Current())
                                             else c.Current().status, c.applies, c.installed);
      Interfere(w);
    }

    /** One round of RetryOnConflict on a scheduled backup. */
    method SaveBackupOnce(w: nat, attempt: nat) returns (again: bool, ghost at: Option<nat>)
      requires Valid() && w < |st.workers| && st.workers[w].phase.BackupSaving? && st.workers[w].key in st.schedules
      requires st.workers[w].phase == Retrying(st.workers[w].phase, attempt, None) && attempt < MAX_ATTEMPTS
      requires st.schedules[st.workers[w].key].history != []
      modifies `st, `trace
      ensures Valid() && old(trace) <= trace && |st.workers| == |old(st).workers|
      ensures again ==> attempt + 1 < MAX_ATTEMPTS && at == None
      ensures var me, c := old(st).workers[w], old(st).schedules[old(st).workers[w].key];
              MySchedule(w, me.(phase := if again then Retrying(me.phase, attempt + 1, None)
                                         else AfterSaving(me.phase.snap, me.phase.next)),
                         c, SavedAt(me.phase, c, at), c.applies, c.installed)
    {
      var failed := FetchForUpdate(w);
      if failed {
        return false, None;
      }
      ghost var generation := st.schedules[st.workers[w].key].Current().generation;
      var landed := TryBackupUpdate(w);
      return !landed && attempt + 1 < MAX_ATTEMPTS, if landed then Some(generation) else None;
    }

    /** updateObject and updateStatus on a scheduled backup: RetryOnConflict around get and update. */
    method UpdateBackupStatus(w: nat) returns (ghost at: Option<nat>)
      requires Valid() && w < |st.workers| && st.workers[w].phase.BackupSaving? && st.workers[w].key in st.schedules
      requires st.workers[w].phase.attempt == 0 && st.workers[w].phase.got == None
      requires st.schedules[st.workers[w].key].history != []
      modifies `st, `trace
      ensures Valid() && old(trace) <= trace && |st.workers| == |old(st).workers|
      ensures var me, c := old(st).workers[w], old(st).schedules[old(st).workers[w].key];
              MySchedule(w, me.(phase := AfterSaving(me.phase.snap, me.phase.next)), c, SavedAt(me.phase, c, at),
                         c.applies, c.installed)
    {
      ghost var me, c := st.workers[w], st.schedules[st.workers[w].key];
      var attempt, again := 0, true;
      at := None;
      while again
        invariant again ==> attempt < MAX_ATTEMPTS && at == None
        invariant Valid() && old(trace) <= trace && |st.workers| == |old(st).workers|
        invariant MySchedule(w, me.(phase := if again then Retrying(me.phase, attempt, None)
                                             else AfterSaving(me.phase.snap, me.phase.next)),
                             c, SavedAt(me.phase, c, at), c.applies, c.installed)
        decreases if again then MAX_ATTEMPTS - attempt else 0, again
      {
        again, at := SaveBackupOnce(w, attempt);
        attempt := attempt + 1;
      }
    }

    /** A condition is stored, or lost; with True goes the hash of what was applied. */
    method MarkBackup(w: nat, ghost b: Schedule, ghost first: BackupStatus, ghost marks: seq<Condition>)
      returns (ghost more: seq<Condition>)
      requires Valid() && w < |st.workers| && st.workers[w].phase.BackupSaving? && st.workers[w].phase.change.Mark?
      requires st.workers[w].phase.attempt == 0 && st.workers[w].phase.got == None && st.workers[w].key in st.schedules
      requires Became(b, st.schedules[st.workers[w].key], Marked(first, st.workers[w].phase.snap, marks),
                      st.schedules[st.workers[w].key].applies, st.schedules[st.workers[w].key].installed)
      modifies `st, `trace
      ensures Valid() && old(trace) <= trace && |st.workers| == |old(st).workers|
      ensures var me, c := old(st).workers[w], old(st).schedules[old(st).workers[w].key];
              MySchedule(w, me.(phase := AfterSaving(me.phase.snap, me.phase.next)), b,
                         Marked(first, me.phase.snap, more), c.applies, c.installed)
              && c.history <= st.schedules[me.key].history
      ensures more == marks || (|more| == |marks| + 1 && more[..|marks|] == marks
                                && more[|marks|].status == old(st).workers[w].phase.change.outcome)
    {
      ghost var p := st.workers[w].phase;
      ghost var at := UpdateBackupStatus(w);
      more := marks;
      if at.Some? {
        more := marks + [Condition(p.change.outcome, at.value)];
        MarkedOnce(first, p.snap, marks, Condition(p.change.outcome, at.value));
      }
    }

    /** The manifests of both operations, each through its own filter, or an error. */
    method RenderDocuments(out: Outside, spec: BackupSpec) returns (result: Option<seq<Document>>)
      requires SoundDecoder(decode)
      ensures out.PrintsForBackup(decode, spec, result)
      ensures result.Some? ==> forall d :: d in result.value ==> d.gvk != JOB
    {
      if !out.generates {
        return None;
      }
      result := RenderScheduledBackup(out.manifest, decode, spec.operation, spec.cronJobEnabled);
      RenderedKinds(out.manifest, decode, spec.operation, spec.cronJobEnabled, Backup);
      RenderedKinds(out.manifest, decode, spec.operation, spec.cronJobEnabled, Restore);
    }

    /** Rendering, up to the point where the first document is about to be applied. */
    method RenderBackup(w: nat, out: Outside) returns (docs: seq<Document>)
      requires Valid() && w < |st.workers| && st.workers[w].phase.BackupRendering? && st.workers[w].key in st.schedules
      requires st.schedules[st.workers[w].key].history != []
      modifies `st, `trace
      ensures Valid() && old(trace) <= trace && |st.workers| == |old(st).workers|
      ensures var spec := old(st).workers[w].phase.snap.spec;
              out.PrintsForBackup(decode, spec, Some(docs)) || (docs == [] && out.PrintsForBackup(decode, spec, None))
      ensures var me, c := old(st).workers[w], old(st).schedules[old(st).workers[w].key];
              var snap := me.phase.snap;
              MySchedule(w, me.(phase := if docs == [] then Marking(snap, False, ThenLeave)
                                         else BackupApplying(snap, docs, 0, [])),
                         c, c.Current().status, c.applies, c.installed)
    {
      var result := RenderDocuments(out, st.workers[w].phase.snap.spec);
      docs := if result.Some? then result.value else [];
      Do(Render(w, result));
      Interfere(w);
    }

    /** What one document does to the schedule and to the worker. */
    static lemma DocumentApplied(s: State, w: nat, api: Answers, acknowledged: bool)
      requires w < |s.workers| && s.workers[w].phase.BackupApplying? && s.workers[w].key in s.schedules
      requires s.workers[w].phase.i < |s.workers[w].phase.docs| && s.schedules[s.workers[w].key].history != []
      ensures var t, me := NextApply(s, w, api, acknowledged), s.workers[w];
              var doc := me.phase.docs[me.phase.i];
              var call := CallFor(doc, me.key.namespace, api.suffix, s.nextId, acknowledged);
              var ok := CallSucceeds(s.objects, doc, me.key.namespace, api) && acknowledged;
              var d := AppliedOn(s.schedules[me.key], me.phase, call, ok);
              && |t.workers| == |s.workers| && t.workers[w] == me.(phase := AppliedBackupPhase(me.phase, call, ok))
              && t.workers[w].Inside() && me.key in t.schedules && t.schedules[me.key] == d
              && d.history == s.schedules[me.key].history && (ok ==> StoreProtocol.Applied(call, doc))
    {
      ApplyBackupShape(s, w, api, acknowledged);
    }

    /** One document of a scheduled backup. */
    method ApplyToBackup(w: nat) returns (ok: bool, ghost call: Call)
      requires Valid() && w < |st.workers| && st.workers[w].phase.BackupApplying? && st.workers[w].key in st.schedules
      requires st.workers[w].phase.i < |st.workers[w].phase.docs| && st.schedules[st.workers[w].key].history != []
      modifies `st, `trace
      ensures Valid() && old(trace) <= trace && |st.workers| == |old(st).workers|
      ensures ok ==> StoreProtocol.Applied(call, old(st).workers[w].phase.docs[old(st).workers[w].phase.i])
      ensures var me, c := old(st).workers[w], old(st).schedules[old(st).workers[w].key];
              var d := AppliedOn(c, me.phase, call, ok);
              MySchedule(w, me.(phase := AppliedBackupPhase(me.phase, call, ok)), c, c.Current().status, d.applies,
                         d.installed)
    {
      var api: Answers, acknowledged: bool := *, *;
      ghost var s := st;
      var p := st.workers[w].phase;
      ok := CallSucceeds(st.objects, p.docs[p.i], st.workers[w].key.namespace, api) && acknowledged;
      call := CallFor(p.docs[p.i], st.workers[w].key.namespace, api.suffix, st.nextId, acknowledged);
      DocumentApplied(st, w, api, acknowledged);
      Do(ApplyDoc(w, api, acknowledged));
      assert st == NextApply(s, w, api, acknowledged);
      Interfere(w);
    }

    /** The apply loop: complete with one reported call per document, in order, or not at all on record; the references
        it would collect are never stored. */
    method ApplyBackupObjects(w: nat) returns (ok: bool, ghost made: seq<Call>)
      requires Valid() && w < |st.workers| && st.workers[w].phase.BackupApplying? && st.workers[w].key in st.schedules
      requires var p := st.workers[w].phase; p.i == 0 && p.made == [] && p.docs != []
      requires st.schedules[st.workers[w].key].history != []
      modifies `st, `trace
      ensures Valid() && old(trace) <= trace && |st.workers| == |old(st).workers|
      ensures var p := old(st).workers[w].phase; ok ==> StoreProtocol.Matches(made, p.docs, |p.docs|)
      ensures var me, c := old(st).workers[w], old(st).schedules[old(st).workers[w].key];
              var snap, docs := me.phase.snap, me.phase.docs;
              MySchedule(w, me.(phase := Marking(snap, if ok then True else False, ThenLeave)), c, c.Current().status,
                         if ok then c.applies + [snap] else c.applies,
                         if ok then c.installed + [Installation(docs, made)] else c.installed)
    {
      ghost var me, c := st.workers[w], st.schedules[st.workers[w].key];
      var snap, docs := st.workers[w].phase.snap, st.workers[w].phase.docs;
      assert me == me.(phase := BackupApplying(snap, docs, 0, []));
      var i := 0;
      made := [];
      while i < |docs|
        invariant i <= |docs| && Valid() && old(trace) <= trace && |st.workers| == |old(st).workers|
        invariant StoreProtocol.Matches(made, docs, i)
        invariant MySchedule(w, me.(phase := if i == |docs| then Marking(snap, True, ThenLeave)
                                             else BackupApplying(snap, docs, i, made)),
                             c, c.Current().status, if i == |docs| then c.applies + [snap] else c.applies,
                             if i == |docs| then c.installed + [Installation(docs, made)] else c.installed)
      {
        var applied;
        ghost var call;
        applied, call := ApplyToBackup(w);
        if !applied {
          return false, made;
        }
        StoreProtocol.OneMoreMatch(made, docs, i, call);
        made := made + [call];
        i := i + 1;
      }
      return true, made;
    }

    /** ApplyObjects on a scheduled backup: render, then apply one document after the other. */
    method PutInPlace(w: nat, out: Outside)
      returns (ok: bool, docs: seq<Document>, ghost made: seq<Call>)
      requires Valid() && w < |st.workers| && st.workers[w].phase.BackupRendering? && st.workers[w].key in st.schedules
      requires st.schedules[st.workers[w].key].history != []
      modifies `st, `trace
      ensures Valid() && old(trace) <= trace && |st.workers| == |old(st).workers|
      ensures var spec := old(st).workers[w].phase.snap.spec;
              ok ==> && docs != [] && StoreProtocol.Matches(made, docs, |docs|)
                     && out.PrintsForBackup(decode, spec, Some(docs))
      ensures var me, c := old(st).workers[w], old(st).schedules[old(st).workers[w].key];
              var snap := me.phase.snap;
              MySchedule(w, me.(phase := Marking(snap, if ok then True else False, ThenLeave)), c, c.Current().status,
                         if ok then c.applies + [snap] else c.applies,
                         if ok then c.installed + [Installation(docs, made)] else c.installed)
    {
      docs := RenderBackup(w, out);
      ok, made := false, [];
      if docs != [] {
        ok, made := ApplyBackupObjects(w);
      }
    }

    /** What Reconcile does to a changed spec once its dependencies are there: render, apply, record. */
    method Install(w: nat, out: Outside, ghost b: Schedule, ghost marks: seq<Condition>)
      returns (result: Outcome, ghost pass: BackupPass)
      requires Valid() && w < |st.workers| && st.workers[w].phase.BackupRendering? && st.workers[w].key in st.schedules
      requires b.history != [] && MarkedAs(marks, Unknown) && |marks| <= 1
      requires var snap := st.workers[w].phase.snap;
               && snap in st.schedules[st.workers[w].key].history && snap.HasSpecChanged()
               && Became(b, st.schedules[st.workers[w].key], Marked(b.Current().status, snap, marks), b.applies,
                         b.installed)
      modifies `st, `trace
      ensures Valid() && old(trace) <= trace && |st.workers| == |old(st).workers|
      ensures st.workers[w] == old(st).workers[w].(phase := Leaving)
      ensures result == BackupOutcome(pass) && (pass.Unapplied? || pass.Applied?)
      ensures out.fetches && out.hydrates ==> BackupFrom(out, decode, true, pass)
      ensures var key := old(st).workers[w].key;
              key in st.schedules && ExplainsBackup(b, st.schedules[key], pass)
    {
      ghost var key, before := st.workers[w].key, st.schedules[st.workers[w].key];
      ghost var snap := st.workers[w].phase.snap;
      var ok, docs;
      ghost var made;
      ok, docs, made := PutInPlace(w, out);
      ghost var more := MarkBackup(w, b, b.Current().status, marks);
      PrefixMember(before.history, st.schedules[key].history, snap);
      if !ok {
        return Outcome(60, false), Unapplied(snap, more);
      }
      return Outcome(0, false), Applied(snap, Installation(docs, made), more);
    }

    /** The version the cache holds, which may be any; `busy` is the answer of IsBeingReconciledAlready on it. */
    method FetchBackup(w: nat) returns (snap: BackupVersion, busy: bool)
      requires Valid() && w < |st.workers| && st.workers[w].phase.Holding?
      requires st.workers[w].role.BackupReconciler? || st.workers[w].role.BackupObserver?
      requires st.workers[w].key in st.schedules && st.schedules[st.workers[w].key].history != []
      modifies `st, `trace
      ensures Valid() && old(trace) <= trace && |st.workers| == |old(st).workers|
      ensures busy ==> snap.MayBeBusy()
      ensures var me := old(st).workers[w];
              && st.workers[w] == me.(phase := if me.role.BackupReconciler? && (!snap.HasSpecChanged() || busy)
                                              then Leaving else BackupRead(snap))
              && me.key in st.schedules && snap in st.schedules[me.key].history
              && ScheduleStill(old(st).schedules[me.key], st.schedules[me.key])
    {
      var history := st.schedules[st.workers[w].key].history;
      var version: int := *;
      busy := *;
      if version < 0 || |history| <= version {
        version := |history| - 1;
      }
      snap := history[version];
      busy := busy && snap.MayBeBusy();
      Tell(ReadBackup(w, version, busy));
      PrefixMember(history, st.schedules[st.workers[w].key].history, snap);
    }

    /** A dependency is missing: say so, and come back soon. */
    method Refuse(w: nat, ghost b: Schedule, ghost marks: seq<Condition>)
      returns (result: Outcome, ghost pass: BackupPass)
      requires Valid() && w < |st.workers| && st.workers[w].key in st.schedules && b.history != []
      requires st.workers[w].phase.BackupSaving? && MarkedAs(marks, Unknown) && |marks| <= 1
      requires var snap := st.workers[w].phase.snap;
               && st.workers[w].phase == Marking(snap, False, ThenLeave)
               && snap in st.schedules[st.workers[w].key].history && snap.HasSpecChanged()
               && Became(b, st.schedules[st.workers[w].key], Marked(b.Current().status, snap, marks), b.applies,
                         b.installed)
      modifies `st, `trace
      ensures Valid() && old(trace) <= trace && |st.workers| == |old(st).workers|
      ensures st.workers[w] == old(st).workers[w].(phase := Leaving)
      ensures result == BackupOutcome(pass) && pass.Unhydrated?
      ensures var key := old(st).workers[w].key;
              key in st.schedules && ExplainsBackup(b, st.schedules[key], pass)
    {
      ghost var key, snap := st.workers[w].key, st.workers[w].phase.snap;
      ghost var before := st.schedules[key].history;
      ghost var more := MarkBackup(w, b, b.Current().status, marks);
      PrefixMember(before, st.schedules[key].history, snap);
      return Outcome(5, false), Unhydrated(snap, more);
    }

    /** Hydrate, and announce the pass in either case. */
    method Announce(w: nat, hydrates: bool, ghost b: Schedule) returns (ghost marks: seq<Condition>)
      requires Valid() && w < |st.workers| && st.workers[w].phase.BackupRead? && st.workers[w].role.BackupReconciler?
      requires st.workers[w].key in st.schedules && ScheduleStill(b, st.schedules[st.workers[w].key])
      requires st.workers[w].phase.snap in st.schedules[st.workers[w].key].history
      modifies `st, `trace
      ensures Valid() && old(trace) <= trace && |st.workers| == |old(st).workers|
      ensures var me := old(st).workers[w];
              && st.workers[w] == me.(phase := if hydrates then BackupRendering(me.phase.snap)
                                              else Marking(me.phase.snap, False, ThenLeave))
              && me.key in st.schedules && me.phase.snap in st.schedules[me.key].history
              && MarkedAs(marks, Unknown) && |marks| <= 1 && b.history != []
              && Became(b, st.schedules[me.key], Marked(b.Current().status, me.phase.snap, marks), b.applies,
                        b.installed)
    {
      ghost var key, snap := st.workers[w].key, st.workers[w].phase.snap;
      ghost var before := st.schedules[key].history;
      Tell(Hydrate(w, hydrates));
      marks := MarkBackup(w, b, b.Current().status, []);
      PrefixMember(before, st.schedules[key].history, snap);
    }

    /** What Reconcile does to a changed spec. */
    method ReconcileChanged(w: nat, out: Outside, ghost b: Schedule)
      returns (result: Outcome, ghost pass: BackupPass)
      requires Valid() && w < |st.workers| && st.workers[w].phase.BackupRead? && st.workers[w].role.BackupReconciler?
      requires st.workers[w].key in st.schedules && ScheduleStill(b, st.schedules[st.workers[w].key])
      requires st.workers[w].phase.snap.HasSpecChanged()
      requires st.workers[w].phase.snap in st.schedules[st.workers[w].key].history
      modifies `st, `trace
      ensures Valid() && old(trace) <= trace && |st.workers| == |old(st).workers|
      ensures st.workers[w] == old(st).workers[w].(phase := Leaving)
      ensures result == BackupOutcome(pass) && !pass.Shut? && !pass.Missing?
      ensures out.fetches ==> BackupFrom(out, decode, true, pass)
      ensures var key := old(st).workers[w].key;
              key in st.schedules && ExplainsBackup(b, st.schedules[key], pass)
    {
      ghost var marks := Announce(w, out.hydrates, b);
      if out.hydrates {
        result, pass := Install(w, out, b, marks);
      } else {
        result, pass := Refuse(w, b, marks);
      }
    }

    /** ScheduledBackupReconciler.Reconcile */
    method ReconcileBackup(w: nat, key: Request, out: Outside) returns (result: Outcome, ghost pass: BackupPass)
      requires Valid() && w < |st.workers| && st.workers[w].phase.Idle? && st.workers[w].role.BackupReconciler?
      modifies `st, `trace
      ensures Valid() && old(trace) <= trace && |st.workers| == |old(st).workers| && st.workers[w].phase.Idle?
      ensures result == BackupOutcome(pass) && BackupFrom(out, decode, key in old(st).schedules, pass)
      ensures pass.Shut? <==> LockId(key) in old(st).locks
      ensures !pass.Shut? ==> LockId(key) !in st.locks
      ensures key in old(st).schedules ==>
                key in st.schedules && ExplainsBackup(old(st).schedules[key], st.schedules[key], pass)
      ensures key !in old(st).schedules ==> pass.Shut? || pass.Missing?
    {
      Sound();
      assert key in st.schedules ==> ScheduleSound(st.schedules[key]);
      var locked := Obtain(w, key);
      if locked {
        return LOCKED, Shut;
      }
      if !out.fetches || key !in st.schedules {
        Tell(FetchError(w));
        Release(w);
        return Outcome(0, true), Missing;
      }
      result, pass := ReconcileFetched(w, out, old(st).schedules[key]);
      Release(w);
    }

    /** The rest of Reconcile, from reading the cache on. */
    method ReconcileFetched(w: nat, out: Outside, ghost b: Schedule)
      returns (result: Outcome, ghost pass: BackupPass)
      requires Valid() && w < |st.workers| && st.workers[w].phase.Holding? && st.workers[w].role.BackupReconciler?
      requires st.workers[w].key in st.schedules && ScheduleStill(b, st.schedules[st.workers[w].key])
      modifies `st, `trace
      ensures Valid() && old(trace) <= trace && |st.workers| == |old(st).workers|
      ensures st.workers[w] == old(st).workers[w].(phase := Leaving)
      ensures result == BackupOutcome(pass) && !pass.Shut? && !pass.Missing?
      ensures out.fetches ==> BackupFrom(out, decode, true, pass)
      ensures var key := old(st).workers[w].key;
              key in st.schedules && ExplainsBackup(b, st.schedules[key], pass)
    {
      ghost var key := st.workers[w].key;
      var snap, busy := FetchBackup(w);
      if !(snap.HasSpecChanged() && !busy) {
        return Outcome(0, false), Unchanged(snap);
      }
      result, pass := ReconcileChanged(w, out, b);
    }

    /** JobsManagedByScheduledBackupObserver.Reconcile */
    method ObserveBackup(w: nat, key: Request, out: Outside)
      returns (result: Outcome, ghost pass: BackupObserverPass)
      requires Valid() && w < |st.workers| && st.workers[w].phase.Idle? && st.workers[w].role.BackupObserver?
      modifies `st, `trace
      ensures Valid() && old(trace) <= trace && |st.workers| == |old(st).workers| && st.workers[w].phase.Idle?
      ensures result == BackupObserverOutcome(pass)
      ensures pass.Excluded? <==> LockId(key) in old(st).locks
      ensures !pass.Excluded? ==> LockId(key) !in st.locks
      ensures !pass.Excluded? ==> (pass.NotHydrated? <==> !(key in old(st).schedules && out.fetches && out.hydrates))
      ensures key in old(st).schedules ==>
                key in st.schedules && ExplainsBackupObserver(old(st).schedules[key], st.schedules[key], pass)
      ensures key !in old(st).schedules ==> pass.Excluded? || pass.NotHydrated?
    {
      Sound();
      assert key in st.schedules ==> ScheduleSound(st.schedules[key]);
      var locked := Obtain(w, key);
      if locked {
        return LOCKED, Excluded;
      }
      if !out.fetches || key !in st.schedules {
        Tell(FetchError(w));
        Release(w);
        return Outcome(0, true), NotHydrated;
      }
      result, pass := ObserveFetched(w, out, old(st).schedules[key]);
      Release(w);
    }

    /** The rest of the observer's Reconcile, from reading the cache on. */
    method ObserveFetched(w: nat, out: Outside, ghost b: Schedule)
      returns (result: Outcome, ghost pass: BackupObserverPass)
      requires Valid() && w < |st.workers| && st.workers[w].phase.Holding? && st.workers[w].role.BackupObserver?
      requires st.workers[w].key in st.schedules && ScheduleStill(b, st.schedules[st.workers[w].key])
      modifies `st, `trace
      ensures Valid() && old(trace) <= trace && |st.workers| == |old(st).workers|
      ensures st.workers[w] == old(st).workers[w].(phase := Leaving)
      ensures result == BackupObserverOutcome(pass) && !pass.Excluded? && (pass.NotHydrated? <==> !out.hydrates)
      ensures var key := old(st).workers[w].key;
              key in st.schedules && ExplainsBackupObserver(b, st.schedules[key], pass)
    {
      ghost var key := st.workers[w].key;
      var snap, _ := FetchBackup(w);
      ghost var before := st.schedules[key].history;
      Tell(Hydrate(w, out.hydrates));
      if !out.hydrates {
        return Outcome(0, true), NotHydrated;
      }
      PrefixMember(before, st.schedules[key].history, snap);
      ghost var at := PublishEmpty(w);
      return Outcome(0, false), Overwritten(snap, at);
    }

    /** The health report and its publication: no version of a scheduled backup has references to examine. */
    method PublishEmpty(w: nat) returns (ghost at: Option<nat>)
      requires Valid() && w < |st.workers| && st.workers[w].key in st.schedules
      requires st.workers[w].phase.BackupExamining? && st.workers[w].phase.readings == []
      requires st.workers[w].phase.snap in st.schedules[st.workers[w].key].history
      modifies `st, `trace
      ensures Valid() && old(trace) <= trace && |st.workers| == |old(st).workers|
      ensures var me, c := old(st).workers[w], old(st).schedules[old(st).workers[w].key];
              && me.phase.snap in c.history
              && MySchedule(w, me.(phase := Leaving), c,
                            if at.None? then c.Current().status
                            else me.phase.snap.status.(childrenHealth := [], healthy := true),
                            c.applies, c.installed)
              && me.phase.snap in st.schedules[me.key].history
    {
      ghost var key, snap, c := st.workers[w].key, st.workers[w].phase.snap, st.schedules[st.workers[w].key];
      assert st.workers[w].phase.snap.status.ownedReferences == [] by {
        Sound();
        assert VersionSound(snap, c.applies);
      }
      Tell(Judge(w));
      at := UpdateBackupStatus(w);
      PrefixMember(c.history, st.schedules[key].history, snap);
    }
  }
}
