/** Whole passes of the two RequestedBackupAction reconcilers with nobody else in between: what a lost status write
    leads to, and how early health is claimed. */
module ActionSweeps {
  import opened Wrappers
  import opened Locking
  import opened References
  import opened Rendering
  import opened Cluster
  import opened Health
  import opened ControlPlane
  import opened StoreProtocol
  import opened Runs
  import opened Passes
  import SaveRetries
  import ActionTheorems

  // ----- the reconciler's pass -----

  function PassBegin(w: nat, k: Request, docs: seq<Document>, apis: seq<Answers>): seq<Event> {
    [Obtain(w, k)] + [ReadAction(w)] + [Hydrate(w, true)] + ([Render(w, Some(docs))] + ApplyEvents(w, apis))
  }

  /** The status write is lost. */
  function LosingPass(w: nat, k: Request, docs: seq<Document>, apis: seq<Answers>): seq<Event> {
    PassBegin(w, k, docs, apis) + [SaveError(w)] + [Done(w)]
  }

  function StoringPass(w: nat, k: Request, docs: seq<Document>, apis: seq<Answers>): seq<Event> {
    PassBegin(w, k, docs, apis) + [SaveGet(w), SaveUpdate(w)] + [Done(w)]
  }

  function RefsOf(calls: seq<Call>): seq<ChildReference> {
    seq(|calls|, j requires 0 <= j < |calls| => calls[j].reference)
  }

  /** The cluster and the action after the first `n` documents of a pass. */
  function Midway(s: State, k: Request, docs: seq<Document>, apis: seq<Answers>, n: nat): State
    requires k in s.actions && n <= |docs| == |apis|
  {
    var a, calls := s.actions[k], CallsFor(docs, k.namespace, apis, s.nextId, n);
    Wrote(s, k, true, docs, apis, n).(
      actions := s.actions[k := a.(passes := a.passes + [docs], calls := a.calls + calls)])
  }

  /** The references of the first `n` documents behind those the action had. */
  function Collected(s: State, k: Request, docs: seq<Document>, apis: seq<Answers>, n: nat): seq<ChildReference>
    requires k in s.actions && n <= |docs| == |apis|
  {
    s.actions[k].status.ownedReferences + RefsOf(CallsFor(docs, k.namespace, apis, s.nextId, n))
  }

  /** The cluster and the action after all documents were applied, before the status is stored. */
  function Performed(s: State, k: Request, docs: seq<Document>, apis: seq<Answers>): State
    requires k in s.actions && |docs| == |apis|
  {
    Midway(s, k, docs, apis, |docs|)
  }

  function Outcome(s: State, k: Request, docs: seq<Document>, apis: seq<Answers>): Phase
    requires k in s.actions && |docs| == |apis|
  {
    Succeeding(s.actions[k].status, Collected(s, k, docs, apis, |docs|))
  }

  predicate Runnable(s: State, w: nat, k: Request, docs: seq<Document>, apis: seq<Answers>) {
    && Ready(s, w, k) && s.workers[w].role.ActionReconciler?
    && k in s.actions && !s.actions[k].status.processed
    && docs != [] && |docs| == |apis| && (forall d :: d in docs ==> d.gvk == JOB)
    && AllSucceed(s.objects, docs, k.namespace, apis, s.nextId)
  }

  lemma Reads(s: State, w: nat, k: Request)
    requires Ready(s, w, k) && s.workers[w].role.ActionReconciler? && k in s.actions && !s.actions[k].status.processed
    ensures Reaches(s, [Obtain(w, k)] + [ReadAction(w)] + [Hydrate(w, true)],
                    At(s, w, k, ActionRendering(s.actions[k].status)))
  {
    var status := s.actions[k].status;
    Enter(s, w, k);
    Step(s, w, k, Holding, ReadAction(w));
    Step(s, w, k, ActionRead(status), Hydrate(w, true));
    ThreePasses(s, [Obtain(w, k)], At(s, w, k, Holding), [ReadAction(w)], At(s, w, k, ActionRead(status)),
                [Hydrate(w, true)], At(s, w, k, ActionRendering(status)));
  }

  /** The state after `n` documents, inside. */
  function AfterDocs(s: State, w: nat, k: Request, docs: seq<Document>, apis: seq<Answers>, n: nat): State
    requires w < |s.workers| && k in s.actions && n <= |docs| == |apis|
  {
    At(Midway(s, k, docs, apis, n), w, k, ActionApplying(s.actions[k].status, Collected(s, k, docs, apis, n), docs, n))
  }

  lemma CollectedOneMore(s: State, k: Request, docs: seq<Document>, apis: seq<Answers>, n: nat)
    requires k in s.actions && n < |docs| == |apis|
    ensures var call := CallFor(docs[n], k.namespace, apis[n].suffix, s.nextId + n, true);
            && Collected(s, k, docs, apis, n + 1) == Collected(s, k, docs, apis, n) + [call.reference]
            && Midway(s, k, docs, apis, n + 1).actions[k].calls == Midway(s, k, docs, apis, n).actions[k].calls + [call]
  {
    var calls := CallsFor(docs, k.namespace, apis, s.nextId, n);
    var call := CallFor(docs[n], k.namespace, apis[n].suffix, s.nextId + n, true);
    WroteOneMore(s, k, true, docs, apis, n);
    assert RefsOf(calls + [call]) == RefsOf(calls) + [call.reference];
  }

  /** One document, seen from the state just before. */
  lemma AppliesOne(s: State, w: nat, k: Request, p: Phase, api: Answers)
    requires w < |s.workers| && k in s.actions && p.ActionApplying? && p.i < |p.docs|
    requires CallSucceeds(s.objects, p.docs[p.i], k.namespace, api)
    ensures var call := CallFor(p.docs[p.i], k.namespace, api.suffix, s.nextId, true);
            Reaches(At(s, w, k, p), [ApplyDoc(w, api, true)],
                    At(s.(objects := Put(s.objects, Resolve(p.docs[p.i], k.namespace, api.suffix), s.nextId),
                          nextId := s.nextId + 1, landings := s.landings + [Landing(k, true, call)],
                          actions := s.actions[k := s.actions[k].(calls := s.actions[k].calls + [call])]),
                       w, k, AppliedPhase(p, call.reference, true)))
  {
    One(At(s, w, k, p), ApplyDoc(w, api, true));
  }

  /** The state after one more document is the state after one more. */
  lemma OneFurther(s: State, k: Request, docs: seq<Document>, apis: seq<Answers>, n: nat)
    requires k in s.actions && n < |docs| == |apis|
    ensures var before := Midway(s, k, docs, apis, n);
            var call := CallFor(docs[n], k.namespace, apis[n].suffix, s.nextId + n, true);
            Midway(s, k, docs, apis, n + 1) ==
            before.(objects := Put(before.objects, Resolve(docs[n], k.namespace, apis[n].suffix), before.nextId),
                    nextId := before.nextId + 1, landings := before.landings + [Landing(k, true, call)],
                    actions := before.actions[k := before.actions[k].(calls := before.actions[k].calls + [call])])
  {
    WroteOneMore(s, k, true, docs, apis, n);
    CollectedOneMore(s, k, docs, apis, n);
  }

  predicate GoesThrough(s: State, k: Request, docs: seq<Document>, apis: seq<Answers>, n: nat)
    requires k in s.actions && n < |docs| == |apis|
  {
    CallSucceeds(Midway(s, k, docs, apis, n).objects, docs[n], k.namespace, apis[n])
  }

  /** One document: on to the next, or done. */
  lemma OneDocument(s: State, w: nat, k: Request, docs: seq<Document>, apis: seq<Answers>, n: nat)
    requires w < |s.workers| && k in s.actions && n < |docs| == |apis| && GoesThrough(s, k, docs, apis, n)
    ensures Reaches(AfterDocs(s, w, k, docs, apis, n), [ApplyDoc(w, apis[n], true)],
                    At(Midway(s, k, docs, apis, n + 1), w, k,
                       if n + 1 < |docs| then
                         ActionApplying(s.actions[k].status, Collected(s, k, docs, apis, n + 1), docs, n + 1)
                       else Succeeding(s.actions[k].status, Collected(s, k, docs, apis, n + 1))))
  {
    var p := ActionApplying(s.actions[k].status, Collected(s, k, docs, apis, n), docs, n);
    OneFurther(s, k, docs, apis, n);
    CollectedOneMore(s, k, docs, apis, n);
    AppliesOne(Midway(s, k, docs, apis, n), w, k, p, apis[n]);
  }

  lemma AllGoThrough(s: State, w: nat, k: Request, docs: seq<Document>, apis: seq<Answers>, n: nat)
    requires Runnable(s, w, k, docs, apis) && n < |docs|
    ensures GoesThrough(s, k, docs, apis, n)
  {
  }

  lemma Begins(s: State, w: nat, k: Request, docs: seq<Document>, apis: seq<Answers>)
    requires Runnable(s, w, k, docs, apis)
    ensures Reaches(At(s, w, k, ActionRendering(s.actions[k].status)), [Render(w, Some(docs))],
                    AfterDocs(s, w, k, docs, apis, 0))
  {
    var start := At(s, w, k, ActionRendering(s.actions[k].status));
    WroteNothing(s, k, true, docs, apis);
    assert s.actions[k].calls + [] == s.actions[k].calls;
    assert s.actions[k].status.ownedReferences + RefsOf([]) == s.actions[k].status.ownedReferences;
    One(start, Render(w, Some(docs)));
    assert Next(start, Render(w, Some(docs))) == AfterDocs(s, w, k, docs, apis, 0);
  }

  /** One document further. */
  lemma NextDocument(s: State, w: nat, k: Request, docs: seq<Document>, apis: seq<Answers>, n: nat)
    requires Runnable(s, w, k, docs, apis) && n + 1 < |docs|
    requires Reaches(At(s, w, k, ActionRendering(s.actions[k].status)),
                     [Render(w, Some(docs))] + ApplyEvents(w, apis[..n]), AfterDocs(s, w, k, docs, apis, n))
    ensures Reaches(At(s, w, k, ActionRendering(s.actions[k].status)),
                    [Render(w, Some(docs))] + ApplyEvents(w, apis[..n + 1]), AfterDocs(s, w, k, docs, apis, n + 1))
  {
    var first, next := [Render(w, Some(docs))] + ApplyEvents(w, apis[..n]), [ApplyDoc(w, apis[n], true)];
    EventsOneMore(w, apis, n);
    AllGoThrough(s, w, k, docs, apis, n);
    OneDocument(s, w, k, docs, apis, n);
    Chain(At(s, w, k, ActionRendering(s.actions[k].status)), first, AfterDocs(s, w, k, docs, apis, n), next,
          AfterDocs(s, w, k, docs, apis, n + 1));
    assert first + next == [Render(w, Some(docs))] + ApplyEvents(w, apis[..n + 1]);
  }

  lemma {:induction false} FirstDocuments(s: State, w: nat, k: Request, docs: seq<Document>, apis: seq<Answers>, n: nat)
    requires Runnable(s, w, k, docs, apis) && n < |docs|
    ensures Reaches(At(s, w, k, ActionRendering(s.actions[k].status)),
                    [Render(w, Some(docs))] + ApplyEvents(w, apis[..n]), AfterDocs(s, w, k, docs, apis, n))
  {
    if n == 0 {
      EventsOneMore(w, apis, 0);
      Begins(s, w, k, docs, apis);
      assert [Render(w, Some(docs))] + [] == [Render(w, Some(docs))];
    } else {
      FirstDocuments(s, w, k, docs, apis, n - 1);
      NextDocument(s, w, k, docs, apis, n - 1);
    }
  }

  lemma Applies(s: State, w: nat, k: Request, docs: seq<Document>, apis: seq<Answers>)
    requires Runnable(s, w, k, docs, apis)
    ensures Reaches(At(s, w, k, ActionRendering(s.actions[k].status)),
                    [Render(w, Some(docs))] + ApplyEvents(w, apis),
                    At(Performed(s, k, docs, apis), w, k, Outcome(s, k, docs, apis)))
  {
    var n := |docs| - 1;
    FirstDocuments(s, w, k, docs, apis, n);
    AllGoThrough(s, w, k, docs, apis, n);
    OneDocument(s, w, k, docs, apis, n);
    EventsOneMore(w, apis, n);
    Chain(At(s, w, k, ActionRendering(s.actions[k].status)), [Render(w, Some(docs))] + ApplyEvents(w, apis[..n]),
          AfterDocs(s, w, k, docs, apis, n), [ApplyDoc(w, apis[n], true)],
          At(Performed(s, k, docs, apis), w, k, Outcome(s, k, docs, apis)));
    assert [Render(w, Some(docs))] + ApplyEvents(w, apis[..n]) + [ApplyDoc(w, apis[n], true)] ==
           [Render(w, Some(docs))] + ApplyEvents(w, apis);
  }

  lemma Performs(s: State, w: nat, k: Request, docs: seq<Document>, apis: seq<Answers>)
    requires Runnable(s, w, k, docs, apis)
    ensures Reaches(s, PassBegin(w, k, docs, apis), At(Performed(s, k, docs, apis), w, k, Outcome(s, k, docs, apis)))
  {
    Reads(s, w, k);
    Applies(s, w, k, docs, apis);
    Chain(s, [Obtain(w, k)] + [ReadAction(w)] + [Hydrate(w, true)], At(s, w, k, ActionRendering(s.actions[k].status)),
          [Render(w, Some(docs))] + ApplyEvents(w, apis),
          At(Performed(s, k, docs, apis), w, k, Outcome(s, k, docs, apis)));
  }

  lemma Loses(s: State, w: nat, k: Request, docs: seq<Document>, apis: seq<Answers>)
    requires Runnable(s, w, k, docs, apis)
    ensures Reaches(s, LosingPass(w, k, docs, apis), Out(Performed(s, k, docs, apis), w, k))
  {
    var t := Performed(s, k, docs, apis);
    Performs(s, w, k, docs, apis);
    Step(t, w, k, Outcome(s, k, docs, apis), SaveError(w));
    Leave(t, w, k);
    ThreePasses(s, PassBegin(w, k, docs, apis), At(t, w, k, Outcome(s, k, docs, apis)), [SaveError(w)],
                At(t, w, k, Leaving), [Done(w)], Out(t, w, k));
  }

  /** A status write without a conflict. */
  lemma Save(s: State, w: nat, k: Request, base: ActionStatus, wanted: ActionStatus, outcome: Option<ConditionStatus>,
             evidence: seq<Reading>)
    requires w < |s.workers| && k in s.actions
    ensures var p := ActionSaving(base, wanted, outcome, evidence, 0, None);
            Reaches(At(s, w, k, p), [SaveGet(w), SaveUpdate(w)],
                    At(s.(actions := s.actions[k := Landed(s.actions[k], p)]), w, k, Leaving))
  {
    SaveRetries.ActionLands(s, w, k, ActionSaving(base, wanted, outcome, evidence, 0, None));
  }

  function Stored(s: State, k: Request, docs: seq<Document>, apis: seq<Answers>): State
    requires k in s.actions && |docs| == |apis|
  {
    var t := Performed(s, k, docs, apis);
    t.(actions := t.actions[k := Landed(t.actions[k], Outcome(s, k, docs, apis))])
  }

  lemma Stores(s: State, w: nat, k: Request, docs: seq<Document>, apis: seq<Answers>)
    requires Runnable(s, w, k, docs, apis)
    ensures Reaches(s, StoringPass(w, k, docs, apis), Out(Stored(s, k, docs, apis), w, k))
  {
    var t, p := Performed(s, k, docs, apis), Outcome(s, k, docs, apis);
    Performs(s, w, k, docs, apis);
    Save(t, w, k, p.base, p.wanted, p.outcome, []);
    Leave(Stored(s, k, docs, apis), w, k);
    ThreePasses(s, PassBegin(w, k, docs, apis), At(t, w, k, p), [SaveGet(w), SaveUpdate(w)],
                At(Stored(s, k, docs, apis), w, k, Leaving), [Done(w)], Out(Stored(s, k, docs, apis), w, k));
  }

  // ----- when an action is run again -----

  const ANY_JOB := Document(JOB, "job", "", "")

  /** Exactly when an action can be run once more: in every reachable state with a reconciler at rest and the lock free,
      some continuation begins another pass if and only if Processed is not stored, however complete the passes before
      were. */
  lemma AnotherPassExactly(s0: State, events: seq<Event>, k: Request, w: nat)
    requires Init(s0) && Legal(s0, events) && k in Exec(s0, events).actions
    requires Ready(Exec(s0, events), w, k) && Exec(s0, events).workers[w].role.ActionReconciler?
    ensures (exists more :: BeginsPass(Exec(s0, events), more, k)) <==> !Exec(s0, events).actions[k].status.processed
  {
    var s := Exec(s0, events);
    if s.actions[k].status.processed {
      forall more | Legal(s, more) ensures !BeginsPass(s, more, k) {
        ActionTheorems.ProcessedIsFinal(s0, events, more, k);
      }
    } else {
      NamedSucceeds(s.objects, ANY_JOB, k.namespace, s.nextId);
      Loses(s, w, k, [ANY_JOB], [WORKS]);
      assert BeginsPass(s, LosingPass(w, k, [ANY_JOB], [WORKS]), k);
    }
  }

  ghost predicate BeginsPass(s: State, more: seq<Event>, k: Request) {
    && Legal(s, more) && k in s.actions && k in Exec(s, more).actions
    && |Exec(s, more).actions[k].passes| > |s.actions[k].passes|
  }

  /** A complete pass stores Processed exactly when its status write is not lost. */
  lemma CompletePassStoresExactly(s: State, w: nat, k: Request, docs: seq<Document>, apis: seq<Answers>)
    requires Runnable(s, w, k, docs, apis)
    ensures Reaches(s, StoringPass(w, k, docs, apis), Out(Stored(s, k, docs, apis), w, k))
    ensures Reaches(s, LosingPass(w, k, docs, apis), Out(Performed(s, k, docs, apis), w, k))
    ensures Stored(s, k, docs, apis).actions[k].status.processed
    ensures !Performed(s, k, docs, apis).actions[k].status.processed
    ensures Stored(s, k, docs, apis).actions[k].calls == Performed(s, k, docs, apis).actions[k].calls
  {
    Stores(s, w, k, docs, apis);
    Loses(s, w, k, docs, apis);
  }

  /** One action, one reconciler, one observer, and an empty cluster. */
  function NewAction(k: Request): State {
    State([], [Worker(ActionReconciler, k, LockId(k), Idle), Worker(ActionObserver, k, LockId(k), Idle)],
          map[k := Action(1, 1, NEW_ACTION, [], [])], map[], map[], 1, [])
  }

  /** Reconcile reports success, its last write is lost, and the next Reconcile applies the whole action again: two
      complete passes, and for a document without a fixed name two Jobs. */
  lemma LostWriteRunsTwice(k: Request, doc: Document, one: string, other: string)
    requires doc.gvk == JOB && Generated(doc) && one != other
    ensures var first, second := WORKS.(suffix := one), WORKS.(suffix := other);
            var run := LosingPass(0, k, [doc], [first]) + StoringPass(0, k, [doc], [second]);
            && Init(NewAction(k)) && Legal(NewAction(k), run)
            && var t := Exec(NewAction(k), run);
               && k in t.actions && t.actions[k].passes == [[doc], [doc]]
               && |t.actions[k].calls| == 2 && (forall c :: c in t.actions[k].calls ==> Applied(c, doc))
               && |t.actions[k].status.ownedReferences| == 1
               && |t.objects| == 2
  {
    var first, second := WORKS.(suffix := one), WORKS.(suffix := other);
    var s := NewAction(k);
    var t := Out(Performed(s, k, [doc], [first]), 0, k);
    var u := Out(Stored(t, k, [doc], [second]), 0, k);
    TwoRuns(k, doc, one, other);
    Loses(s, 0, k, [doc], [first]);
    Stores(t, 0, k, [doc], [second]);
    Chain(s, LosingPass(0, k, [doc], [first]), t, StoringPass(0, k, [doc], [second]), u);
  }

  /** Both passes can run, and what they leave. */
  lemma TwoRuns(k: Request, doc: Document, one: string, other: string)
    requires doc.gvk == JOB && Generated(doc) && one != other
    ensures var first, second := WORKS.(suffix := one), WORKS.(suffix := other);
            var s := NewAction(k);
            && Runnable(s, 0, k, [doc], [first])
            && var t := Out(Performed(s, k, [doc], [first]), 0, k);
               && Runnable(t, 0, k, [doc], [second])
               && var u := Stored(t, k, [doc], [second]);
                  && u.actions[k].passes == [[doc], [doc]]
                  && |u.actions[k].calls| == 2 && (forall c :: c in u.actions[k].calls ==> Applied(c, doc))
                  && |u.actions[k].status.ownedReferences| == 1 && |u.objects| == 2
  {
    var first, second := WORKS.(suffix := one), WORKS.(suffix := other);
    var s := NewAction(k);
    PerformedOne(s, k, doc, first);
    OneSucceeds(s.objects, doc, k.namespace, first, s.nextId);
    var t := Out(Performed(s, k, [doc], [first]), 0, k);
    TwoNames(doc, k.namespace, one, other);
    PerformedOne(t, k, doc, second);
    OneSucceeds(t.objects, doc, k.namespace, second, t.nextId);
    var a, b := Resolve(doc, k.namespace, one), Resolve(doc, k.namespace, other);
    assert Stored(t, k, [doc], [second]).objects == map[a.id := Fresh(a, 1), b.id := Fresh(b, 2)];
  }

  lemma TwoNames(doc: Document, namespace: string, one: string, other: string)
    requires Generated(doc) && one != other
    ensures Resolve(doc, namespace, one).id != Resolve(doc, namespace, other).id
  {
    var n := |doc.generateName|;
    assert (doc.generateName + one)[n..] == one && (doc.generateName + other)[n..] == other;
  }

  /** A pass over a single document. */
  lemma PerformedOne(s: State, k: Request, doc: Document, api: Answers)
    requires k in s.actions
    ensures var a, call := s.actions[k], CallFor(doc, k.namespace, api.suffix, s.nextId, true);
            && Performed(s, k, [doc], [api]) ==
               s.(objects := Put(s.objects, Resolve(doc, k.namespace, api.suffix), s.nextId), nextId := s.nextId + 1,
                  landings := s.landings + [Landing(k, true, call)],
                  actions := s.actions[k := a.(passes := a.passes + [[doc]], calls := a.calls + [call])])
            && Outcome(s, k, [doc], [api]) == Succeeding(a.status, a.status.ownedReferences + [call.reference])
  {
    WroteOne(s, k, true, doc, api);
    assert RefsOf([CallFor(doc, k.namespace, api.suffix, s.nextId, true)]) ==
           [CallFor(doc, k.namespace, api.suffix, s.nextId, true).reference];
  }

  // ----- how early health is claimed -----

  function ObserverPass(w: nat, k: Request, reading: Reading): seq<Event> {
    [Obtain(w, k)] + [ReadAction(w)] + [Hydrate(w, true)] + [Examine(w, reading)] + [Judge(w)]
    + [SaveGet(w), SaveUpdate(w)] + [Done(w)]
  }

  /** An observer inside, with its snapshot. */
  lemma Opens(s: State, w: nat, k: Request)
    requires Ready(s, w, k) && s.workers[w].role.ActionObserver? && k in s.actions
    ensures Reaches(s, [Obtain(w, k)] + [ReadAction(w)] + [Hydrate(w, true)],
                    At(s, w, k, ActionExamining(s.actions[k].status, [])))
  {
    var status := s.actions[k].status;
    Enter(s, w, k);
    Step(s, w, k, Holding, ReadAction(w));
    Step(s, w, k, ActionRead(status), Hydrate(w, true));
    ThreePasses(s, [Obtain(w, k)], At(s, w, k, Holding), [ReadAction(w)], At(s, w, k, ActionRead(status)),
                [Hydrate(w, true)], At(s, w, k, ActionExamining(status, [])));
  }

  /** The action after a healthy report over these Jobs was published. */
  function ReportedOn(s: State, k: Request, id: TrackingId, jobs: seq<Item>): State
    requires k in s.actions && Verdict(id, Some(jobs)).Ok?
  {
    var a := s.actions[k];
    s.(actions := s.actions[k := a.(version := a.version + 1,
                                    status := a.status.(childrenHealth := [Verdict(id, Some(jobs)).value],
                                                        healthy := true))])
  }

  /** A pass of the observer over an action with one reference. */
  lemma Observes(s: State, w: nat, k: Request, id: TrackingId, jobs: seq<Item>)
    requires Ready(s, w, k) && s.workers[w].role.ActionObserver? && k in s.actions
    requires s.actions[k].status.ownedReferences == [ReferenceTo(JOB, id)]
    requires Lists(s.objects, k.namespace, id, jobs)
    requires jobs != [] && forall j :: j in jobs ==> j.job.failed == 0 && j.job.active == 0
    ensures Verdict(id, Some(jobs)).Ok?
    ensures Reaches(s, ObserverPass(w, k, Some(jobs)), Out(ReportedOn(s, k, id, jobs), w, k))
  {
    VerdictClassifies(id, jobs);
    var first, second := [Obtain(w, k)] + [ReadAction(w)] + [Hydrate(w, true)], [Examine(w, Some(jobs))] + [Judge(w)];
    var p := Publishing(s.actions[k].status, id, jobs);
    Opens(s, w, k);
    Looks(s, w, k, id, jobs);
    Publishes(s, w, k, id, jobs);
    ThreePasses(s, first, At(s, w, k, ActionExamining(s.actions[k].status, [])), second, At(s, w, k, p),
                [SaveGet(w), SaveUpdate(w)] + [Done(w)], Out(ReportedOn(s, k, id, jobs), w, k));
    assert first + second + ([SaveGet(w), SaveUpdate(w)] + [Done(w)]) == ObserverPass(w, k, Some(jobs));
  }

  /** About to publish a healthy report over these Jobs. */
  function Publishing(status: ActionStatus, id: TrackingId, jobs: seq<Item>): Phase
    requires Verdict(id, Some(jobs)).Ok?
  {
    ActionSaving(status, status.(childrenHealth := [Verdict(id, Some(jobs)).value], healthy := true), None,
                 [Some(jobs)], 0, None)
  }

  lemma Publishes(s: State, w: nat, k: Request, id: TrackingId, jobs: seq<Item>)
    requires Ready(s, w, k) && k in s.actions && Verdict(id, Some(jobs)).Ok?
    ensures Reaches(At(s, w, k, Publishing(s.actions[k].status, id, jobs)), [SaveGet(w), SaveUpdate(w)] + [Done(w)],
                    Out(ReportedOn(s, k, id, jobs), w, k))
  {
    var p, t := Publishing(s.actions[k].status, id, jobs), ReportedOn(s, k, id, jobs);
    Save(s, w, k, p.base, p.wanted, None, p.evidence);
    Leave(t, w, k);
    Chain(At(s, w, k, p), [SaveGet(w), SaveUpdate(w)], At(t, w, k, Leaving), [Done(w)], Out(t, w, k));
  }

  /** The report over one reference whose Jobs are quiet. */
  lemma OneReference(ref: ChildReference, jobs: seq<Item>)
    requires ref == ReferenceTo(JOB, ref.trackingId) && jobs != []
    requires forall j :: j in jobs ==> j.job.failed == 0 && j.job.active == 0
    ensures Verdict(ref.trackingId, Some(jobs)).Ok?
    ensures HealthReport([ref], [Some(jobs)]) == Report([Verdict(ref.trackingId, Some(jobs)).value], true, false)
    ensures NoneRunning(HealthReport([ref], [Some(jobs)]))
    ensures GetGVK(ref).Some?
  {
    ActionTheorems.JobDecodes(ref.trackingId);
    VerdictClassifies(ref.trackingId, jobs);
    assert [ref][1..] == [] && [Some(jobs)][1..] == [];
    assert HealthReport([], []) == Report([], true, false);
  }

  /** The health loop and the judgement. */
  lemma Looks(s: State, w: nat, k: Request, id: TrackingId, jobs: seq<Item>)
    requires Ready(s, w, k) && k in s.actions
    requires s.actions[k].status.ownedReferences == [ReferenceTo(JOB, id)]
    requires Lists(s.objects, k.namespace, id, jobs)
    requires jobs != [] && forall j :: j in jobs ==> j.job.failed == 0 && j.job.active == 0
    ensures var status := s.actions[k].status;
            Verdict(id, Some(jobs)).Ok? &&
            Reaches(At(s, w, k, ActionExamining(status, [])), [Examine(w, Some(jobs))] + [Judge(w)],
                    At(s, w, k, Publishing(status, id, jobs)))
  {
    var status := s.actions[k].status;
    var ref := status.ownedReferences[0];
    var before, seen := ActionExamining(status, []), ActionExamining(status, [Some(jobs)]);
    OneReference(ref, jobs);
    assert !SoFar(before).erred by {
      assert status.ownedReferences[..0] == [];
    }
    One(At(s, w, k, before), Examine(w, Some(jobs)));
    assert before.readings + [Some(jobs)] == [Some(jobs)];
    assert Next(At(s, w, k, before), Examine(w, Some(jobs))) == At(s, w, k, seen);
    assert SoFar(seen) == HealthReport([ref], [Some(jobs)]) by {
      assert status.ownedReferences[..1] == [ref];
    }
    Step(s, w, k, seen, Judge(w));
    Chain(At(s, w, k, before), [Examine(w, Some(jobs))], At(s, w, k, seen), [Judge(w)],
          At(s, w, k, NextPhase(At(s, w, k, seen), Judge(w))));
  }

  predicate NoProgress(events: seq<Event>) {
    forall e :: e in events ==> !e.JobProgress?
  }

  lemma PassesAreNoProgress(w: nat, v: nat, k: Request, doc: Document, api: Answers, reading: Reading)
    ensures NoProgress(StoringPass(w, k, [doc], [api])) && NoProgress(ObserverPass(v, k, reading))
  {
    var storing := [Obtain(w, k), ReadAction(w), Hydrate(w, true), Render(w, Some([doc])), ApplyDoc(w, api, true),
                    SaveGet(w), SaveUpdate(w), Done(w)];
    var observing := [Obtain(v, k), ReadAction(v), Hydrate(v, true), Examine(v, reading), Judge(v), SaveGet(v),
                      SaveUpdate(v), Done(v)];
    assert StoringPass(w, k, [doc], [api]) == storing && ObserverPass(v, k, reading) == observing;
  }

  lemma NoProgressTogether(first: seq<Event>, second: seq<Event>)
    requires NoProgress(first) && NoProgress(second)
    ensures NoProgress(first + second)
  {
  }

  /** Healthy = true can be stored before anything has run: reconcile, observe, and not a single pod was started or
      Job finished in between. */
  lemma HealthyBeforeAnyPod(k: Request, doc: Document)
    requires doc.gvk == JOB && doc.name != ""
    ensures var id := Resolve(doc, k.namespace, "").id;
            var jobs := [Item(id, Fresh(Resolve(doc, k.namespace, ""), 1))];
            var run := StoringPass(0, k, [doc], [WORKS]) + ObserverPass(1, k, Some(jobs));
            && Init(NewAction(k)) && Legal(NewAction(k), run) && NoProgress(run)
            && var t := Exec(NewAction(k), run);
               && k in t.actions && t.actions[k].status.processed && t.actions[k].status.healthy
               && id in t.objects && !t.objects[id].finished
  {
    var target := Resolve(doc, k.namespace, "");
    var jobs := [Item(target.id, Fresh(target, 1))];
    var s := NewAction(k);
    var t := Out(Stored(s, k, [doc], [WORKS]), 0, k);
    NamedSucceeds(s.objects, doc, k.namespace, s.nextId);
    Stores(s, 0, k, [doc], [WORKS]);
    AfterFirst(k, doc);
    PassesAreNoProgress(0, 1, k, doc, WORKS, Some(jobs));
    NoProgressTogether(StoringPass(0, k, [doc], [WORKS]), ObserverPass(1, k, Some(jobs)));
    Observes(t, 1, k, 1, jobs);
    Chain(s, StoringPass(0, k, [doc], [WORKS]), t, ObserverPass(1, k, Some(jobs)),
          Out(ReportedOn(t, k, 1, jobs), 1, k));
  }

  /** The cluster and the action after the only pass so far. */
  lemma AfterFirst(k: Request, doc: Document)
    requires doc.gvk == JOB && doc.name != ""
    ensures var target := Resolve(doc, k.namespace, "");
            var job := Fresh(target, 1);
            var t := Stored(NewAction(k), k, [doc], [WORKS]);
            && t.objects == map[target.id := job]
            && Lists(t.objects, k.namespace, 1, [Item(target.id, job)])
            && t.actions[k].status.processed && t.actions[k].status.ownedReferences == [ReferenceTo(JOB, 1)]
  {
    var target := Resolve(doc, k.namespace, "");
    var t := Stored(NewAction(k), k, [doc], [WORKS]);
    PerformedOne(NewAction(k), k, doc, WORKS);
    assert t.objects == map[target.id := Fresh(target, 1)];
    assert JobsOf(t.objects, k.namespace, 1) == {Item(target.id, Fresh(target, 1))};
  }
}
