/** What holds of RequestedBackupActions in every run of the control plane. */
module ActionTheorems {
  import opened Wrappers
  import opened Locking
  import opened References
  import opened Rendering
  import opened Cluster
  import opened Health
  import opened ControlPlane
  import opened LockProtocol
  import opened StoreProtocol
  import opened ActionProtocol

  // ----- no lost update -----

  /** `after` differs from the status the server held just before in the health report only. */
  predicate ObserverWrite(before: ActionStatus, after: ActionStatus) {
    after == before.(childrenHealth := after.childrenHealth, healthy := after.healthy)
  }

  /** `after` keeps the server's health report and foreign conditions, only appends references and never withdraws the
      flag. Its condition is True with the flag and False without, for the generation the write landed on; health is
      only ever withdrawn, exactly when the condition is not True. */
  predicate ReconcilerWrite(before: ActionStatus, generation: nat, after: ActionStatus) {
    && !before.processed
    && INSTALLATION in after.conditions
    && after == before.(processed := after.processed, ownedReferences := after.ownedReferences,
                        conditions := before.conditions[INSTALLATION := after.conditions[INSTALLATION]],
                        healthy := after.healthy)
    && before.ownedReferences <= after.ownedReferences
    && after.conditions[INSTALLATION].status == (if after.processed then True else False)
    && after.conditions[INSTALLATION].observedGeneration == generation
    && (after.processed ==> after.ownedReferences != [])
    && after.healthy == (before.healthy && after.conditions[INSTALLATION].status == True)
  }

  lemma SaveWrites(s: State, w: nat, k: Request)
    requires Inv(s) && w < |s.workers| && k in s.actions
    requires s.workers[w].phase.ActionSaving? || s.workers[w].phase.BackupSaving?
    ensures var t := NextSave(s, w);
            && t.actions.Keys == s.actions.Keys && t.actions[k].calls == s.actions[k].calls
            && var before, after := s.actions[k].status, t.actions[k].status;
               || after == before
               || (s.workers[w].key == k && s.workers[w].role == ActionObserver && ObserverWrite(before, after))
               || (s.workers[w].key == k && s.workers[w].role == ActionReconciler
                   && ReconcilerWrite(before, s.actions[k].generation, after))
  {
    assert WorkerOk(s.actions, s.nextId, s.workers[w]);
  }

  /** A call is only ever made for an unprocessed action. */
  lemma ApplyLogs(s: State, e: Event, k: Request)
    requires Inv(s) && Enabled(s, e) && e.ApplyDoc? && k in s.actions
    ensures var t := NextApply(s, e.w, e.api, e.acknowledged);
            && t.actions.Keys == s.actions.Keys && t.actions[k].status == s.actions[k].status
            && s.actions[k].calls <= t.actions[k].calls
            && (s.actions[k].status.processed ==> t.actions[k].calls == s.actions[k].calls)
  {
    assert WorkerOk(s.actions, s.nextId, s.workers[e.w]);
  }

  /** Every step of every run: an action's status changes only through a write that is faithful to what the server
      held at that moment, although both writers overwrite it whole. */
  lemma EveryWriteIsFaithful(s: State, e: Event, k: Request)
    requires Inv(s) && Enabled(s, e) && k in s.actions
    ensures var t := Next(s, e);
            && k in t.actions && s.actions[k].calls <= t.actions[k].calls
            && (s.actions[k].status.processed ==> t.actions[k].calls == s.actions[k].calls)
            && var before, after := s.actions[k].status, t.actions[k].status;
               || after == before
               || (WroteBy(s, e, k, ActionObserver) && ObserverWrite(before, after))
               || (WroteBy(s, e, k, ActionReconciler) && ReconcilerWrite(before, s.actions[k].generation, after))
  {
    if e.SaveUpdate? {
      SaveWrites(s, e.w, k);
    } else if e.ApplyDoc? {
      ApplyLogs(s, e, k);
    } else if e.Render? {
      RenderWrites(s, e.w, e.docs, k);
    } else {
      QuietWrites(s, e, k);
    }
  }

  lemma RenderWrites(s: State, w: nat, docs: Option<seq<Document>>, k: Request)
    requires k in s.actions
    requires w < |s.workers| && (s.workers[w].phase.ActionRendering? || s.workers[w].phase.BackupRendering?)
    ensures var t := NextRender(s, w, docs);
            k in t.actions && t.actions[k].status == s.actions[k].status && t.actions[k].calls == s.actions[k].calls
  {
  }

  lemma QuietWrites(s: State, e: Event, k: Request)
    requires Enabled(s, e) && !e.SaveUpdate? && !e.ApplyDoc? && !e.Render? && k in s.actions
    ensures var t := Next(s, e);
            k in t.actions && t.actions[k].status == s.actions[k].status && t.actions[k].calls == s.actions[k].calls
  {
  }

  lemma NoLostStatusUpdate(s0: State, events: seq<Event>, e: Event, k: Request)
    requires Init(s0) && Legal(s0, events) && Enabled(Exec(s0, events), e) && k in Exec(s0, events).actions
    ensures var s := Exec(s0, events);
            var t := Next(s, e);
            && k in t.actions
            && var before, after := s.actions[k].status, t.actions[k].status;
               || after == before
               || (WroteBy(s, e, k, ActionObserver) && ObserverWrite(before, after))
               || (WroteBy(s, e, k, ActionReconciler) && ReconcilerWrite(before, s.actions[k].generation, after))
  {
    InitHasInv(s0);
    RunKeepsInv(s0, events);
    EveryWriteIsFaithful(Exec(s0, events), e, k);
  }

  // ----- the one-shot flag -----

  /** A pass is only ever begun for an unprocessed action. */
  lemma PassesGrow(s: State, e: Event, k: Request)
    requires Inv(s) && Enabled(s, e) && k in s.actions
    ensures k in Next(s, e).actions && s.actions[k].passes <= Next(s, e).actions[k].passes
    ensures s.actions[k].status.processed ==> Next(s, e).actions[k].passes == s.actions[k].passes
  {
    if e.SaveUpdate? {
      SaveKeepsPasses(s, e.w, k);
    } else if e.ApplyDoc? {
      ApplyKeepsPasses(s, e.w, e.api, e.acknowledged, k);
    } else if e.Render? {
      RenderPasses(s, e.w, e.docs, k);
    } else {
      QuietPasses(s, e, k);
    }
  }

  lemma QuietPasses(s: State, e: Event, k: Request)
    requires Enabled(s, e) && !e.SaveUpdate? && !e.ApplyDoc? && !e.Render? && k in s.actions
    ensures k in Next(s, e).actions && Next(s, e).actions[k].passes == s.actions[k].passes
  {
  }

  lemma SaveKeepsPasses(s: State, w: nat, k: Request)
    requires w < |s.workers| && (s.workers[w].phase.ActionSaving? || s.workers[w].phase.BackupSaving?) && k in s.actions
    ensures k in NextSave(s, w).actions && NextSave(s, w).actions[k].passes == s.actions[k].passes
  {
  }

  lemma ApplyKeepsPasses(s: State, w: nat, api: Answers, acknowledged: bool, k: Request)
    requires w < |s.workers| && (s.workers[w].phase.ActionApplying? || s.workers[w].phase.BackupApplying?)
    requires s.workers[w].phase.i < |s.workers[w].phase.docs| && k in s.actions
    ensures var t := NextApply(s, w, api, acknowledged); k in t.actions && t.actions[k].passes == s.actions[k].passes
  {
  }

  lemma RenderPasses(s: State, w: nat, docs: Option<seq<Document>>, k: Request)
    requires Inv(s) && k in s.actions
    requires w < |s.workers| && (s.workers[w].phase.ActionRendering? || s.workers[w].phase.BackupRendering?)
    ensures var t := NextRender(s, w, docs);
            && k in t.actions && s.actions[k].passes <= t.actions[k].passes
            && (s.actions[k].status.processed ==> t.actions[k].passes == s.actions[k].passes)
  {
    assert WorkerOk(s.actions, s.nextId, s.workers[w]);
  }

  lemma {:induction false} FromHereOn(s: State, events: seq<Event>, k: Request)
    requires Inv(s) && Legal(s, events) && k in s.actions
    ensures var t := Exec(s, events);
            && k in t.actions
            && s.actions[k].calls <= t.actions[k].calls
            && s.actions[k].status.ownedReferences <= t.actions[k].status.ownedReferences
            && (s.actions[k].status.processed ==>
                  t.actions[k].calls == s.actions[k].calls && t.actions[k].passes == s.actions[k].passes
                  && ObserverWrite(s.actions[k].status, t.actions[k].status))
    decreases |events|
  {
    if events != [] {
      EveryWriteIsFaithful(s, events[0], k);
      PassesGrow(s, events[0], k);
      StepKeepsInv(s, events[0]);
      FromHereOn(Next(s, events[0]), events[1..], k);
    }
  }

  /** Processed is final: whatever happened before, with failed applies, lost writes and restarts, once it is stored
      no step of any continuation resets it, changes anything but the health report, begins another pass, or makes one
      more call that creates or updates an object for that action. */
  lemma ProcessedIsFinal(s0: State, before: seq<Event>, after: seq<Event>, k: Request)
    requires Init(s0) && Legal(s0, before) && Legal(Exec(s0, before), after)
    requires k in Exec(s0, before).actions && Exec(s0, before).actions[k].status.processed
    ensures var s, t := Exec(s0, before), Exec(Exec(s0, before), after);
            && k in t.actions && t.actions[k].status.processed
            && t.actions[k].calls == s.actions[k].calls && t.actions[k].passes == s.actions[k].passes
            && ObserverWrite(s.actions[k].status, t.actions[k].status)
  {
    InitHasInv(s0);
    RunKeepsInv(s0, before);
    FromHereOn(Exec(s0, before), after, k);
  }

  /** A reported call made this reference, and its object is in the cluster, under its label unless a later call rewrote
      it. */
  ghost predicate Backed(s: State, ref: ChildReference, calls: seq<Call>) {
    exists c :: c in calls && c.reference == ref && c.reported && InCluster(s, c)
  }

  /** References are append-only over any run, hold no identifier twice, and each is that of a Job whose creation was
      reported and which is in the cluster, under its label unless a later call rewrote it. */
  lemma ReferencesAreSound(s0: State, before: seq<Event>, after: seq<Event>, k: Request)
    requires Init(s0) && Legal(s0, before) && Legal(Exec(s0, before), after)
    requires k in Exec(s0, before).actions
    ensures var s, t := Exec(s0, before), Exec(Exec(s0, before), after);
            && k in t.actions
            && var refs := t.actions[k].status.ownedReferences;
               && s.actions[k].status.ownedReferences <= refs
               && Distinct(refs)
               && (forall i, j :: 0 <= i < j < |refs| ==> refs[i].trackingId != refs[j].trackingId)
               && (forall r :: r in refs ==> r == ReferenceTo(JOB, r.trackingId) && Backed(t, r, t.actions[k].calls))
  {
    InitHasInv(s0);
    RunKeepsInv(s0, before);
    var s := Exec(s0, before);
    FromHereOn(s, after, k);
    RunKeepsInv(s, after);
    var t := Exec(s, after);
    assert ActionOk(t.actions[k], t.nextId);
    InitHasStoreInv(s0);
    RunKeepsStore(s0.objects, s0, before);
    RunKeepsStore(s0.objects, s, after);
    forall r | r in t.actions[k].status.ownedReferences ensures Backed(t, r, t.actions[k].calls) {
      assert ReportedIn(r, t.actions[k].calls);
      var c :| c in t.actions[k].calls && c.reference == r && c.reported;
      CallsLanded(t.landings, k, true, c);
      LandedInCluster(s0.objects, t, Landing(k, true, c));
    }
  }

  // ----- processed implies tracked, and references decode -----

  lemma JobDecodes(id: TrackingId)
    ensures GetGVK(ReferenceTo(JOB, id)) == Some(JOB) && Recognized(ReferenceTo(JOB, id))
  {
    assert '/' !in JOB.group && '/' !in JOB.version;
    ReferenceRoundTrip(JOB, id);
  }

  /** In every reachable state a processed action has a reference; every stored reference decodes to batch/v1 Job, so
      the health loop of an action never indexes out of range, and its error-free report has one entry each. */
  lemma ProcessedIsTracked(s0: State, events: seq<Event>, k: Request, readings: seq<Reading>)
    requires Init(s0) && Legal(s0, events) && k in Exec(s0, events).actions
    ensures var status := Exec(s0, events).actions[k].status;
            && (status.processed ==> status.ownedReferences != [])
            && (forall r :: r in status.ownedReferences ==> GetGVK(r) == Some(JOB) && Recognized(r))
            && (|readings| == |status.ownedReferences| ==>
                  var report := HealthReport(status.ownedReferences, readings);
                  report.erred || |report.entries| == |status.ownedReferences|)
  {
    InitHasInv(s0);
    RunKeepsInv(s0, events);
    var s := Exec(s0, events);
    var refs := s.actions[k].status.ownedReferences;
    assert ActionOk(s.actions[k], s.nextId);
    forall r | r in refs ensures GetGVK(r) == Some(JOB) && Recognized(r) {
      JobDecodes(r.trackingId);
    }
    if |readings| == |refs| {
      OneEntryPerReference(refs, readings);
    }
  }
}
