/** RetryOnConflict around a status write: how many conflicts it survives. */
module SaveRetries {
  import opened Wrappers
  import opened Locking
  import opened ControlPlane
  import opened Runs

  // ----- RequestedBackupAction -----

  /** Each attempt meets an edit between its get and its update. */
  function ActionConflicts(w: nat, k: Request, n: nat): seq<Event> {
    if n == 0 then [] else ActionConflicts(w, k, n - 1) + [SaveGet(w), EditAction(k), SaveUpdate(w)]
  }

  /** The state after `n` edits of the action. */
  function EditedAction(s: State, k: Request, n: nat): State
    requires k in s.actions
  {
    var a := s.actions[k];
    s.(actions := s.actions[k := a.(version := a.version + n, generation := a.generation + n)])
  }

  lemma ActionRefused(s: State, w: nat, k: Request, p: Phase)
    requires w < |s.workers| && k in s.actions && p.ActionSaving?
    requires p.got.Some? && p.got != Some(s.actions[k].version)
    ensures Reaches(At(s, w, k, p), [SaveUpdate(w)],
                    At(s, w, k, if p.attempt < 4 then Retrying(p, p.attempt + 1, None) else Leaving))
  {
    One(At(s, w, k, p), SaveUpdate(w));
  }

  /** One round that ends in a conflict: the next attempt, or giving up. */
  lemma ActionRound(s: State, w: nat, k: Request, p: Phase)
    requires w < |s.workers| && k in s.actions && p.ActionSaving? && p.got == None
    ensures Reaches(At(s, w, k, p), [SaveGet(w), EditAction(k), SaveUpdate(w)],
                    At(EditedAction(s, k, 1), w, k,
                       if p.attempt < 4 then Retrying(p, p.attempt + 1, None) else Leaving))
  {
    var got := Retrying(p, p.attempt, Some(s.actions[k].version));
    var t := EditedAction(s, k, 1);
    Step(s, w, k, p, SaveGet(w));
    One(At(s, w, k, got), EditAction(k));
    assert Next(At(s, w, k, got), EditAction(k)) == At(t, w, k, got);
    ActionRefused(t, w, k, got);
    ThreePasses(At(s, w, k, p), [SaveGet(w)], At(s, w, k, got), [EditAction(k)], At(t, w, k, got), [SaveUpdate(w)],
                At(t, w, k, if p.attempt < 4 then Retrying(p, p.attempt + 1, None) else Leaving));
    assert [SaveGet(w)] + [EditAction(k)] + [SaveUpdate(w)] == [SaveGet(w), EditAction(k), SaveUpdate(w)];
  }

  lemma {:induction false} ActionRounds(s: State, w: nat, k: Request, p: Phase, n: nat)
    requires w < |s.workers| && k in s.actions && p.ActionSaving? && p.attempt == 0 && p.got == None && n <= 5
    ensures Reaches(At(s, w, k, p), ActionConflicts(w, k, n),
                    At(EditedAction(s, k, n), w, k, if n < 5 then Retrying(p, n, None) else Leaving))
  {
    if n == 0 {
      assert EditedAction(s, k, 0).actions == s.actions;
    } else {
      ActionRounds(s, w, k, p, n - 1);
      var t := EditedAction(s, k, n - 1);
      ActionRound(t, w, k, Retrying(p, n - 1, None));
      assert EditedAction(t, k, 1).actions == EditedAction(s, k, n).actions;
      Chain(At(s, w, k, p), ActionConflicts(w, k, n - 1), At(t, w, k, Retrying(p, n - 1, None)),
            [SaveGet(w), EditAction(k), SaveUpdate(w)],
            At(EditedAction(s, k, n), w, k, if n < 5 then Retrying(p, n, None) else Leaving));
    }
  }

  /** A status write of an action that meets fewer than five conflicts lands, over the object as it is then, and one
      that meets five is given up without a trace. */
  lemma ActionWriteSurvivesFourConflicts(s: State, w: nat, k: Request, p: Phase, n: nat)
    requires w < |s.workers| && k in s.actions && p.ActionSaving? && p.attempt == 0 && p.got == None && n <= 5
    ensures var run := ActionConflicts(w, k, n) + if n < 5 then [SaveGet(w), SaveUpdate(w)] else [];
            && Legal(At(s, w, k, p), run)
            && var t := Exec(At(s, w, k, p), run);
               && w < |t.workers| && t.workers[w].phase == Leaving && k in t.actions
               && t.actions[k].generation == s.actions[k].generation + n
               && if n == 5 then t.actions[k].status == s.actions[k].status
                  else
                    && t.actions[k].status.ownedReferences == p.wanted.ownedReferences
                    && t.actions[k].status.processed == p.wanted.processed
                    && t.actions[k].status.childrenHealth == p.wanted.childrenHealth
                    && (p.outcome.Some? ==>
                          && INSTALLATION in t.actions[k].status.conditions
                          && t.actions[k].status.conditions[INSTALLATION] ==
                             Condition(p.outcome.value, s.actions[k].generation + n))
  {
    ActionRounds(s, w, k, p, n);
    var t := EditedAction(s, k, n);
    if n < 5 {
      ActionLands(t, w, k, Retrying(p, n, None));
      Chain(At(s, w, k, p), ActionConflicts(w, k, n), At(t, w, k, Retrying(p, n, None)), [SaveGet(w), SaveUpdate(w)],
            At(t.(actions := t.actions[k := Landed(t.actions[k], Retrying(p, n, None))]), w, k, Leaving));
    } else {
      assert ActionConflicts(w, k, n) + [] == ActionConflicts(w, k, n);
    }
  }

  lemma ActionLands(s: State, w: nat, k: Request, p: Phase)
    requires w < |s.workers| && k in s.actions && p.ActionSaving? && p.got == None
    ensures Reaches(At(s, w, k, p), [SaveGet(w), SaveUpdate(w)],
                    At(s.(actions := s.actions[k := Landed(s.actions[k], p)]), w, k, Leaving))
  {
    var got := Retrying(p, p.attempt, Some(s.actions[k].version));
    Step(s, w, k, p, SaveGet(w));
    One(At(s, w, k, got), SaveUpdate(w));
    Chain(At(s, w, k, p), [SaveGet(w)], At(s, w, k, got), [SaveUpdate(w)], Next(At(s, w, k, got), SaveUpdate(w)));
  }

  // ----- ScheduledBackup -----

  function BackupConflicts(w: nat, k: Request, n: nat): seq<Event> {
    if n == 0 then [] else BackupConflicts(w, k, n - 1) + [SaveGet(w), TouchBackup(k), SaveUpdate(w)]
  }

  /** `n` more versions like the current one. */
  function TouchedHistory(history: seq<BackupVersion>, n: nat): seq<BackupVersion>
    requires history != []
  {
    history + seq(n, _ => history[|history| - 1])
  }

  function Touched(s: State, k: Request, n: nat): State
    requires k in s.schedules && s.schedules[k].history != []
  {
    s.(schedules := s.schedules[k := s.schedules[k].(history := TouchedHistory(s.schedules[k].history, n))])
  }

  lemma BackupRefused(s: State, w: nat, k: Request, p: Phase)
    requires w < |s.workers| && k in s.schedules && s.schedules[k].history != [] && p.BackupSaving?
    requires p.got.Some? && p.got != Some(|s.schedules[k].history|)
    ensures Reaches(At(s, w, k, p), [SaveUpdate(w)],
                    At(s, w, k,
                       if p.attempt < 4 then Retrying(p, p.attempt + 1, None) else AfterSaving(p.snap, p.next)))
  {
    One(At(s, w, k, p), SaveUpdate(w));
  }

  lemma BackupRound(s: State, w: nat, k: Request, p: Phase)
    requires w < |s.workers| && k in s.schedules && s.schedules[k].history != [] && p.BackupSaving? && p.got == None
    ensures Reaches(At(s, w, k, p), [SaveGet(w), TouchBackup(k), SaveUpdate(w)],
                    At(Touched(s, k, 1), w, k,
                       if p.attempt < 4 then Retrying(p, p.attempt + 1, None) else AfterSaving(p.snap, p.next)))
  {
    var got := Retrying(p, p.attempt, Some(|s.schedules[k].history|));
    var t := Touched(s, k, 1);
    Step(s, w, k, p, SaveGet(w));
    One(At(s, w, k, got), TouchBackup(k));
    assert TouchedHistory(s.schedules[k].history, 1) == s.schedules[k].history + [s.schedules[k].Current()];
    assert Next(At(s, w, k, got), TouchBackup(k)) == At(t, w, k, got);
    BackupRefused(t, w, k, got);
    ThreePasses(At(s, w, k, p), [SaveGet(w)], At(s, w, k, got), [TouchBackup(k)], At(t, w, k, got), [SaveUpdate(w)],
                At(t, w, k, if p.attempt < 4 then Retrying(p, p.attempt + 1, None) else AfterSaving(p.snap, p.next)));
    assert [SaveGet(w)] + [TouchBackup(k)] + [SaveUpdate(w)] == [SaveGet(w), TouchBackup(k), SaveUpdate(w)];
  }

  lemma {:induction false} BackupRounds(s: State, w: nat, k: Request, p: Phase, n: nat)
    requires w < |s.workers| && k in s.schedules && s.schedules[k].history != []
    requires p.BackupSaving? && p.attempt == 0 && p.got == None && n <= 5
    ensures Reaches(At(s, w, k, p), BackupConflicts(w, k, n),
                    At(Touched(s, k, n), w, k, if n < 5 then Retrying(p, n, None) else AfterSaving(p.snap, p.next)))
  {
    var history := s.schedules[k].history;
    if n == 0 {
      assert TouchedHistory(history, 0) == history && Touched(s, k, 0).schedules == s.schedules;
    } else {
      BackupRounds(s, w, k, p, n - 1);
      var t := Touched(s, k, n - 1);
      BackupRound(t, w, k, Retrying(p, n - 1, None));
      assert TouchedHistory(t.schedules[k].history, 1) == TouchedHistory(history, n);
      assert Touched(t, k, 1).schedules == Touched(s, k, n).schedules;
      Chain(At(s, w, k, p), BackupConflicts(w, k, n - 1), At(t, w, k, Retrying(p, n - 1, None)),
            [SaveGet(w), TouchBackup(k), SaveUpdate(w)],
            At(Touched(s, k, n), w, k, if n < 5 then Retrying(p, n, None) else AfterSaving(p.snap, p.next)));
    }
  }

  /** The same for a reconciler's write on a scheduled backup: below five conflicts the condition is stored, with the
      hash when it is True; at five it is given up. */
  lemma BackupWriteSurvivesFourConflicts(s: State, w: nat, k: Request, p: Phase, n: nat)
    requires w < |s.workers| && k in s.schedules && s.schedules[k].history != []
    requires p.BackupSaving? && p.change.Mark? && p.attempt == 0 && p.got == None && n <= 5
    ensures var run := BackupConflicts(w, k, n) + if n < 5 then [SaveGet(w), SaveUpdate(w)] else [];
            && Legal(At(s, w, k, p), run)
            && var t := Exec(At(s, w, k, p), run);
               && w < |t.workers| && t.workers[w].phase == AfterSaving(p.snap, p.next)
               && k in t.schedules && t.schedules[k].history != []
               && var before, after := s.schedules[k].Current(), t.schedules[k].Current();
                  if n == 5 then after == before
                  else
                    && INSTALLATION in after.status.conditions
                    && after.status.conditions[INSTALLATION] == Condition(p.change.outcome, before.generation)
                    && after.status.lastAppliedSpecHash ==
                       if p.change.outcome == True then HashOf(p.snap.spec) else before.status.lastAppliedSpecHash
  {
    BackupRounds(s, w, k, p, n);
    var t := Touched(s, k, n);
    if n < 5 {
      BackupLands(t, w, k, Retrying(p, n, None));
      Chain(At(s, w, k, p), BackupConflicts(w, k, n), At(t, w, k, Retrying(p, n, None)), [SaveGet(w), SaveUpdate(w)],
            At(t.(schedules := t.schedules[k := LandedOn(t.schedules[k], Retrying(p, n, None))]), w, k,
               AfterSaving(p.snap, p.next)));
    } else {
      assert BackupConflicts(w, k, n) + [] == BackupConflicts(w, k, n);
    }
  }

  lemma BackupLands(s: State, w: nat, k: Request, p: Phase)
    requires w < |s.workers| && k in s.schedules && s.schedules[k].history != [] && p.BackupSaving? && p.got == None
    ensures Reaches(At(s, w, k, p), [SaveGet(w), SaveUpdate(w)],
                    At(s.(schedules := s.schedules[k := LandedOn(s.schedules[k], p)]), w, k,
                       AfterSaving(p.snap, p.next)))
  {
    var got := Retrying(p, p.attempt, Some(|s.schedules[k].history|));
    Step(s, w, k, p, SaveGet(w));
    One(At(s, w, k, got), SaveUpdate(w));
    Chain(At(s, w, k, p), [SaveGet(w)], At(s, w, k, got), [SaveUpdate(w)], Next(At(s, w, k, got), SaveUpdate(w)));
  }
}
