/** What an unchanged look and a successful condition say about the objects in the cluster, whatever was lost or failed
    on the way: which documents of the recorded installation stand as they were applied. */
module BackupStanding {
  import opened Locking
  import opened References
  import opened Cluster
  import opened ControlPlane
  import opened StoreProtocol
  import opened BackupFreshness
  import opened BackupTraces

  // ----- the objects -----

  /** The object is what this call made of it. */
  ghost predicate AsWritten(s: State, call: Call) {
    && call.target in s.objects
    && s.objects[call.target].doc == call.doc && s.objects[call.target].tracking == IdOf(call)
  }

  /** A later document of the same list names the same object. */
  predicate NamedAgain(calls: seq<Call>, j: nat)
    requires j < |calls|
  {
    exists i :: j < i < |calls| && calls[i].target == calls[j].target
  }

  /** After these calls the same scheduled backup wrote to the object again. */
  predicate OwnAfter(landings: seq<Landing>, k: Request, calls: seq<Call>, target: Identity)
    requires calls != []
  {
    exists l :: l in landings && l.key == k && !l.forAction && l.call.target == target
                && IdOf(l.call) > IdOf(calls[|calls| - 1])
  }

  /** After this call somebody else wrote to its object: an action, or another scheduled backup. */
  predicate OthersAfter(landings: seq<Landing>, k: Request, call: Call) {
    exists l :: l in landings && (l.key != k || l.forAction) && l.call.target == call.target
                && IdOf(l.call) > IdOf(call)
  }

  /** An installation of which each document stands unless its list, its own scheduled backup or somebody else
      replaced it, and only then. */
  ghost predicate StandsExactly(s: State, k: Request, pass: Installation) {
    && pass.docs != [] && Matches(pass.calls, pass.docs, |pass.docs|)
    && forall j :: 0 <= j < |pass.calls| ==>
         && Aims(Landing(k, false, pass.calls[j])) && pass.calls[j].target in s.objects
         && (AsWritten(s, pass.calls[j]) <==>
             && !NamedAgain(pass.calls, j)
             && !OwnAfter(s.landings, k, pass.calls, pass.calls[j].target)
             && !OthersAfter(s.landings, k, pass.calls[j]))
  }

  lemma {:induction false} CallsListed(landings: seq<Landing>, l: Landing)
    requires l in landings
    ensures l.call in CallsOf(landings, l.key, l.forAction)
    decreases |landings|
  {
    var n := |landings| - 1;
    if landings[n] != l {
      assert l in landings[..n];
      CallsListed(landings[..n], l);
    }
  }

  lemma {:induction false} CallsIncrease(landings: seq<Landing>, nextId: TrackingId, k: Request, i: nat, j: nat)
    requires LandingsOk(landings, nextId) && i < j < |CallsOf(landings, k, false)|
    ensures IdOf(CallsOf(landings, k, false)[i]) < IdOf(CallsOf(landings, k, false)[j])
    decreases |landings|
  {
    var n := |landings| - 1;
    var before := CallsOf(landings[..n], k, false);
    if j < |before| {
      CallsIncrease(landings[..n], nextId, k, i, j);
    } else {
      CallsLanded(landings[..n], k, false, before[i]);
      var x :| 0 <= x < n && landings[x] == Landing(k, false, before[i]);
      assert IdOf(landings[x].call) < IdOf(landings[n].call);
    }
  }

  /** A later call to the object is visible there. */
  lemma LaterCallShows(start: Store, s: State, call: Call, l: Landing)
    requires StoreInv(start, s) && l in s.landings && l.call.target == call.target && IdOf(l.call) > IdOf(call)
    ensures !AsWritten(s, call)
  {
    LastIsLatest(s.landings, l, s.nextId);
  }

  /** Where a later call of the same scheduled backup stands: in the same list, or after it. */
  lemma OwnLater(landings: seq<Landing>, nextId: TrackingId, k: Request, calls: seq<Call>, n: nat, j: nat, l: Landing)
    requires LandingsOk(landings, nextId) && RowAt(CallsOf(landings, k, false), calls, n) && j < |calls|
    requires l in landings && l.key == k && !l.forAction
    requires l.call.target == calls[j].target && IdOf(l.call) > IdOf(calls[j])
    ensures NamedAgain(calls, j) || OwnAfter(landings, k, calls, calls[j].target)
  {
    var own := CallsOf(landings, k, false);
    CallsListed(landings, l);
    var q :| 0 <= q < |own| && own[q] == l.call;
    assert own[n + j] == calls[j];
    if q < n + j {
      CallsIncrease(landings, nextId, k, q, n + j);
    } else if q < n + |calls| {
      assert own[q] == calls[q - n];
    } else {
      assert own[n + |calls| - 1] == calls[|calls| - 1];
      CallsIncrease(landings, nextId, k, n + |calls| - 1, q);
    }
  }

  lemma RowLanded(landings: seq<Landing>, k: Request, calls: seq<Call>, n: nat, j: nat)
    requires RowAt(CallsOf(landings, k, false), calls, n) && j < |calls|
    ensures Landing(k, false, calls[j]) in landings
  {
    assert CallsOf(landings, k, false)[n + j] == calls[j];
    CallsLanded(landings, k, false, calls[j]);
  }

  /** Calls made in a row, later ones under greater identifiers. */
  lemma RowIncreases(landings: seq<Landing>, nextId: TrackingId, k: Request, calls: seq<Call>, n: nat, i: nat, j: nat)
    requires LandingsOk(landings, nextId) && RowAt(CallsOf(landings, k, false), calls, n) && i < j < |calls|
    ensures IdOf(calls[i]) < IdOf(calls[j])
  {
    var own := CallsOf(landings, k, false);
    assert own[n + i] == calls[i] && own[n + j] == calls[j];
    CallsIncrease(landings, nextId, k, n + i, n + j);
  }

  lemma NotReplaced(start: Store, s: State, k: Request, calls: seq<Call>, n: nat, j: nat)
    requires StoreInv(start, s) && RowAt(CallsOf(s.landings, k, false), calls, n) && j < |calls|
    requires !NamedAgain(calls, j) && !OwnAfter(s.landings, k, calls, calls[j].target)
    requires !OthersAfter(s.landings, k, calls[j])
    ensures AsWritten(s, calls[j])
  {
    var l := Landing(k, false, calls[j]);
    RowLanded(s.landings, k, calls, n, j);
    LastIsLatest(s.landings, l, s.nextId);
    var last := LastAt(s.landings, calls[j].target).value;
    if last != calls[j] {
      var m :| m in s.landings && m.call == last;
      if m.key == k && !m.forAction {
        OwnLater(s.landings, s.nextId, k, calls, n, j, m);
      }
    }
  }

  lemma Replaced(start: Store, s: State, k: Request, calls: seq<Call>, n: nat, j: nat)
    requires StoreInv(start, s) && RowAt(CallsOf(s.landings, k, false), calls, n) && j < |calls|
    requires NamedAgain(calls, j) || OwnAfter(s.landings, k, calls, calls[j].target)
             || OthersAfter(s.landings, k, calls[j])
    ensures !AsWritten(s, calls[j])
  {
    if NamedAgain(calls, j) {
      var i :| j < i < |calls| && calls[i].target == calls[j].target;
      RowIncreases(s.landings, s.nextId, k, calls, n, j, i);
      RowLanded(s.landings, k, calls, n, i);
      LaterCallShows(start, s, calls[j], Landing(k, false, calls[i]));
    } else if OwnAfter(s.landings, k, calls, calls[j].target) {
      var l :| l in s.landings && l.key == k && !l.forAction && l.call.target == calls[j].target
               && IdOf(l.call) > IdOf(calls[|calls| - 1]);
      if j < |calls| - 1 {
        RowIncreases(s.landings, s.nextId, k, calls, n, j, |calls| - 1);
      }
      LaterCallShows(start, s, calls[j], l);
    } else {
      var l :| l in s.landings && (l.key != k || l.forAction) && l.call.target == calls[j].target
               && IdOf(l.call) > IdOf(calls[j]);
      LaterCallShows(start, s, calls[j], l);
    }
  }

  /** Any complete installation whose calls were made in a row. */
  lemma RowStands(start: Store, s: State, k: Request, pass: Installation)
    requires StoreInv(start, s) && Complete(s.landings, k, pass)
    requires InARow(CallsOf(s.landings, k, false), pass.calls)
    ensures StandsExactly(s, k, pass)
  {
    var n :| 0 <= n <= |CallsOf(s.landings, k, false)| && RowAt(CallsOf(s.landings, k, false), pass.calls, n);
    forall j | 0 <= j < |pass.calls|
      ensures Aims(Landing(k, false, pass.calls[j])) && pass.calls[j].target in s.objects
      ensures AsWritten(s, pass.calls[j]) <==>
              && !NamedAgain(pass.calls, j)
              && !OwnAfter(s.landings, k, pass.calls, pass.calls[j].target)
              && !OthersAfter(s.landings, k, pass.calls[j])
    {
      RowLanded(s.landings, k, pass.calls, n, j);
      LandedInCluster(start, s, Landing(k, false, pass.calls[j]));
      if NamedAgain(pass.calls, j) || OwnAfter(s.landings, k, pass.calls, pass.calls[j].target)
         || OthersAfter(s.landings, k, pass.calls[j])
      {
        Replaced(start, s, k, pass.calls, n, j);
      } else {
        NotReplaced(start, s, k, pass.calls, n, j);
      }
    }
  }

  /** With nothing called since, this scheduled backup has replaced no document itself. */
  lemma NoneAfterTheEnd(landings: seq<Landing>, nextId: TrackingId, k: Request, calls: seq<Call>, target: Identity)
    requires LandingsOk(landings, nextId) && calls != [] && EndsWith(CallsOf(landings, k, false), calls)
    ensures !OwnAfter(landings, k, calls, target)
  {
    var own := CallsOf(landings, k, false);
    if OwnAfter(landings, k, calls, target) {
      var l :| l in landings && l.key == k && !l.forAction && l.call.target == target
               && IdOf(l.call) > IdOf(calls[|calls| - 1]);
      CallsListed(landings, l);
      var q :| 0 <= q < |own| && own[q] == l.call;
      assert own[|own| - 1] == calls[|calls| - 1];
      if q < |own| - 1 {
        CallsIncrease(landings, nextId, k, q, |own| - 1);
      }
      assert false;
    }
  }

  // ----- the theorems -----

  lemma FreshRun(s0: State, events: seq<Event>, k: Request, announced: bool)
    requires Init(s0) && Legal(s0, events) && AllFresh(s0, events, announced) && k in Exec(s0, events).schedules
    ensures StoreInv(s0.objects, Exec(s0, events)) && ScheduleTraced(Exec(s0, events), k, announced)
    ensures forall i :: 0 <= i < |Exec(s0, events).schedules[k].installed| ==>
              StandsExactly(Exec(s0, events), k, Exec(s0, events).schedules[k].installed[i])
  {
    InitTraced(s0, announced);
    RunTraces(s0, events, announced);
    InitHasStoreInv(s0);
    RunKeepsStore(s0.objects, s0, events);
    var s := Exec(s0, events);
    var b := s.schedules[k];
    forall i | 0 <= i < |b.installed| ensures StandsExactly(s, k, b.installed[i]) {
      RowStands(s0.objects, s, k, b.installed[i]);
    }
  }

  /** What an unchanged look is worth when only the reads are caught up, whatever else is lost or fails: the spec is the
      one recorded last. Of the installation recorded then each document stands as it was applied if and only if
      no later document of its list named the same object, this scheduled backup has not written to it since, in a pass
      that failed or was never recorded, and nobody else has. */
  lemma UnchangedStandsExactly(s0: State, events: seq<Event>, k: Request)
    requires Init(s0) && Legal(s0, events) && AllFresh(s0, events, false) && k in Exec(s0, events).schedules
    ensures var s := Exec(s0, events);
            var b := s.schedules[k];
            && b.history != []
            && (!b.Current().HasSpecChanged() <==>
                b.records != [] && LastRecord(b).snap.spec == b.Current().spec)
            && (b.records != [] ==>
                  && 1 <= LastRecord(b).complete <= |b.installed| == |b.applies|
                  && b.applies[LastRecord(b).complete - 1] == LastRecord(b).snap
                  && StandsExactly(s, k, RecordedInstallation(b)))
  {
    FreshRun(s0, events, k, false);
  }

  /** A check that rules it out. If the announcements are not lost either and the condition says that the installation
      went well, then the last complete application is the recorded one and this scheduled backup has made no call
      since: all its documents stand, unless a later one of the list or somebody else wrote to the same object. */
  lemma SuccessMeansInPlace(s0: State, events: seq<Event>, k: Request)
    requires Init(s0) && Legal(s0, events) && AllFresh(s0, events, true) && k in Exec(s0, events).schedules
    requires Exec(s0, events).schedules[k].history != [] && SaysInstalled(Exec(s0, events).schedules[k].Current())
    ensures var s := Exec(s0, events);
            var b := s.schedules[k];
            && b.applies != [] && |b.installed| == |b.applies|
            && (!b.Current().HasSpecChanged() <==> LastApplied(b).spec == b.Current().spec)
            && var pass := b.installed[|b.installed| - 1];
               && EndsWith(CallsOf(s.landings, k, false), pass.calls)
               && pass.docs != [] && Matches(pass.calls, pass.docs, |pass.docs|)
               && forall j :: 0 <= j < |pass.calls| ==>
                    (AsWritten(s, pass.calls[j]) <==>
                     !NamedAgain(pass.calls, j) && !OthersAfter(s.landings, k, pass.calls[j]))
  {
    FreshRun(s0, events, k, true);
    var s := Exec(s0, events);
    var b := s.schedules[k];
    var pass := b.installed[|b.installed| - 1];
    assert StandsExactly(s, k, pass);
    forall j | 0 <= j < |pass.calls| ensures !OwnAfter(s.landings, k, pass.calls, pass.calls[j].target) {
      NoneAfterTheEnd(s.landings, s.nextId, k, pass.calls, pass.calls[j].target);
    }
  }

  /** The applications completed after the one recorded last: nothing recorded them. */
  function Unrecorded(b: Schedule): seq<BackupVersion>
    requires b.records != [] && LastRecord(b).complete <= |b.applies|
  {
    b.applies[LastRecord(b).complete..]
  }

  /** Exactly when an edit is skipped although another spec was applied last: it goes back to the spec recorded last,
      and of the applications whose record was lost since the last is of another spec. */
  lemma LostRecordHidesEditExactly(s0: State, events: seq<Event>, k: Request)
    requires Init(s0) && Legal(s0, events) && AllFresh(s0, events, false) && k in Exec(s0, events).schedules
    ensures var b := Exec(s0, events).schedules[k];
            && b.history != []
            && (b.applies != [] && !b.Current().HasSpecChanged() && LastApplied(b).spec != b.Current().spec <==>
                && b.records != [] && LastRecord(b).snap.spec == b.Current().spec
                && LastRecord(b).complete <= |b.applies| && Unrecorded(b) != []
                && Unrecorded(b)[|Unrecorded(b)| - 1].spec != LastRecord(b).snap.spec)
  {
    FreshRun(s0, events, k, false);
  }

  /** With no lost hash an unchanged look means applied last. That is not yet in place: each document of that last
      installation stands if and only if no later document of its list named the same object, this scheduled backup has
      not written to it since, in a pass that failed halfway, and nobody else has. */
  lemma UnchangedLookMeansAppliedLast(s0: State, events: seq<Event>, k: Request)
    requires Init(s0) && Legal(s0, events) && AllCaughtUp(s0, events) && k in Exec(s0, events).schedules
    requires forall w :: w in Exec(s0, events).workers && w.key == k ==> !w.Inside()
    ensures var s := Exec(s0, events);
            var b := s.schedules[k];
            && b.history != [] && |b.installed| == |b.applies|
            && (!b.Current().HasSpecChanged() <==> b.applies != [] && LastApplied(b).spec == b.Current().spec)
            && (b.applies != [] ==> StandsExactly(s, k, b.installed[|b.installed| - 1]))
  {
    RecordedHashIsExact(s0, events, k);
    CaughtUpIsFresh(s0, events);
    FreshRun(s0, events, k, false);
  }
}
