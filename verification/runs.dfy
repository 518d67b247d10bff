/** Putting runs of the control plane together. */
module Runs {
  import opened Locking
  import opened ControlPlane

  ghost predicate Reaches(s: State, events: seq<Event>, t: State) {
    Legal(s, events) && Exec(s, events) == t
  }

  lemma Then(s: State, e: Event, events: seq<Event>, t: State)
    requires Enabled(s, e) && Reaches(Next(s, e), events, t)
    ensures Reaches(s, [e] + events, t)
  {
    assert ([e] + events)[1..] == events;
  }

  lemma One(s: State, e: Event)
    requires Enabled(s, e)
    ensures Reaches(s, [e], Next(s, e))
  {
    Then(s, e, [], Next(s, e));
    assert [e] + [] == [e];
  }

  lemma {:induction false} Chain(s: State, first: seq<Event>, t: State, second: seq<Event>, u: State)
    requires Reaches(s, first, t) && Reaches(t, second, u)
    ensures Reaches(s, first + second, u)
    decreases |first|
  {
    if first == [] {
      assert first + second == second;
    } else {
      Chain(Next(s, first[0]), first[1..], t, second, u);
      Then(s, first[0], first[1..] + second, u);
      assert [first[0]] + (first[1..] + second) == first + second;
    }
  }

  lemma ThreePasses(s: State, a: seq<Event>, t: State, b: seq<Event>, u: State, c: seq<Event>, v: State)
    requires Reaches(s, a, t) && Reaches(t, b, u) && Reaches(u, c, v)
    ensures Reaches(s, a + b + c, v)
  {
    Chain(s, a, t, b, u);
    Chain(s, a + b, u, c, v);
  }

  /** A run seen from its end. */
  lemma {:induction false} LastStep(s: State, events: seq<Event>)
    requires Legal(s, events) && events != []
    ensures var n := |events| - 1;
            && Legal(s, events[..n]) && Enabled(Exec(s, events[..n]), events[n])
            && Exec(s, events) == Next(Exec(s, events[..n]), events[n])
    decreases |events|
  {
    var n := |events| - 1;
    if n > 0 {
      LastStep(Next(s, events[0]), events[1..]);
      assert events[1..][..n - 1] == events[..n][1..];
    } else {
      assert events[1..] == [];
    }
  }

  // ----- a session -----

  /** Worker `w` may start on `k`: it rests and the lock is free. */
  predicate Ready(s: State, w: nat, k: Request) {
    w < |s.workers| && s.workers[w].phase.Idle? && LockId(k) !in s.locks
  }

  /** The state `s` with worker `w` inside for `k`. */
  function At(s: State, w: nat, k: Request, p: Phase): State
    requires w < |s.workers|
  {
    s.(locks := s.locks + [LockId(k)], workers := s.workers[w := Worker(s.workers[w].role, k, LockId(k), p)])
  }

  /** The state `s` with worker `w` back outside. */
  function Out(s: State, w: nat, k: Request): State
    requires w < |s.workers|
  {
    s.(workers := s.workers[w := Worker(s.workers[w].role, k, LockId(k), Idle)])
  }

  lemma Enter(s: State, w: nat, k: Request)
    requires Ready(s, w, k)
    ensures Reaches(s, [Obtain(w, k)], At(s, w, k, Holding))
  {
    One(s, Obtain(w, k));
  }

  lemma Leave(s: State, w: nat, k: Request)
    requires Ready(s, w, k)
    ensures Reaches(At(s, w, k, Leaving), [Done(w)], Out(s, w, k))
  {
    RemoveAdded(s.locks, LockId(k));
    One(At(s, w, k, Leaving), Done(w));
    assert Next(At(s, w, k, Leaving), Done(w)) == Out(s, w, k);
  }

  lemma Step(s: State, w: nat, k: Request, p: Phase, e: Event)
    requires w < |s.workers| && PhaseOnly(e) && e.w == w && Enabled(At(s, w, k, p), e)
    ensures Reaches(At(s, w, k, p), [e], At(s, w, k, NextPhase(At(s, w, k, p), e)))
  {
    One(At(s, w, k, p), e);
    assert Next(At(s, w, k, p), e) == At(s, w, k, NextPhase(At(s, w, k, p), e));
  }
}
