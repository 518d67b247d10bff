/** hydrateGPGSecret of pkg/factory/aggregate_factory.go as an interleaving: any number of hydrators, each in its own
    reconciler and under its own lock, share one Secret through stale caches and versioned writes. */
module SecretProtocol {
  import opened Wrappers
  import opened Gpg

  /** Where one hydrator stands between two calls to the API server. */
  datatype Phase =
    | Idle
    | Missing                               // the cache knows no such Secret
    | Incomplete                            // the cached copy lacks an identity
    | Reread(copy: Data, version: nat)      // fetched again before the update
    | Hydrated(gpgSecret: Data)             // a.GPGSecret was set
    | Failed

  datatype Hydrator = Hydrator(spec: KeySpec, phase: Phase)

  /** The server's Secret as the list of its versions, oldest first; empty while it does not exist. */
  datatype State = State(history: seq<Data>, hydrators: seq<Hydrator>) {
    function Current(): Data
      requires history != []
    {
      history[|history| - 1]
    }
  }

  datatype Event =
    | Begin(w: nat, spec: KeySpec)
    | ReadCache(w: nat, view: Option<nat>)                       // any version, or not found
    | CacheError(w: nat)
    | Create(w: nat, generated: Option<KeyPair>, acknowledged: bool)
    | ReadAgain(w: nat, version: nat)                            // any version
    | Update(w: nat, generated: Option<KeyPair>, acknowledged: bool)
    | ApiError(w: nat)

  predicate Generates(generated: Option<KeyPair>) {
    generated.Some? ==> generated.value.NonEmpty()
  }

  predicate Enabled(s: State, e: Event) {
    e.w < |s.hydrators| &&
    var phase := s.hydrators[e.w].phase;
    match e
    case Begin(_, _) => phase.Idle? || phase.Hydrated? || phase.Failed?
    case ReadCache(_, view) => phase.Idle? && (view.Some? ==> view.value < |s.history|)
    case CacheError(_) => phase.Idle?
    case Create(_, generated, _) => phase.Missing? && Generates(generated)
    case ReadAgain(_, version) => phase.Incomplete? && version < |s.history|
    case Update(_, generated, _) => phase.Reread? && Generates(generated)
    case ApiError(_) => phase.Missing? || phase.Incomplete? || phase.Reread?
  }

  function Move(s: State, w: nat, phase: Phase): State
    requires w < |s.hydrators|
  {
    s.(hydrators := s.hydrators[w := s.hydrators[w].(phase := phase)])
  }

  function Next(s: State, e: Event): State
    requires Enabled(s, e)
  {
    var w, spec := e.w, s.hydrators[e.w].spec;
    match e
    case Begin(_, wanted) => s.(hydrators := s.hydrators[w := Hydrator(wanted, Idle)])
    case ReadCache(_, view) =>
      if view.None? then Move(s, w, if spec.createIfNotExists then Missing else Failed)
      else if spec.createIfNotExists && NeedsIdentity(s.history[view.value], spec) then Move(s, w, Incomplete)
      else Move(s, w, Hydrated(s.history[view.value]))
    case CacheError(_) => Move(s, w, if spec.createIfNotExists then Failed else Hydrated(map[]))
    case Create(_, generated, acknowledged) =>
      var data := Created(spec, generated);
      if s.history != [] then Move(s, w, Failed)
      else Move(s.(history := [data]), w, if acknowledged then Hydrated(data) else Failed)
    case ReadAgain(_, version) => Move(s, w, Reread(s.history[version], version))
    case Update(_, generated, acknowledged) =>
      var phase := s.hydrators[w].phase;
      var (data, updated) := Recreated(phase.copy, map[], spec, false, generated);
      if updated.None? then Move(s, w, Failed)
      else if !updated.value then Move(s, w, Hydrated(data))
      else if phase.version + 1 != |s.history| then Move(s, w, Failed)
      else Move(s.(history := s.history + [data]), w, if acknowledged then Hydrated(data) else Failed)
    case ApiError(_) => Move(s, w, Failed)
  }

  predicate Legal(s: State, events: seq<Event>)
    decreases |events|
  {
    events == [] || (Enabled(s, events[0]) && Legal(Next(s, events[0]), events[1..]))
  }

  function Exec(s: State, events: seq<Event>): State
    requires Legal(s, events)
    decreases |events|
  {
    if events == [] then s else Exec(Next(s, events[0]), events[1..])
  }

  /** A spec that may share a Secret whose identity lives under `priv` and `pub`: none of the names it writes is one of
      them, or it finds its own two entries there (or in its e-mail entry) and never writes. */
  predicate Compatible(spec: KeySpec, priv: string, pub: string) {
    || {spec.PrivateIndex(), spec.PublicIndex(), spec.PassphraseIndex()} !! {priv, pub}
    || {spec.PrivateIndex(), spec.PublicIndex()} <= {priv, pub} + if spec.email == "" then {} else {EMAIL_INDEX}
  }

  predicate CompatibleEvents(events: seq<Event>, priv: string, pub: string) {
    forall e :: e in events && e.Begin? ==> Compatible(e.spec, priv, pub)
  }

  predicate Init(s: State, priv: string, pub: string) {
    && |s.history| <= 1
    && EMAIL_INDEX != priv && EMAIL_INDEX != pub
    && forall h :: h in s.hydrators ==> h.phase.Idle? && Compatible(h.spec, priv, pub)
  }

  /** The identity found in any version is the one of every later version. */
  ghost predicate Stable(history: seq<Data>, priv: string, pub: string) {
    forall i, j :: 0 <= i <= j < |history| && HasPair(history[i], priv, pub) ==>
      HasPair(history[j], priv, pub) && SamePair(history[i], history[j], priv, pub)
  }

  predicate HydratorOk(history: seq<Data>, h: Hydrator, priv: string, pub: string) {
    && Compatible(h.spec, priv, pub)
    && (h.phase.Reread? ==> h.phase.version < |history| && h.phase.copy == history[h.phase.version])
    && (h.phase.Hydrated? && HasPair(h.phase.gpgSecret, priv, pub) ==>
          history != [] && SamePair(h.phase.gpgSecret, history[|history| - 1], priv, pub))
  }

  ghost predicate Inv(s: State, priv: string, pub: string) {
    && EMAIL_INDEX != priv && EMAIL_INDEX != pub
    && Stable(s.history, priv, pub)
    && forall v :: 0 <= v < |s.hydrators| ==> HydratorOk(s.history, s.hydrators[v], priv, pub)
  }

  /** An update under a compatible spec never changes an identity already complete. */
  lemma RecreatedKeepsPair(d: Data, spec: KeySpec, generated: Option<KeyPair>, priv: string, pub: string)
    requires EMAIL_INDEX != priv && EMAIL_INDEX != pub && Compatible(spec, priv, pub)
    requires HasPair(d, priv, pub)
    ensures var data := Recreated(d, map[], spec, false, generated).0;
            HasPair(data, priv, pub) && SamePair(d, data, priv, pub)
  {
    var names := {spec.PrivateIndex(), spec.PublicIndex(), spec.PassphraseIndex()};
    assert d[EMAIL_INDEX := spec.email] + map[] == d[EMAIL_INDEX := spec.email];
    if names !! {priv, pub} {
      assert priv !in names && pub !in names;
    } else {
      assert spec.PrivateIndex() in {spec.PrivateIndex(), spec.PublicIndex()};
      assert spec.PublicIndex() in {spec.PrivateIndex(), spec.PublicIndex()};
    }
  }

  /** The identity an incompatible spec breaks, and the keys that break it. */
  const STORED := "stored"
  const BREAKING := KeyPair("public", "private")

  lemma IncompatibleBreaks(spec: KeySpec, priv: string, pub: string)
    requires EMAIL_INDEX != priv && EMAIL_INDEX != pub && !Compatible(spec, priv, pub)
    ensures var d: Data := map[priv := STORED, pub := STORED];
            && HasPair(d, priv, pub) && NeedsIdentity(d, spec)
            && Recreated(d, map[], spec, false, Some(BREAKING)).1 == Some(true)
            && !SamePair(d, Recreated(d, map[], spec, false, Some(BREAKING)).0, priv, pub)
  {
    var d: Data := map[priv := STORED, pub := STORED];
    var names := {spec.PrivateIndex(), spec.PublicIndex(), spec.PassphraseIndex()};
    var d1 := d[EMAIL_INDEX := spec.email];
    assert d1 + map[] == d1;
    assert spec.PrivateIndex() !in {priv, pub} || spec.PublicIndex() !in {priv, pub};
    assert NeedsIdentity(d1, spec);
    assert names * {priv, pub} != {};
    var n :| n in names * {priv, pub};
    assert STORED[0] == 's' && BREAKING.publicKey[0] == 'p' && BREAKING.privateKey[0] == 'p';
    assert Recreated(d, map[], spec, false, Some(BREAKING)).0[n] != STORED;
  }

  /** Exactly the compatible specs keep every complete identity, whatever is generated. */
  lemma CompatibleExactly(spec: KeySpec, priv: string, pub: string)
    requires EMAIL_INDEX != priv && EMAIL_INDEX != pub
    ensures Compatible(spec, priv, pub) <==>
            forall d: Data, g: Option<KeyPair> :: HasPair(d, priv, pub) ==>
              SamePair(d, Recreated(d, map[], spec, false, g).0, priv, pub)
  {
    if Compatible(spec, priv, pub) {
      forall d: Data, g: Option<KeyPair> | HasPair(d, priv, pub)
        ensures SamePair(d, Recreated(d, map[], spec, false, g).0, priv, pub)
      {
        RecreatedKeepsPair(d, spec, g, priv, pub);
      }
    } else {
      IncompatibleBreaks(spec, priv, pub);
    }
  }

  /** ... and an update that adds nothing under the protected names cannot complete it from outside. */
  lemma NoPairBefore(history: seq<Data>, priv: string, pub: string)
    requires Stable(history, priv, pub) && history != [] && !HasPair(history[|history| - 1], priv, pub)
    ensures forall i :: 0 <= i < |history| ==> !HasPair(history[i], priv, pub)
  {
  }

  /** Appending a version that keeps the last one's identity, if any, keeps all invariants. */
  lemma AppendStable(history: seq<Data>, data: Data, priv: string, pub: string)
    requires Stable(history, priv, pub) && history != []
    requires var last := history[|history| - 1];
             HasPair(last, priv, pub) ==> HasPair(data, priv, pub) && SamePair(last, data, priv, pub)
    ensures Stable(history + [data], priv, pub)
  {
    var longer := history + [data];
    forall i, j | 0 <= i <= j < |longer| && HasPair(longer[i], priv, pub)
      ensures HasPair(longer[j], priv, pub) && SamePair(longer[i], longer[j], priv, pub)
    {
      if i < |history| && j == |history| {
        assert longer[i] == history[i] && SamePair(history[i], history[|history| - 1], priv, pub);
      }
    }
  }

  lemma UpdateKeepsInv(s: State, e: Event, priv: string, pub: string)
    requires Inv(s, priv, pub) && Enabled(s, e) && e.Update?
    ensures Inv(Next(s, e), priv, pub)
  {
    var h := s.hydrators[e.w];
    var copy := h.phase.copy;
    var (data, updated) := Recreated(copy, map[], h.spec, false, e.generated);
    if HasPair(copy, priv, pub) {
      RecreatedKeepsPair(copy, h.spec, e.generated, priv, pub);
    }
    if updated == Some(true) && h.phase.version + 1 == |s.history| {
      AppendStable(s.history, data, priv, pub);
      if !HasPair(copy, priv, pub) {
        NoPairBefore(s.history, priv, pub);
      }
      forall v | 0 <= v < |s.hydrators| && v != e.w
        ensures HydratorOk(s.history + [data], s.hydrators[v], priv, pub)
      {
        assert HydratorOk(s.history, s.hydrators[v], priv, pub);
      }
    } else if updated == Some(false) && HasPair(data, priv, pub) && !HasPair(copy, priv, pub) {
      CompleteAlready(copy, h.spec, e.generated, priv, pub);
    }
  }

  /** If nothing had to be updated, the identity seen in memory is the one that was read. */
  lemma CompleteAlready(d: Data, spec: KeySpec, generated: Option<KeyPair>, priv: string, pub: string)
    requires EMAIL_INDEX != priv && EMAIL_INDEX != pub
    requires Recreated(d, map[], spec, false, generated).1 == Some(false)
    ensures HasPair(Recreated(d, map[], spec, false, generated).0, priv, pub) <==> HasPair(d, priv, pub)
  {
  }

  lemma StepKeepsInv(s: State, e: Event, priv: string, pub: string)
    requires Inv(s, priv, pub) && Enabled(s, e)
    requires e.Begin? ==> Compatible(e.spec, priv, pub)
    ensures Inv(Next(s, e), priv, pub)
    ensures |s.history| <= |Next(s, e).history| && s.history == Next(s, e).history[..|s.history|]
  {
    if e.Update? {
      UpdateKeepsInv(s, e, priv, pub);
    } else {
      var h := s.hydrators[e.w];
      assert HydratorOk(s.history, h, priv, pub);
      if e.ReadCache? && e.view.Some? {
        assert HasPair(s.history[e.view.value], priv, pub) ==>
            SamePair(s.history[e.view.value], s.Current(), priv, pub);
      }
    }
  }

  lemma {:induction false} RunKeepsInv(s: State, events: seq<Event>, priv: string, pub: string)
    requires Inv(s, priv, pub) && Legal(s, events) && CompatibleEvents(events, priv, pub)
    ensures Inv(Exec(s, events), priv, pub)
    ensures |s.history| <= |Exec(s, events).history| && s.history == Exec(s, events).history[..|s.history|]
    decreases |events|
  {
    if events != [] {
      assert events[0] in events && forall e :: e in events[1..] ==> e in events;
      StepKeepsInv(s, events[0], priv, pub);
      RunKeepsInv(Next(s, events[0]), events[1..], priv, pub);
    }
  }

  lemma StableOverTime(before: seq<Data>, after: seq<Data>, priv: string, pub: string)
    requires Stable(after, priv, pub) && before != [] && before <= after
    requires HasPair(before[|before| - 1], priv, pub)
    ensures SamePair(before[|before| - 1], after[|after| - 1], priv, pub)
  {
    assert after[|before| - 1] == before[|before| - 1];
  }

  /** The key pair is write-once: after any run, in any interleaving and however stale the caches, once the server's
      Secret holds a complete identity no further run changes either half. */
  lemma KeyPairIsWriteOnce(s0: State, before: seq<Event>, after: seq<Event>, priv: string, pub: string)
    requires Init(s0, priv, pub)
    requires Legal(s0, before) && Legal(Exec(s0, before), after)
    requires CompatibleEvents(before, priv, pub) && CompatibleEvents(after, priv, pub)
    ensures var s, t := Exec(s0, before), Exec(Exec(s0, before), after);
            s.history != [] && HasPair(s.Current(), priv, pub) ==>
              t.history != [] && SamePair(s.Current(), t.Current(), priv, pub)
  {
    RunKeepsInv(s0, before, priv, pub);
    var s := Exec(s0, before);
    RunKeepsInv(s, after, priv, pub);
    var t := Exec(s, after);
    if s.history != [] && HasPair(s.Current(), priv, pub) {
      StableOverTime(s.history, t.history, priv, pub);
    }
  }

  // ----- complete hydration -----

  /** A spec whose two keys are both taken from a non-empty e-mail entry needs no keys at all. */
  predicate KeysFromEmail(spec: KeySpec) {
    spec.PrivateIndex() == EMAIL_INDEX == spec.PublicIndex() && spec.email != ""
  }

  /** Which steps hydrate an aggregate that may create keys but lacks them: exactly the creation of a Secret whose key
      generation failed. */
  lemma HydratesWithoutKeysExactly(s: State, e: Event)
    requires Enabled(s, e) && !s.hydrators[e.w].phase.Hydrated? && Next(s, e).hydrators[e.w].phase.Hydrated?
    requires s.hydrators[e.w].spec.createIfNotExists && !KeysFromEmail(s.hydrators[e.w].spec)
    ensures NeedsIdentity(Next(s, e).hydrators[e.w].phase.gpgSecret, s.hydrators[e.w].spec) <==>
            e.Create? && e.generated.None?
  {
    var h := s.hydrators[e.w];
    if e.Create? {
      if e.generated.Some? {
        RecreatedHasPair(map[], h.spec, true, e.generated);
      }
    } else if e.Update? && e.generated.Some? {
      RecreatedHasPair(h.phase.copy, h.spec, false, e.generated);
    }
  }

  /** The last step a hydrator made. */
  function LastOf(events: seq<Event>, w: nat): Option<Event>
    decreases |events|
  {
    if events == [] then None
    else
      var n := |events| - 1;
      if events[n].w == w then Some(events[n]) else LastOf(events[..n], w)
  }

  /** A run seen from its end. */
  lemma {:induction false} LastStep(s: State, events: seq<Event>)
    requires Legal(s, events) && events != []
    ensures var n := |events| - 1;
            && Legal(s, events[..n]) && Enabled(Exec(s, events[..n]), events[n])
            && Exec(s, events) == Next(Exec(s, events[..n]), events[n])
    decreases |events|
  {
    var n := |events| - 1;
    if n > 0 {
      LastStep(Next(s, events[0]), events[1..]);
      assert events[1..][..n - 1] == events[..n][1..];
    } else {
      assert events[1..] == [];
    }
  }

  lemma {:induction false} OneMore(s: State, events: seq<Event>, e: Event)
    requires Legal(s, events) && Enabled(Exec(s, events), e)
    ensures Legal(s, events + [e]) && Exec(s, events + [e]) == Next(Exec(s, events), e)
    decreases |events|
  {
    if events == [] {
      assert events + [e] == [e] && [e][1..] == [];
      assert Legal(Next(s, e), []);
    } else {
      OneMore(Next(s, events[0]), events[1..], e);
      assert (events + [e])[1..] == events[1..] + [e];
    }
  }

  lemma OthersUntouched(s: State, e: Event, w: nat)
    requires Enabled(s, e) && w < |s.hydrators|
    ensures |Next(s, e).hydrators| == |s.hydrators|
    ensures e.w != w ==> Next(s, e).hydrators[w] == s.hydrators[w]
    ensures e.w == w && s.hydrators[w].phase.Hydrated? ==> !Next(s, e).hydrators[w].phase.Hydrated?
    ensures e.w == w && !e.Begin? ==> Next(s, e).hydrators[w].spec == s.hydrators[w].spec
  {
  }

  /** In every run: an aggregate hydrated with createIfNotExists lacks keys if and only if its hydrator's last step was
      the creation of the Secret with a failed key generation. */
  lemma {:induction false} LacksKeysExactly(s0: State, events: seq<Event>, w: nat)
    requires Legal(s0, events) && w < |s0.hydrators| && !s0.hydrators[w].phase.Hydrated?
    ensures var s := Exec(s0, events);
            && |s.hydrators| == |s0.hydrators|
            && var h := s.hydrators[w];
               h.phase.Hydrated? && h.spec.createIfNotExists && !KeysFromEmail(h.spec) ==>
                 (NeedsIdentity(h.phase.gpgSecret, h.spec) <==>
                  var last := LastOf(events, w); last.Some? && last.value.Create? && last.value.generated.None?)
    decreases |events|
  {
    if events != [] {
      var n := |events| - 1;
      LastStep(s0, events);
      LacksKeysExactly(s0, events[..n], w);
      var s, e := Exec(s0, events[..n]), events[n];
      OthersUntouched(s, e, w);
      var h := Next(s, e).hydrators[w];
      if e.w == w && h.phase.Hydrated? && h.spec.createIfNotExists && !KeysFromEmail(h.spec) {
        HydratesWithoutKeysExactly(s, e);
      }
    }
  }

  /** Every aggregate hydrated with createIfNotExists under these names carries exactly the server's pair, at that
      moment and ever after, unless it was hydrated by creating the Secret while key generation failed. Failures of
      others, and on the update path, do no harm. */
  lemma HydratedPairIsTheServers(s0: State, events: seq<Event>, priv: string, pub: string, w: nat)
    requires Init(s0, priv, pub) && Legal(s0, events) && CompatibleEvents(events, priv, pub)
    requires var last := LastOf(events, w); last.Some? && last.value.Create? ==> last.value.generated.Some?
    ensures var s := Exec(s0, events);
            w < |s.hydrators| && s.hydrators[w].phase.Hydrated? && s.hydrators[w].spec.createIfNotExists
            && s.hydrators[w].spec.PrivateIndex() == priv && s.hydrators[w].spec.PublicIndex() == pub ==>
              && s.history != [] && HasPair(s.Current(), priv, pub)
              && SamePair(s.hydrators[w].phase.gpgSecret, s.Current(), priv, pub)
  {
    RunKeepsInv(s0, events, priv, pub);
    SameHydrators(s0, events);
    var s := Exec(s0, events);
    if w < |s.hydrators| {
      assert s0.hydrators[w] in s0.hydrators;
      LacksKeysExactly(s0, events, w);
      assert HydratorOk(s.history, s.hydrators[w], priv, pub);
    }
  }

  lemma {:induction false} SameHydrators(s: State, events: seq<Event>)
    requires Legal(s, events)
    ensures |Exec(s, events).hydrators| == |s.hydrators|
    decreases |events|
  {
    if events != [] {
      SameHydrators(Next(s, events[0]), events[1..]);
    }
  }

  // ----- what is stored -----

  /** Only a hydrator that may create keys is on the way to storing some, and a copy read again before an update is the
      version it is said to be. */
  predicate WayOk(s: State, v: nat)
    requires v < |s.hydrators|
  {
    var h := s.hydrators[v];
    && (h.phase.Missing? || h.phase.Incomplete? || h.phase.Reread? ==> h.spec.createIfNotExists)
    && (h.phase.Reread? ==> h.phase.version < |s.history| && h.phase.copy == s.history[h.phase.version])
  }

  predicate CopiesOk(s: State) {
    forall v :: 0 <= v < |s.hydrators| ==> WayOk(s, v)
  }

  /** What a step of a hydrator with this spec stores behind these versions, entry by entry. */
  predicate WritesOut(history: seq<Data>, spec: KeySpec, e: Event, made: Data) {
    spec.createIfNotExists &&
    match e
    case Create(_, generated, _) =>
      && history == []
      && if generated.None? then made == map["e-mail.txt" := spec.email]
         else DistinctNames(spec) ==>
                HoldsIdentity(made, spec, generated.value) && made.Keys == set n | n in NamesOf(spec)
    case Update(_, generated, _) =>
      && history != [] && generated.Some?
      && (DistinctNames(spec) ==>
            HoldsIdentity(made, spec, generated.value) && KeepsOthers(history[|history| - 1], made, spec))
    case _ => false
  }

  lemma CreatedWrittenOut(spec: KeySpec, generated: Option<KeyPair>)
    ensures generated.None? ==> Created(spec, generated) == map["e-mail.txt" := spec.email]
    ensures generated.Some? && DistinctNames(spec) ==>
              HoldsIdentity(Created(spec, generated), spec, generated.value)
              && Created(spec, generated).Keys == set n | n in NamesOf(spec)
  {
    assert map[EMAIL_INDEX := spec.email] + map[] == map[EMAIL_INDEX := spec.email];
    if generated.Some? && DistinctNames(spec) {
      NewIdentityWrittenOut(map[], spec, true, generated);
      assert forall n :: n in NamesOf(spec) <==> n in Created(spec, generated);
    }
  }

  lemma StepWrites(s: State, e: Event)
    requires CopiesOk(s) && Enabled(s, e)
    ensures CopiesOk(Next(s, e))
    ensures Next(s, e).history == s.history
            || (|Next(s, e).history| == |s.history| + 1 && s.history == Next(s, e).history[..|s.history|]
                && WritesOut(s.history, s.hydrators[e.w].spec, e, Next(s, e).history[|s.history|]))
  {
    var spec, p := s.hydrators[e.w].spec, s.hydrators[e.w].phase;
    assert WayOk(s, e.w);
    forall v | 0 <= v < |s.hydrators| ensures WayOk(Next(s, e), v) {
      assert WayOk(s, v);
    }
    if e.Create? {
      CreatedWrittenOut(spec, e.generated);
    } else if e.Update? && DistinctNames(spec) && Recreated(p.copy, map[], spec, false, e.generated).1 == Some(true) {
      NewIdentityWrittenOut(p.copy, spec, false, e.generated);
    }
  }

  lemma {:induction false} RunWrites(s: State, events: seq<Event>)
    requires CopiesOk(s) && Legal(s, events)
    ensures CopiesOk(Exec(s, events)) && s.history <= Exec(s, events).history
    decreases |events|
  {
    if events != [] {
      StepWrites(s, events[0]);
      RunWrites(Next(s, events[0]), events[1..]);
    }
  }

  /** In every run, whoever interferes, each version of the Secret beyond the first ones was stored by one step of a
      hydrator that may create keys: a creation with the identity just generated, or the e-mail alone when that failed;
      or an update that puts a new identity into the version before it. Under distinct names the public half, the
      private half, the empty passphrase and the e-mail stand where they belong, and an update leaves every other entry
      as it was. */
  lemma {:induction false} VersionsWrittenOut(s0: State, events: seq<Event>, i: nat) returns (n: nat)
    requires CopiesOk(s0) && Legal(s0, events) && |s0.history| <= i < |Exec(s0, events).history|
    ensures n < |events| && Legal(s0, events[..n]) && Enabled(Exec(s0, events[..n]), events[n])
    ensures var s, t := Exec(s0, events[..n]), Exec(s0, events);
            s.history == t.history[..i] && WritesOut(s.history, s.hydrators[events[n].w].spec, events[n], t.history[i])
    decreases |events|
  {
    n := |events| - 1;
    LastStep(s0, events);
    RunWrites(s0, events[..n]);
    var s := Exec(s0, events[..n]);
    StepWrites(s, events[n]);
    if i < |s.history| {
      var before := events[..n];
      n := VersionsWrittenOut(s0, before, i);
      assert before[..n] == events[..n];
    }
  }

  /** A hydrator that must not create keys takes what it finds: in every run its aggregate carries some version the
      server held, or nothing at all after a read that failed; without a Secret it fails. */
  lemma {:induction false} HydratedFromServer(s0: State, events: seq<Event>, w: nat)
    requires Legal(s0, events) && CopiesOk(s0) && w < |s0.hydrators| && !s0.hydrators[w].phase.Hydrated?
    ensures var s := Exec(s0, events);
            && |s.hydrators| == |s0.hydrators|
            && var h := s.hydrators[w];
               h.phase.Hydrated? && !h.spec.createIfNotExists ==>
                 || h.phase.gpgSecret in s.history
                 || (h.phase.gpgSecret == map[] && LastOf(events, w) == Some(CacheError(w)))
    decreases |events|
  {
    if events != [] {
      var n := |events| - 1;
      LastStep(s0, events);
      HydratedFromServer(s0, events[..n], w);
      RunWrites(s0, events[..n]);
      var s, e := Exec(s0, events[..n]), events[n];
      OthersUntouched(s, e, w);
      StepWrites(s, e);
      assert forall d :: d in s.history ==> d in Next(s, e).history;
      assert WayOk(s, w);
    }
  }

  // ----- what goes wrong -----

  /** Legal one-by-one execution of a concrete run. */
  lemma RunOf2(s: State, a: Event, b: Event)
    requires Enabled(s, a) && Enabled(Next(s, a), b)
    ensures Legal(s, [a, b]) && Exec(s, [a, b]) == Next(Next(s, a), b)
  {
    assert [a, b][1..] == [b] && [b][1..] == [];
    assert Legal(Next(s, a), [b]);
    assert Exec(Next(s, a), [b]) == Next(Next(s, a), b);
  }

  lemma RunOf3(s: State, a: Event, b: Event, c: Event)
    requires Enabled(s, a) && Enabled(Next(s, a), b) && Enabled(Next(Next(s, a), b), c)
    ensures Legal(s, [a, b, c]) && Exec(s, [a, b, c]) == Next(Next(Next(s, a), b), c)
  {
    RunOf2(Next(s, a), b, c);
    assert [a, b, c][1..] == [b, c];
  }

  /** The creation path ignores a failed key generation: it stores a Secret without keys and still hydrates. */
  lemma FailedGenerationHydratesWithoutKeys(spec: KeySpec)
    requires spec.createIfNotExists && !KeysFromEmail(spec)
    ensures var s0 := State([], [Hydrator(spec, Idle)]);
            var run := [ReadCache(0, None), Create(0, None, true)];
            && Legal(s0, run)
            && Exec(s0, run).hydrators[0].phase == Hydrated(Exec(s0, run).Current())
            && NeedsIdentity(Exec(s0, run).Current(), spec)
  {
    var s0 := State([], [Hydrator(spec, Idle)]);
    RunOf2(s0, ReadCache(0, None), Create(0, None, true));
  }

  /** With the private key stored under the e-mail entry's name a hydrator that re-read the Secret before an update
      it then skips carries the e-mail address instead of the server's private key. */
  lemma EmailNameHidesPrivateKey(spec: KeySpec, stored: Data)
    requires spec.createIfNotExists && spec.PrivateIndex() == EMAIL_INDEX && spec.PublicIndex() != EMAIL_INDEX
    requires spec.email != "" && !NeedsIdentity(stored, spec) && stored[EMAIL_INDEX] != spec.email
    ensures var s0 := State([map[], stored], [Hydrator(spec, Idle)]);
            var run := [ReadCache(0, Some(0)), ReadAgain(0, 1), Update(0, None, true)];
            && Legal(s0, run)
            && Exec(s0, run).history == s0.history
            && Exec(s0, run).hydrators[0].phase.Hydrated?
            && !SamePair(Exec(s0, run).hydrators[0].phase.gpgSecret, stored, spec.PrivateIndex(), spec.PublicIndex())
  {
    var s0 := State([map[], stored], [Hydrator(spec, Idle)]);
    UpdateKeepsPairExactly(stored, spec);
    assert stored[EMAIL_INDEX := spec.email] + map[] == stored[EMAIL_INDEX := spec.email];
    RunOf3(s0, ReadCache(0, Some(0)), ReadAgain(0, 1), Update(0, None, true));
  }

  /** With an empty e-mail address on top, the update finds the private key missing in its own copy and overwrites the
      server's complete pair: under the e-mail entry's name it is not write-once. */
  lemma EmptyEmailReplacesPair(spec: KeySpec, stored: Data, pair: KeyPair)
    requires spec.createIfNotExists && spec.PrivateIndex() == EMAIL_INDEX && spec.email == ""
    requires !NeedsIdentity(stored, spec) && pair.NonEmpty() && pair.privateKey != stored[EMAIL_INDEX]
    ensures var s0 := State([map[], stored], [Hydrator(spec, Idle)]);
            var run := [ReadCache(0, Some(0)), ReadAgain(0, 1), Update(0, Some(pair), true)];
            && Legal(s0, run)
            && s0.history <= Exec(s0, run).history && |Exec(s0, run).history| == 3
            && HasPair(stored, spec.PrivateIndex(), spec.PublicIndex())
            && !SamePair(stored, Exec(s0, run).Current(), spec.PrivateIndex(), spec.PublicIndex())
  {
    var s0 := State([map[], stored], [Hydrator(spec, Idle)]);
    UpdateKeepsPairExactly(stored, spec);
    assert stored[EMAIL_INDEX := ""] + map[] == stored[EMAIL_INDEX := ""];
    RunOf3(s0, ReadCache(0, Some(0)), ReadAgain(0, 1), Update(0, Some(pair), true));
  }

  /** A single hydrator with an incompatible spec, say one that shares only one of the two names, replaces a complete
      identity of others. */
  lemma IncompatibleReplacesPair(spec: KeySpec, priv: string, pub: string)
    requires EMAIL_INDEX != priv && EMAIL_INDEX != pub && !Compatible(spec, priv, pub) && spec.createIfNotExists
    ensures var s0 := State([map[priv := STORED, pub := STORED]], [Hydrator(spec, Idle)]);
            var run := [ReadCache(0, Some(0)), ReadAgain(0, 0), Update(0, Some(BREAKING), true)];
            && Legal(s0, run)
            && HasPair(s0.Current(), priv, pub) && Exec(s0, run).history != []
            && !SamePair(s0.Current(), Exec(s0, run).Current(), priv, pub)
  {
    var s0 := State([map[priv := STORED, pub := STORED]], [Hydrator(spec, Idle)]);
    IncompatibleBreaks(spec, priv, pub);
    RunOf3(s0, ReadCache(0, Some(0)), ReadAgain(0, 0), Update(0, Some(BREAKING), true));
  }
}
