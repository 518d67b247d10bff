/** hydrateGPGSecret of pkg/factory/aggregate_factory.go, step by step on a Secret object, while other hydrators work on
    the same Secret of the server. */
module Hydration {
  import opened Wrappers
  import opened Gpg
  import opened SecretProtocol

  /** The server's Secret with everybody who hydrates from it. */
  class SharedSecret {
    ghost const start: State
    ghost var trace: seq<Event>
    var st: State

    ghost predicate Valid()
      reads this
    {
      Legal(start, trace) && Exec(start, trace) == st
    }

    constructor (st: State)
      ensures Valid() && this.st == st == start && trace == []
    {
      this.st, start, trace := st, st, [];
    }

    method Do(e: Event)
      requires Valid() && Enabled(st, e)
      modifies `st, `trace
      ensures Valid() && st == Next(old(st), e) && trace == old(trace) + [e]
    {
      OneMore(start, trace, e);
      st := Next(st, e);
      trace := trace + [e];
    }

    /** Any steps of other hydrators; the Secret's versions are only added to. */
    method Interfere(w: nat)
      requires Valid() && w < |st.hydrators|
      modifies `st, `trace
      ensures Valid() && old(trace) <= trace
      ensures |st.hydrators| == |old(st).hydrators| && st.hydrators[w] == old(st).hydrators[w]
      ensures old(st).history <= st.history
    {
      var steps: int := *;
      while steps > 0
        invariant Valid() && old(trace) <= trace
        invariant |st.hydrators| == |old(st).hydrators| && st.hydrators[w] == old(st).hydrators[w]
        invariant old(st).history <= st.history
      {
        var e: Event := *;
        if Enabled(st, e) && e.w != w {
          OthersUntouched(st, e, w);
          Do(e);
        }
        steps := steps - 1;
      }
    }

    /** No Secret in the cache: generate a key pair and create one; a failed generation goes unnoticed. The creation is
        refused when a Secret exists by now, and what is returned is what is then stored. */
    method CreateSecret(w: nat) returns (result: Option<Data>, ghost generated: Option<KeyPair>)
      requires Valid() && w < |st.hydrators| && st.hydrators[w].phase.Missing?
      modifies `st, `trace
      ensures Valid() && old(trace) <= trace
      ensures |st.hydrators| == |old(st).hydrators|
      ensures st.hydrators[w] == Hydrator(old(st).hydrators[w].spec,
                                          if result.Some? then Hydrated(result.value) else Failed)
      ensures st.history == if old(st).history == [] then [Created(old(st).hydrators[w].spec, generated)]
                            else old(st).history
      ensures result.Some? ==> old(st).history == [] && st.history == [result.value]
      ensures var spec := old(st).hydrators[w].spec;
              result.Some? && generated.Some? && DistinctNames(spec) ==>
                HoldsIdentity(result.value, spec, generated.value)
    {
      var pair: Option<KeyPair>, acknowledged: bool := *, *;
      if pair.Some? && !pair.value.NonEmpty() {
        pair := None;
      }
      generated := pair;
      var secret, _ := CreateNewSecret(st.hydrators[w].spec, pair);
      Do(Create(w, pair, acknowledged));
      result := if st.hydrators[w].phase.Failed? then None else Some(secret.data);
    }

    /** UpdateGPGSecretWithRecreatedGPGKey on the copy, and an Update that carries the version of that copy. */
    method WriteBack(w: nat) returns (result: Option<Data>, ghost wrote: bool, ghost generated: Option<KeyPair>)
      requires Valid() && w < |st.hydrators| && st.hydrators[w].phase.Reread?
      modifies `st, `trace
      ensures Valid() && old(trace) <= trace
      ensures |st.hydrators| == |old(st).hydrators|
      ensures st.hydrators[w] == Hydrator(old(st).hydrators[w].spec,
                                          if result.Some? then Hydrated(result.value) else Failed)
      ensures var p, made := old(st).hydrators[w].phase,
                             Recreated(old(st).hydrators[w].phase.copy, map[], old(st).hydrators[w].spec, false,
                                       generated);
              && wrote == (made.1 == Some(true) && p.version + 1 == |old(st).history|)
              && st.history == (if wrote then old(st).history + [made.0] else old(st).history)
              && (result.Some? ==> result.value == made.0 && made.1 == Some(wrote))
      ensures var spec := old(st).hydrators[w].spec;
              result.Some? && wrote && DistinctNames(spec) ==>
                generated.Some? && HoldsIdentity(result.value, spec, generated.value)
    {
      var p := st.hydrators[w].phase;
      var secret := new Secret(true, p.copy, map[]);
      var pair: Option<KeyPair>, acknowledged: bool := *, *;
      if pair.Some? && !pair.value.NonEmpty() {
        pair := None;
      }
      generated := pair;
      var updated := secret.UpdateWithRecreatedKey(st.hydrators[w].spec, false, pair);
      wrote := updated == Some(true) && p.version + 1 == |st.history|;
      Do(Update(w, pair, acknowledged));
      result := if st.hydrators[w].phase.Failed? then None else Some(secret.data);
    }

    /** The cached copy is incomplete: read again, complete it if that is still needed, and write with its version. A
        write that lands replaces the very version that was read; without one the Secret is left to the others. */
    method UpdateSecret(w: nat) returns (result: Option<Data>, ghost wrote: bool, ghost seen: Data,
                                         ghost generated: Option<KeyPair>)
      requires Valid() && w < |st.hydrators| && st.hydrators[w].phase.Incomplete? && st.history != []
      modifies `st, `trace
      ensures Valid() && old(trace) <= trace && old(st).history <= st.history
      ensures |st.hydrators| == |old(st).hydrators|
      ensures st.hydrators[w] == Hydrator(old(st).hydrators[w].spec,
                                          if result.Some? then Hydrated(result.value) else Failed)
      ensures wrote ==> |st.history| >= 2 && seen == st.history[|st.history| - 2]
      ensures var made := Recreated(seen, map[], old(st).hydrators[w].spec, false, generated);
              && (wrote ==> made == (st.Current(), Some(true)))
              && (result.Some? ==> seen in st.history && result.value == made.0 && made.1 == Some(wrote))
      ensures var spec := old(st).hydrators[w].spec;
              result.Some? && wrote && DistinctNames(spec) ==>
                generated.Some? && HoldsIdentity(result.value, spec, generated.value)
    {
      var failing: bool, version: int := *, *;
      if failing || version < 0 || |st.history| <= version {
        Do(ApiError(w));
        return None, false, map[], None;
      }
      seen := st.history[version];
      Do(ReadAgain(w, version));
      Interfere(w);
      result, wrote, generated := WriteBack(w);
    }

    /** The cache holds a Secret: take it as it is, or complete it. */
    method UseCached(w: nat, version: nat) returns (result: Option<Data>, ghost made: Option<KeyPair>)
      requires Valid() && w < |st.hydrators| && st.hydrators[w].phase.Idle? && version < |st.history|
      modifies `st, `trace
      ensures Valid() && old(trace) <= trace && old(st).history <= st.history
      ensures |st.hydrators| == |old(st).hydrators|
      ensures st.hydrators[w] == Hydrator(old(st).hydrators[w].spec,
                                          if result.Some? then Hydrated(result.value) else Failed)
      ensures made.Some? ==> old(st).hydrators[w].spec.createIfNotExists
      ensures var spec := old(st).hydrators[w].spec;
              made.Some? && DistinctNames(spec) ==>
                result.Some? && st.history != [] && result.value == st.Current()
                && HoldsIdentity(result.value, spec, made.value)
    {
      made := None;
      var spec := st.hydrators[w].spec;
      var secret := new Secret(true, st.history[version], map[]);
      ghost var cached := st.history[version];
      Do(ReadCache(w, Some(version)));
      Interfere(w);
      if spec.createIfNotExists {
        var should := secret.ShouldUpdate(spec);
        assert cached + map[] == cached;
        if should {
          ghost var wrote, seen, generated;
          result, wrote, seen, generated := UpdateSecret(w);
          made := if wrote && result.Some? then generated else None;
          return;
        }
      }
      result := Some(secret.data);
    }

    /** hydrateGPGSecret; None is a returned error, otherwise the Data section of the Secret put into the aggregate.
        `made` is the identity this very call has generated and stored: then the result is the version just stored, and
        under distinct names each half stands under its own name. */
    method HydrateGpgSecret(w: nat, spec: KeySpec) returns (result: Option<Data>, ghost made: Option<KeyPair>)
      requires Valid() && w < |st.hydrators|
      requires var phase := st.hydrators[w].phase; phase.Idle? || phase.Hydrated? || phase.Failed?
      modifies `st, `trace
      ensures Valid() && old(trace) <= trace && old(st).history <= st.history
      ensures |st.hydrators| == |old(st).hydrators|
      ensures st.hydrators[w] == Hydrator(spec, if result.Some? then Hydrated(result.value) else Failed)
      ensures made.Some? ==> spec.createIfNotExists
      ensures made.Some? && DistinctNames(spec) ==>
                result.Some? && st.history != [] && result.value == st.Current()
                && HoldsIdentity(result.value, spec, made.value)
    {
      made := None;
      Do(Begin(w, spec));
      Interfere(w);
      var failing: bool, found: bool := *, *;
      if failing {
        Do(CacheError(w));
        return if spec.createIfNotExists then None else Some(map[]), None;
      }
      var version: int := *;
      if !found || version < 0 || |st.history| <= version {
        Do(ReadCache(w, None));
        Interfere(w);
        if !spec.createIfNotExists {
          return None, None;
        }
        ghost var generated;
        result, generated := CreateSecret(w);
        made := if result.Some? then generated else None;
        return;
      }
      result, made := UseCached(w, version);
    }

    /** Every aggregate hydrated under these names with createIfNotExists carries the pair the server holds, unless its
        own last step created the Secret while key generation failed. */
    lemma HydratedAgrees(w: nat, priv: string, pub: string)
      requires Valid() && Init(start, priv, pub) && CompatibleEvents(trace, priv, pub)
      requires w < |st.hydrators| && st.hydrators[w].phase.Hydrated?
      requires var spec := st.hydrators[w].spec;
               spec.createIfNotExists && spec.PrivateIndex() == priv && spec.PublicIndex() == pub
      requires var last := LastOf(trace, w); last.Some? && last.value.Create? ==> last.value.generated.Some?
      ensures st.history != [] && HasPair(st.Current(), priv, pub)
      ensures SamePair(st.hydrators[w].phase.gpgSecret, st.Current(), priv, pub)
    {
      HydratedPairIsTheServers(start, trace, priv, pub, w);
    }
  }
}
