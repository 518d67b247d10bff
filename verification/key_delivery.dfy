/** A GPG key on its way: from the Secret, through the aggregate, into the key file and the definition of a render
    pass. */
module KeyDelivery {
  import opened Wrappers
  import opened Gpg
  import opened Rendering
  import opened Variables
  import opened Aggregate
  import opened Hydration

  /** What a render pass takes from the variables. */
  datatype Passed = Passed(keyFile: string, definition: Option<Tree>)

  /** CreateScheduledBackupAggregate and one RenderKubernetesResourcesForOperation, while other hydrators work on the
      same Secret. An identity generated on the way arrives half by half when its names are written out and distinct: a
      backup pass gets the public half, a restore pass the private one, in the file and in the definition alike. */
  method HydrateAndRender(shared: SharedSecret, w: nat, spec: KeySpec, own: Operation, cronJobEnabled: bool,
                          token: string, op: Operation, vars: Tree, secret: Option<map<string, string>>,
                          importOnlyKeys: seq<string>)
    returns (passed: Option<Passed>, ghost made: Option<KeyPair>)
    requires shared.Valid() && w < |shared.st.hydrators|
    requires var phase := shared.st.hydrators[w].phase; phase.Idle? || phase.Hydrated? || phase.Failed?
    modifies shared`st, shared`trace
    ensures shared.Valid() && old(shared.st).history <= shared.st.history
    ensures passed.Some? <==> w < |shared.st.hydrators| && shared.st.hydrators[w].phase.Hydrated?
    ensures passed.Some? ==> passed.value.keyFile == KeyFor(shared.st.hydrators[w].phase.gpgSecret, spec, op)
    ensures made.Some? && DistinctNames(spec) && spec.publicKey != "" && spec.privateKey != "" ==>
              && passed.Some?
              && passed.value.keyFile == if op.Backup? then made.value.publicKey else made.value.privateKey
    ensures passed.Some? && NoOverride({GPG_VARIABLE, TOKEN_VARIABLE}, ImportedFrom(secret, importOnlyKeys)) ==>
              && CarriesKey(passed.value.definition, passed.value.keyFile)
              && (token != "" ==> Carries(passed.value.definition, ["Repository", "token"], token))
  {
    var result;
    result, made := shared.HydrateGpgSecret(w, spec);
    if result.None? {
      return None, made;
    }
    var aggregate := new BackupAggregate(spec, result.value, own, cronJobEnabled);
    aggregate.Seed(token, None);
    ghost var imported := ImportedFrom(secret, importOnlyKeys);
    VariablesDiffer();
    if NoOverride({GPG_VARIABLE, TOKEN_VARIABLE}, imported) {
      assert NoOverride(aggregate.additionalVars.Keys + {GPG_VARIABLE}, imported);
    }
    var keyFile, definition := aggregate.RenderPass(op, vars, secret, importOnlyKeys);
    if made.Some? && DistinctNames(spec) && spec.publicKey != "" && spec.privateKey != "" {
      IdentityRenders(result.value, spec, made.value, op);
    }
    return Some(Passed(keyFile, definition)), made;
  }
}
