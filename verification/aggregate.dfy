/** The mutable part of a ScheduledBackup aggregate: the variables seeded by pkg/factory/aggregate_factory.go and
    overwritten by each render pass of pkg/bmg/templating.go. */
module Aggregate {
  import opened Wrappers
  import opened Gpg
  import opened Rendering
  import opened Variables

  const GPG_VARIABLE := "HelmValues.gpgKeyContent"
  const KIND_VARIABLE := "HelmValues.kindType"
  const TOKEN_VARIABLE := "Repository.token"

  /** A Go map read of a possibly missing key. */
  function Lookup(d: Data, key: string): string {
    if key in d then d[key] else ""
  }

  /** The key text for an operation: encryption needs the public half, decryption the private half. The names are
      taken from the spec as written, without the defaults of its getters. */
  function KeyFor(d: Data, spec: KeySpec, op: Operation): string {
    Lookup(d, if op.Backup? then spec.publicKey else spec.privateKey)
  }

  /** Rendering finds the half it needs exactly when its name is written out in the spec, whatever else the Secret
      holds: a spec relying on the default names stores its identity under them and then renders an empty key. */
  lemma KeyFoundExactlyWhenNamed(d: Data, spec: KeySpec, op: Operation)
    requires "" !in d
    ensures var name := if op.Backup? then spec.publicKey else spec.privateKey;
            var index := Named(name, if op.Backup? then "key.pub" else "key");
            && (name == "" || name !in d ==> KeyFor(d, spec, op) == "")
            && (Present(d, index) ==> (KeyFor(d, spec, op) == d[index] <==> name != ""))
  {
  }

  /** With the names written out, an identity is rendered half by half: the public one into a backup, the private one
      into a restore. */
  lemma IdentityRenders(d: Data, spec: KeySpec, pair: KeyPair, op: Operation)
    requires HoldsIdentity(d, spec, pair) && spec.publicKey != "" && spec.privateKey != ""
    ensures KeyFor(d, spec, op) == match op case Backup => pair.publicKey case Restore => pair.privateKey
  {
  }

  lemma KeyParts()
    ensures GPG_VARIABLE[..10] == "HelmValues" && GPG_VARIABLE[11..] == "gpgKeyContent"
    ensures '.' !in GPG_VARIABLE[..10] && '.' !in GPG_VARIABLE[11..]
  {
  }

  lemma KeyPath()
    ensures PathOf(GPG_VARIABLE) == ["HelmValues", "gpgKeyContent"]
  {
    KeyParts();
    PathOfTwo(GPG_VARIABLE, 10, "HelmValues", "gpgKeyContent");
  }

  lemma KindPath()
    ensures PathOf(KIND_VARIABLE) == ["HelmValues", "kindType"]
  {
    PathOfTwo(KIND_VARIABLE, 10, "HelmValues", "kindType");
  }

  lemma TokenPath()
    ensures PathOf(TOKEN_VARIABLE) == ["Repository", "token"]
  {
    PathOfTwo(TOKEN_VARIABLE, 10, "Repository", "token");
  }

  /** Where the three variables of an aggregate stand in a definition. */
  lemma VariablePaths()
    ensures PathOf(GPG_VARIABLE) == ["HelmValues", "gpgKeyContent"]
    ensures PathOf(KIND_VARIABLE) == ["HelmValues", "kindType"]
    ensures PathOf(TOKEN_VARIABLE) == ["Repository", "token"]
  {
    KeyPath();
    KindPath();
    TokenPath();
  }

  lemma VariablesDiffer()
    ensures GPG_VARIABLE != KIND_VARIABLE && TOKEN_VARIABLE != GPG_VARIABLE && TOKEN_VARIABLE != KIND_VARIABLE
  {
    assert GPG_VARIABLE[11] != KIND_VARIABLE[11] && TOKEN_VARIABLE[0] != GPG_VARIABLE[0];
  }

  /** The definition, if it could be written at all, holds exactly this text there. */
  predicate Carries(definition: Option<Tree>, path: Path, text: string) {
    definition.Some? ==> Get(definition.value, path) == Some(Leaf(text))
  }

  predicate CarriesKey(definition: Option<Tree>, key: string) {
    Carries(definition, ["HelmValues", "gpgKeyContent"], key)
  }

  /** The entries of the vars Secret that are merged, if there is one. */
  function ImportedFrom(secret: Option<map<string, string>>, importOnlyKeys: seq<string>): (keys: set<string>)
    ensures forall k :: k in keys <==> secret.Some? && Wanted(secret.value, importOnlyKeys, k)
  {
    if secret.Some? then Imported(secret.value, importOnlyKeys) else {}
  }

  /** No dotted name clashes with another, and the vars Secret does not import the aggregate's own variables. */
  ghost predicate NoOverride(names: set<string>, imported: set<string>) {
    PrefixFree(names + imported) && imported !! {GPG_VARIABLE, KIND_VARIABLE, TOKEN_VARIABLE}
  }

  /** The key, the kind and the token stand where the chart looks for them. */
  predicate CarriesVariables(definition: Option<Tree>, variables: map<string, string>) {
    && (GPG_VARIABLE in variables ==> CarriesKey(definition, variables[GPG_VARIABLE]))
    && (KIND_VARIABLE in variables ==> Carries(definition, ["HelmValues", "kindType"], variables[KIND_VARIABLE]))
    && (TOKEN_VARIABLE in variables ==> Carries(definition, ["Repository", "token"], variables[TOKEN_VARIABLE]))
  }

  /** Whatever else is merged, a written definition holds an aggregate's variables at these paths. */
  lemma DefinitionCarries(vars: Tree, additional: map<string, string>, secret: map<string, string>,
                          imported: set<string>, result: Option<Tree>)
    requires imported <= secret.Keys && Definition(vars, additional, secret, imported, result)
    requires imported !! {GPG_VARIABLE, KIND_VARIABLE, TOKEN_VARIABLE}
    ensures CarriesVariables(result, additional)
    ensures result.Some? && TOKEN_VARIABLE in additional ==>
              Get(result.value, ["Repository", "token"]) == Some(Leaf(additional[TOKEN_VARIABLE]))
    ensures result.Some? && KIND_VARIABLE in additional ==>
              Get(result.value, ["HelmValues", "kindType"]) == Some(Leaf(additional[KIND_VARIABLE]))
    ensures result.Some? && GPG_VARIABLE in additional ==>
              Get(result.value, ["HelmValues", "gpgKeyContent"]) == Some(Leaf(additional[GPG_VARIABLE]))
  {
    VariablePaths();
  }

  class BackupAggregate {
    const spec: KeySpec
    const gpg: Data
    var operation: Operation
    var cronJobEnabled: bool
    var additionalVars: map<string, string>

    constructor (spec: KeySpec, gpg: Data, operation: Operation, cronJobEnabled: bool)
      ensures this.spec == spec && this.gpg == gpg && additionalVars == map[]
      ensures this.operation == operation && this.cronJobEnabled == cronJobEnabled
    {
      this.spec, this.gpg, this.operation, this.cronJobEnabled := spec, gpg, operation, cronJobEnabled;
      additionalVars := map[];
    }

    /** The tail of CreateScheduledBackupAggregate; `wanted` is None for the scheduled backup itself. */
    method Seed(token: string, wanted: Option<Operation>)
      modifies `additionalVars
      ensures var op := if wanted.Some? then wanted.value else operation;
              var withToken := if token == "" then old(additionalVars)
                               else old(additionalVars)[TOKEN_VARIABLE := token];
              additionalVars == withToken[GPG_VARIABLE := KeyFor(gpg, spec, op)]
    {
      if token != "" {
        additionalVars := additionalVars[TOKEN_VARIABLE := token];
      }
      var op := operation;
      if wanted.Some? {
        op := wanted.value;
      }
      if op == Backup {
        additionalVars := additionalVars[GPG_VARIABLE := Lookup(gpg, spec.publicKey)];
      } else {
        additionalVars := additionalVars[GPG_VARIABLE := Lookup(gpg, spec.privateKey)];
      }
    }

    /** CreateRequestedBackupActionAggregate: seed for the action, then turn the spec into a one-shot trigger. */
    method SeedForAction(token: string, action: Operation, kindType: string)
      modifies this
      ensures operation == action && !cronJobEnabled
      ensures GPG_VARIABLE in additionalVars && additionalVars[GPG_VARIABLE] == KeyFor(gpg, spec, action)
      ensures KIND_VARIABLE in additionalVars
      ensures additionalVars[KIND_VARIABLE] == if kindType == "" then "Job" else kindType
      ensures if token != "" then TOKEN_VARIABLE in additionalVars && additionalVars[TOKEN_VARIABLE] == token
              else SameEntry(old(additionalVars), additionalVars, TOKEN_VARIABLE)
      ensures forall k :: k !in {TOKEN_VARIABLE, GPG_VARIABLE, KIND_VARIABLE} ==>
                SameEntry(old(additionalVars), additionalVars, k)
    {
      VariablesDiffer();
      Seed(token, Some(action));
      var targetKind := "Job";
      if kindType != "" {
        targetKind := kindType;
      }
      additionalVars := additionalVars[KIND_VARIABLE := targetKind];
      cronJobEnabled := false;
      operation := action;
    }

    /** writeGPGKey: overwrites the shared variable and returns the content of the key file. */
    method WriteGpgKey(op: Operation) returns (keyFile: string)
      modifies `additionalVars
      ensures additionalVars == old(additionalVars)[GPG_VARIABLE := KeyFor(gpg, spec, op)]
      ensures keyFile == KeyFor(gpg, spec, op)
    {
      var keyName := spec.privateKey;
      additionalVars := additionalVars[GPG_VARIABLE := Lookup(gpg, spec.privateKey)];
      if op == Backup {
        keyName := spec.publicKey;
        additionalVars := additionalVars[GPG_VARIABLE := Lookup(gpg, spec.publicKey)];
      }
      keyFile := Lookup(gpg, keyName);
    }

    /** The part of one RenderKubernetesResourcesForOperation call that depends on the variables. */
    method RenderPass(op: Operation, vars: Tree, secret: Option<map<string, string>>, importOnlyKeys: seq<string>)
      returns (keyFile: string, definition: Option<Tree>)
      modifies `additionalVars
      ensures keyFile == KeyFor(gpg, spec, op)
      ensures additionalVars == old(additionalVars)[GPG_VARIABLE := KeyFor(gpg, spec, op)]
      ensures var names := old(additionalVars.Keys) + {GPG_VARIABLE};
              NoOverride(names, ImportedFrom(secret, importOnlyKeys)) ==>
                && (definition.Some? <==>
                    forall k :: k in names + ImportedFrom(secret, importOnlyKeys) ==> Settable(vars, PathOf(k)))
                && CarriesVariables(definition, additionalVars)
    {
      keyFile := WriteGpgKey(op);
      assert additionalVars.Keys == old(additionalVars.Keys) + {GPG_VARIABLE};
      definition := WriteDefinition(vars, additionalVars, secret, importOnlyKeys);
      ghost var data := if secret.Some? then secret.value else map[];
      ghost var imported := ImportedFrom(secret, importOnlyKeys);
      assert (set k | k in data && Wanted(data, importOnlyKeys, k)) == imported;
      if NoOverride(additionalVars.Keys, imported) {
        DefinitionCarries(vars, additionalVars, data, imported, definition);
      }
    }

    /** One of several passes, as far as the key goes; `clear` says that no name is overridden. */
    method RenderNext(op: Operation, vars: Tree, secret: Option<map<string, string>>, importOnlyKeys: seq<string>,
                      ghost clear: bool)
      returns (keyFile: string, definition: Option<Tree>)
      requires clear ==> NoOverride(additionalVars.Keys + {GPG_VARIABLE}, ImportedFrom(secret, importOnlyKeys))
      modifies `additionalVars
      ensures keyFile == KeyFor(gpg, spec, op) && (clear ==> CarriesKey(definition, keyFile))
      ensures additionalVars == old(additionalVars)[GPG_VARIABLE := keyFile]
    {
      keyFile, definition := RenderPass(op, vars, secret, importOnlyKeys);
    }

    /** Any sequence of render passes over this one aggregate: each pass's key file and definition carry the key of
        that pass's operation, whatever earlier passes left in the shared map. */
    method RenderPasses(ops: seq<Operation>, vars: Tree, secret: Option<map<string, string>>,
                        importOnlyKeys: seq<string>)
      returns (keyFiles: seq<string>, definitions: seq<Option<Tree>>)
      modifies `additionalVars
      ensures |keyFiles| == |definitions| == |ops|
      ensures forall i :: 0 <= i < |ops| ==> keyFiles[i] == KeyFor(gpg, spec, ops[i])
      ensures NoOverride(old(additionalVars.Keys) + {GPG_VARIABLE}, ImportedFrom(secret, importOnlyKeys)) ==>
                forall i :: 0 <= i < |ops| ==> CarriesKey(definitions[i], keyFiles[i])
      ensures additionalVars == if ops == [] then old(additionalVars)
                                else old(additionalVars)[GPG_VARIABLE := KeyFor(gpg, spec, ops[|ops| - 1])]
    {
      ghost var names := additionalVars.Keys + {GPG_VARIABLE};
      ghost var clear := NoOverride(names, ImportedFrom(secret, importOnlyKeys));
      keyFiles, definitions := [], [];
      for i := 0 to |ops|
        invariant |keyFiles| == |definitions| == i
        invariant additionalVars == if i == 0 then old(additionalVars)
                                    else old(additionalVars)[GPG_VARIABLE := KeyFor(gpg, spec, ops[i - 1])]
        invariant forall j :: 0 <= j < i ==> keyFiles[j] == KeyFor(gpg, spec, ops[j])
        invariant clear ==> forall j :: 0 <= j < i ==> CarriesKey(definitions[j], keyFiles[j])
      {
        assert additionalVars.Keys + {GPG_VARIABLE} == names;
        var keyFile, definition := RenderNext(ops[i], vars, secret, importOnlyKeys, clear);
        keyFiles, definitions := keyFiles + [keyFile], definitions + [definition];
      }
    }
  }

  predicate SameEntry(before: map<string, string>, after: map<string, string>, k: string) {
    (k in after <==> k in before) && (k in before ==> after[k] == before[k])
  }

  /** An action's way from seeding to its only render pass: the seeded key is the one that pass writes, and the
      definition carries key, kind and, when there is one, the token, at the paths the charts read. */
  method SeedAgreesWithRender(a: BackupAggregate, token: string, action: Operation, kindType: string, vars: Tree,
                              secret: Option<map<string, string>>, importOnlyKeys: seq<string>)
    returns (keyFile: string, definition: Option<Tree>, seeded: map<string, string>)
    modifies a
    ensures keyFile == KeyFor(a.gpg, a.spec, action)
    ensures seeded == a.additionalVars
    ensures GPG_VARIABLE in seeded && seeded[GPG_VARIABLE] == keyFile
    ensures NoOverride(old(a.additionalVars.Keys) + {GPG_VARIABLE, KIND_VARIABLE, TOKEN_VARIABLE},
                       ImportedFrom(secret, importOnlyKeys)) ==>
              && (definition.Some? <==>
                  forall k :: k in seeded.Keys + ImportedFrom(secret, importOnlyKeys) ==> Settable(vars, PathOf(k)))
              && CarriesKey(definition, keyFile)
              && Carries(definition, ["HelmValues", "kindType"], if kindType == "" then "Job" else kindType)
              && (token != "" ==> Carries(definition, ["Repository", "token"], token))
  {
    a.SeedForAction(token, action, kindType);
    seeded := a.additionalVars;
    ghost var imported := ImportedFrom(secret, importOnlyKeys);
    ghost var all := old(a.additionalVars.Keys) + {GPG_VARIABLE, KIND_VARIABLE, TOKEN_VARIABLE};
    assert seeded.Keys + {GPG_VARIABLE} <= all by {
      forall k | k in seeded.Keys ensures k in all {
        assert k !in {TOKEN_VARIABLE, GPG_VARIABLE, KIND_VARIABLE} ==> SameEntry(old(a.additionalVars), seeded, k);
      }
    }
    if NoOverride(all, imported) {
      assert NoOverride(seeded.Keys + {GPG_VARIABLE}, imported);
    }
    assert seeded.Keys + {GPG_VARIABLE} == seeded.Keys;
    keyFile, definition := a.RenderPass(action, vars, secret, importOnlyKeys);
    assert a.additionalVars == seeded;
  }
}
