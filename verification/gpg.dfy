/** pkg/gpg/secret.go and the key part of the ScheduledBackup spec. */
module Gpg {
  import opened Wrappers

  type Data = map<string, string>

  datatype KeyPair = KeyPair(publicKey: string, privateKey: string) {
    predicate NonEmpty() {
      publicKey != "" && privateKey != ""
    }
  }

  const EMAIL_INDEX := "e-mail.txt"

  /** GPGKeySecretSpec with its defaulting getters. */
  datatype KeySpec = KeySpec(publicKey: string, privateKey: string, passphraseKey: string, email: string,
                             createIfNotExists: bool) {
    function PrivateIndex(): string {
      if privateKey == "" then "key" else privateKey
    }

    function PublicIndex(): string {
      if publicKey == "" then "key.pub" else publicKey
    }

    function PassphraseIndex(): string {
      if passphraseKey == "" then "passphrase" else passphraseKey
    }
  }

  predicate Present(d: Data, index: string) {
    index in d && d[index] != ""
  }

  /** Both halves of the identity are stored under these indexes. */
  predicate HasPair(d: Data, priv: string, pub: string) {
    Present(d, priv) && Present(d, pub)
  }

  predicate NeedsIdentity(d: Data, spec: KeySpec) {
    !HasPair(d, spec.PrivateIndex(), spec.PublicIndex())
  }

  /** A configured name, or its default. */
  function Named(name: string, default: string): string {
    if name == "" then default else name
  }

  /** What a spec asks for under each of its names, the defaults written out. */
  predicate HoldsIdentity(d: Data, spec: KeySpec, pair: KeyPair) {
    var pub, priv := Named(spec.publicKey, "key.pub"), Named(spec.privateKey, "key");
    var pass := Named(spec.passphraseKey, "passphrase");
    && pub in d && d[pub] == pair.publicKey
    && priv in d && d[priv] == pair.privateKey
    && pass in d && d[pass] == ""
    && "e-mail.txt" in d && d["e-mail.txt"] == spec.email
  }

  /** The four names under which a spec writes. */
  function NamesOf(spec: KeySpec): seq<string> {
    [Named(spec.publicKey, "key.pub"), Named(spec.privateKey, "key"), Named(spec.passphraseKey, "passphrase"),
     "e-mail.txt"]
  }

  predicate DistinctNames(spec: KeySpec) {
    forall i, j :: 0 <= i < j < 4 ==> NamesOf(spec)[i] != NamesOf(spec)[j]
  }

  /** Entries under all other names are what they were. */
  predicate KeepsOthers(before: Data, after: Data, spec: KeySpec) {
    && (forall n :: n in after && n !in NamesOf(spec) ==> n in before && after[n] == before[n])
    && (forall n :: n in before && n !in NamesOf(spec) ==> n in after)
  }

  predicate SamePair(d: Data, e: Data, priv: string, pub: string) {
    priv in d && priv in e && pub in d && pub in e && d[priv] == e[priv] && d[pub] == e[pub]
  }

  function WithIdentity(d: Data, spec: KeySpec, pair: KeyPair): Data {
    d[spec.PassphraseIndex() := ""][spec.PublicIndex() := pair.publicKey][spec.PrivateIndex() := pair.privateKey]
  }

  /** The Data section an update leaves in memory, and whether a new identity was put there. None: generation failed. */
  function Recreated(d: Data, stringData: Data, spec: KeySpec, force: bool, generated: Option<KeyPair>)
    : (Data, Option<bool>)
  {
    var d1 := d[EMAIL_INDEX := spec.email] + stringData;
    if !NeedsIdentity(d1, spec) && !force then (d1, Some(false))
    else if generated.None? then (d1, None)
    else (WithIdentity(d1, spec, generated.value), Some(true))
  }

  /** Under this name the Secret, with the e-mail entry written, holds nothing. */
  predicate Lacking(d: Data, spec: KeySpec, name: string) {
    if name == "e-mail.txt" then spec.email == "" else name !in d || d[name] == ""
  }

  /** Exactly when an update makes a new identity: it is forced or one of the halves is lacking, and generation
      succeeds; a failed generation is an error, and otherwise nothing is to be done. */
  lemma NewIdentityExactly(d: Data, spec: KeySpec, force: bool, generated: Option<KeyPair>)
    ensures var wanted := force || Lacking(d, spec, Named(spec.privateKey, "key"))
                          || Lacking(d, spec, Named(spec.publicKey, "key.pub"));
            Recreated(d, map[], spec, force, generated).1 ==
            if !wanted then Some(false) else if generated.Some? then Some(true) else None
  {
    assert d[EMAIL_INDEX := spec.email] + map[] == d[EMAIL_INDEX := spec.email];
  }

  /** What an update writes when it makes a new identity, entry by entry. */
  lemma NewIdentityWrittenOut(d: Data, spec: KeySpec, force: bool, generated: Option<KeyPair>)
    requires DistinctNames(spec) && Recreated(d, map[], spec, force, generated).1 == Some(true)
    ensures generated.Some?
    ensures HoldsIdentity(Recreated(d, map[], spec, force, generated).0, spec, generated.value)
    ensures KeepsOthers(d, Recreated(d, map[], spec, force, generated).0, spec)
  {
    var names := NamesOf(spec);
    assert names[0] == spec.PublicIndex() && names[1] == spec.PrivateIndex() && names[2] == spec.PassphraseIndex();
    assert names[3] == EMAIL_INDEX;
    assert d[EMAIL_INDEX := spec.email] + map[] == d[EMAIL_INDEX := spec.email];
  }

  /** A corev1.Secret: the maps are Go references, so a nil Data is told apart from an empty one. */
  class Secret {
    var hasData: bool
    var data: Data
    var stringData: Data

    constructor (hasData: bool, data: Data, stringData: Data)
      ensures this.hasData == hasData && this.data == data && this.stringData == stringData
    {
      this.hasData, this.data, this.stringData := hasData, data, stringData;
    }

    /** The StringData entries are merged into the aliased Data map, in any order; without one, into a copy. */
    method Overlay() returns (d: Data)
      modifies `data
      ensures d == (if hasData then old(data) else map[]) + stringData
      ensures data == if hasData then d else old(data)
    {
      d := if hasData then data else map[];
      ghost var start := d;
      var pending := stringData.Keys;
      while pending != {}
        invariant pending <= stringData.Keys
        invariant d == start + (map k | k in stringData.Keys - pending :: stringData[k])
        invariant data == if hasData then d else old(data)
      {
        var k :| k in pending;
        d := d[k := stringData[k]];
        if hasData {
          data := d;
        }
        pending := pending - {k};
      }
      assert (map k | k in stringData.Keys :: stringData[k]) == stringData;
    }

    /** The question itself writes: StringData entries are merged into the aliased Data map. */
    method ShouldUpdate(spec: KeySpec) returns (should: bool)
      modifies `data
      ensures data == if hasData then old(data) + stringData else old(data)
      ensures var seen := (if hasData then old(data) else map[]) + stringData;
              should <==> !(&& (var priv := Named(spec.privateKey, "key"); priv in seen && seen[priv] != "")
                            && (var pub := Named(spec.publicKey, "key.pub"); pub in seen && seen[pub] != ""))
    {
      var d := Overlay();
      var indexes := [spec.PrivateIndex(), spec.PublicIndex()];
      for i := 0 to 2
        invariant forall j :: 0 <= j < i ==> Present(d, indexes[j])
      {
        if indexes[i] !in d || d[indexes[i]] == "" {
          assert !Present(d, indexes[i]);
          return true;
        }
      }
      assert Present(d, indexes[0]) && Present(d, indexes[1]);
      return false;
    }

    /** UpdateGPGSecretWithRecreatedGPGKey; the result of key generation is a parameter. */
    method UpdateWithRecreatedKey(spec: KeySpec, force: bool, generated: Option<KeyPair>)
      returns (updated: Option<bool>)
      modifies this
      ensures hasData && stringData == old(stringData)
      ensures (data, updated) ==
              Recreated(if old(hasData) then old(data) else map[], stringData, spec, force, generated)
      ensures updated == Some(true) && DistinctNames(spec) && stringData == map[] ==>
                generated.Some? && HoldsIdentity(data, spec, generated.value)
                && KeepsOthers(if old(hasData) then old(data) else map[], data, spec)
    {
      if DistinctNames(spec) && stringData == map[] {
        ghost var before := if hasData then data else map[];
        if Recreated(before, map[], spec, force, generated).1 == Some(true) {
          NewIdentityWrittenOut(before, spec, force, generated);
        }
      }
      if !hasData {
        hasData, data := true, map[];
      }
      data := data[EMAIL_INDEX := spec.email];
      var should := ShouldUpdate(spec);
      if !should && !force {
        return Some(false);
      }
      if generated.None? {
        return None;
      }
      data := data[spec.PassphraseIndex() := ""];
      data := data[spec.PublicIndex() := generated.value.publicKey];
      data := data[spec.PrivateIndex() := generated.value.privateKey];
      return Some(true);
    }
  }

  /** CreateNewGPGSecret: a failed generation still yields a Secret, holding the e-mail only. */
  method CreateNewSecret(spec: KeySpec, generated: Option<KeyPair>) returns (secret: Secret, ok: bool)
    ensures fresh(secret) && secret.hasData
    ensures ok <==> generated.Some?
    ensures secret.data == Created(spec, generated)
    ensures ok && DistinctNames(spec) ==>
              HoldsIdentity(secret.data, spec, generated.value) && secret.data.Keys == set n | n in NamesOf(spec)
    ensures !ok ==> secret.data == map["e-mail.txt" := spec.email]
  {
    secret := new Secret(false, map[], map[]);
    var updated := secret.UpdateWithRecreatedKey(spec, true, generated);
    ok := updated.Some?;
    assert map[EMAIL_INDEX := spec.email] + map[] == map[EMAIL_INDEX := spec.email];
  }

  function Created(spec: KeySpec, generated: Option<KeyPair>): Data {
    Recreated(map[], map[], spec, true, generated).0
  }

  /** A forced or needed update leaves a complete identity behind whenever generation succeeds, even if the
      configured indexes coincide with each other. */
  lemma RecreatedHasPair(d: Data, spec: KeySpec, force: bool, generated: Option<KeyPair>)
    requires generated.Some? && generated.value.NonEmpty()
    ensures !NeedsIdentity(Recreated(d, map[], spec, force, generated).0, spec)
    ensures Recreated(d, map[], spec, force, generated).1.Some?
  {
  }

  /** The e-mail entry is stored over one half of the identity. */
  predicate EmailOverKey(spec: KeySpec) {
    EMAIL_INDEX in {spec.PrivateIndex(), spec.PublicIndex()}
  }

  /** An unforced update of a Secret that holds a complete identity generates a new one exactly when an empty e-mail
      entry is stored over one of its halves; and it keeps the pair, whatever is generated, exactly when the e-mail
      entry is not stored over a half of it with another text. */
  lemma UpdateKeepsPairExactly(d: Data, spec: KeySpec)
    requires !NeedsIdentity(d, spec)
    ensures forall g: Option<KeyPair> ::
              Recreated(d, map[], spec, false, g).1 ==
              if EmailOverKey(spec) && spec.email == "" then (if g.Some? then Some(true) else None) else Some(false)
    ensures (forall g: Option<KeyPair> ::
               SamePair(d, Recreated(d, map[], spec, false, g).0, spec.PrivateIndex(), spec.PublicIndex())) <==>
            (EmailOverKey(spec) ==> d[EMAIL_INDEX] == spec.email)
  {
    assert d[EMAIL_INDEX := spec.email] + map[] == d[EMAIL_INDEX := spec.email];
    if EmailOverKey(spec) && d[EMAIL_INDEX] != spec.email {
      assert !SamePair(d, Recreated(d, map[], spec, false, None).0, spec.PrivateIndex(), spec.PublicIndex());
    }
  }
}
