/** pkg/apis/riotkit/v1alpha1/childreference.go and the group-version-kind values it encodes. */
module References {
  import opened Wrappers
  import Strings

  datatype GVK = GVK(group: string, version: string, kind: string) {
    /** The printed form used for comparison by the manifest filter and the job integrations. */
    function Print(): string {
      group + "/" + version + ", Kind=" + kind
    }

    /** What a parsed apiVersion can contain: no slash in the group, no comma in the version. */
    predicate WellFormed() {
      '/' !in group && ',' !in version
    }

    /** A kind as the controller's own lists spell it. */
    predicate Plain() {
      WellFormed() && ',' !in kind
    }
  }

  const JOB := GVK("batch", "v1", "Job")

  /** Identifier put into the tracking label; every call of AppendJobIdTo draws a fresh one. */
  type TrackingId = nat

  datatype ChildReference = ChildReference(apiVersion: string, kind: string, trackingId: TrackingId)

  /** The reference AddOwnedObject appends for a labelled object. */
  function ReferenceTo(gvk: GVK, id: TrackingId): ChildReference {
    ChildReference(gvk.group + "/" + gvk.version, gvk.kind, id)
  }

  /** GetGVK: None stands for the out-of-range index when apiVersion has no slash. */
  function GetGVK(ref: ChildReference): Option<GVK> {
    var split := Strings.Split(ref.apiVersion, "/");
    if |split| < 2 then None else Some(GVK(split[0], split[1], ref.kind))
  }

  lemma SlashSplits(left: string, right: string)
    requires '/' !in left
    ensures Strings.Split(left + "/" + right, "/") == [left] + Strings.Split(right, "/")
  {
    Strings.FirstAt(left, right, '/');
    assert (left + "/" + right)[..|left|] == left;
    assert (left + "/" + right)[|left| + 1..] == right;
  }

  lemma NoSlashNoSplit(s: string)
    ensures |Strings.Split(s, "/")| == 1 <==> '/' !in s
    ensures '/' !in s ==> Strings.Split(s, "/") == [s]
  {
    if '/' in s {
      var i :| 0 <= i < |s| && s[i] == '/';
      assert Strings.OccursAt(s, "/", i);
    } else {
      Strings.NoCharNoOccurrence(s, '/');
      assert !Strings.Occurs(s, "/");
    }
  }

  lemma NoOccurrenceNoChar(s: string)
    requires !Strings.Occurs(s, "/")
    ensures '/' !in s
  {
    forall i | 0 <= i < |s| ensures s[i] != '/' {
      assert !Strings.OccursAt(s, "/", i);
      assert s[i..i + 1] == [s[i]];
    }
  }

  /** Every reference the controller records can be decoded, and decoding gives back the object's own
      group-version-kind exactly when neither part contains the separator. */
  lemma ReferenceRoundTrip(gvk: GVK, id: TrackingId)
    ensures GetGVK(ReferenceTo(gvk, id)).Some?
    ensures GetGVK(ReferenceTo(gvk, id)) == Some(gvk) <==> '/' !in gvk.group && '/' !in gvk.version
  {
    var s := gvk.group + "/" + gvk.version;
    assert s[|gvk.group|] == '/';
    NoSlashNoSplit(s);
    if '/' !in gvk.group && '/' !in gvk.version {
      SlashSplits(gvk.group, gvk.version);
      NoSlashNoSplit(gvk.version);
    } else {
      Strings.PiecesHaveNoSeparator(s, "/");
      var split := Strings.Split(s, "/");
      assert split[0] in split && split[1] in split;
      NoOccurrenceNoChar(split[0]);
      NoOccurrenceNoChar(split[1]);
    }
  }

  /** Decoding fails exactly on an apiVersion without a slash, such as the bare "v1" health reports carry. */
  lemma DecodeFailsWithoutSlash(ref: ChildReference)
    ensures GetGVK(ref).None? <==> '/' !in ref.apiVersion
  {
    NoSlashNoSplit(ref.apiVersion);
  }

  /** Comparing printed forms is structural comparison on well-formed values. */
  lemma PrintInjective(a: GVK, b: GVK)
    requires a.WellFormed() && b.WellFormed()
    requires a.Print() == b.Print()
    ensures a == b
  {
    var x := a.version + ", Kind=" + a.kind;
    var y := b.version + ", Kind=" + b.kind;
    assert a.Print() == a.group + "/" + x && b.Print() == b.group + "/" + y;
    Strings.CutAtFirst(a.group, x, b.group, y, '/');
    assert x == a.version + "," + (" Kind=" + a.kind) && y == b.version + "," + (" Kind=" + b.kind);
    Strings.CutAtFirst(a.version, " Kind=" + a.kind, b.version, " Kind=" + b.kind, ',');
    assert a.kind == (" Kind=" + a.kind)[6..];
    assert b.kind == (" Kind=" + b.kind)[6..];
  }

  /** The only comma in the print of a plain kind is the separator's. */
  lemma OnlyComma(version: string, kind: string)
    requires ',' !in version && ',' !in kind
    ensures var s := version + ", Kind=" + kind;
            forall i :: 0 <= i < |s| ==> (s[i] == ',' <==> i == |version|)
  {
    var s := version + ", Kind=" + kind;
    forall i | 0 <= i < |s| ensures s[i] == ',' <==> i == |version| {
      assert s[i] == if i < |version| then version[i]
                     else if i < |version| + 7 then ", Kind="[i - |version|]
                     else kind[i - |version| - 7];
    }
  }

  /** A plain value is told apart from any other by its print, whatever version and kind that other one claims; only
      its group must be free of slashes. */
  lemma PlainPrint(a: GVK, b: GVK)
    requires a.Plain() && '/' !in b.group
    requires a.Print() == b.Print()
    ensures a == b
  {
    var x := a.version + ", Kind=" + a.kind;
    var y := b.version + ", Kind=" + b.kind;
    assert a.Print() == a.group + "/" + x && b.Print() == b.group + "/" + y;
    Strings.CutAtFirst(a.group, x, b.group, y, '/');
    OnlyComma(a.version, a.kind);
    assert y[|b.version|] == ',';
    forall i | 0 <= i < |b.version| ensures b.version[i] != ',' {
      assert y[i] == b.version[i];
    }
    PrintInjective(a, b);
  }

  /** Without that restriction two different values print alike. */
  lemma PrintCollides()
    ensures GVK("a", "b/c", "K").Print() == GVK("a/b", "c", "K").Print()
    ensures GVK("", "v, Kind=A", "B").Print() == GVK("", "v", "A, Kind=B").Print()
  {
    assert GVK("a", "b/c", "K").Print() == "a/b/c, Kind=K";
    assert GVK("a/b", "c", "K").Print() == "a/b/c, Kind=K";
    assert GVK("", "v, Kind=A", "B").Print() == "/v, Kind=A, Kind=B";
    assert GVK("", "v", "A, Kind=B").Print() == "/v, Kind=A, Kind=B";
  }
}
