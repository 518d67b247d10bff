/** pkg/domain/resourcetypes.go and the manifest parsing of pkg/bmg/templating.go. */
module Rendering {
  import opened Wrappers
  import opened References
  import Strings

  datatype Operation = Backup | Restore

  const SECRET := GVK("", "v1", "Secret")
  const CONFIG_MAP := GVK("", "v1", "ConfigMap")
  const SEALED_SECRET := GVK("bitnami.com", "v1alpha1", "SealedSecret")
  const EXTERNAL_SECRET := GVK("kubernetes-client.io", "v1", "ExternalSecret")
  const HELPER_KINDS: seq<GVK> := [SECRET, CONFIG_MAP, SEALED_SECRET, EXTERNAL_SECRET]
  const CRON_JOB := GVK("batch", "v1", "CronJob")

  /** NewResourceTypesFilterForScheduledBackup */
  function ScheduledBackupFilter(own: Operation, cronJobEnabled: bool, op: Operation): seq<GVK> {
    HELPER_KINDS + if own == op && cronJobEnabled then [CRON_JOB] else []
  }

  /** NewResourceTypesFilterForRequestedBackupAction */
  const REQUESTED_ACTION_FILTER: seq<GVK> := [JOB]

  /** A decoded manifest document: what the controller looks at, and all the rest of it. */
  datatype Document = Document(gvk: GVK, name: string, generateName: string, body: string)

  const SEPARATOR := "---\n"
  const BLANKS := {' ', '\n'}

  /** The filter's test: an empty filter accepts everything, otherwise printed forms are compared. */
  predicate Accepts(kinds: seq<GVK>, gvk: GVK) {
    kinds == [] || exists k :: k in kinds && k.Print() == gvk.Print()
  }

  /** The trimmed non-empty pieces of a manifest text. */
  function Pieces(parts: seq<string>): seq<string> {
    if parts == [] then []
    else
      var doc := Strings.Trim(parts[0], BLANKS);
      (if doc == "" then [] else [doc]) + Pieces(parts[1..])
  }

  /** Decoding stops at the first undecodable piece. */
  function DecodeAll(pieces: seq<string>, decode: string -> Option<Document>): Option<seq<Document>> {
    if pieces == [] then Some([])
    else
      var head, tail := decode(pieces[0]), DecodeAll(pieces[1..], decode);
      if head.Some? && tail.Some? then Some([head.value] + tail.value) else None
  }

  function Keep(docs: seq<Document>, kinds: seq<GVK>): seq<Document> {
    if docs == [] then []
    else (if Accepts(kinds, docs[0].gvk) then [docs[0]] else []) + Keep(docs[1..], kinds)
  }

  lemma {:induction false} KeepIsFilter(docs: seq<Document>, kinds: seq<GVK>)
    ensures forall d :: d in Keep(docs, kinds) <==> d in docs && Accepts(kinds, d.gvk)
    ensures forall d :: multiset(Keep(docs, kinds))[d] == if Accepts(kinds, d.gvk) then multiset(docs)[d] else 0
  {
    if docs != [] {
      KeepIsFilter(docs[1..], kinds);
      assert docs == [docs[0]] + docs[1..];
    }
  }

  predicate Ascending(at: seq<nat>) {
    forall i, j :: 0 <= i < j < |at| ==> at[i] < at[j]
  }

  /** `at` names the places in `docs` of the documents kept, in their order. */
  predicate PlacedAt(docs: seq<Document>, kinds: seq<GVK>, at: seq<nat>) {
    && |at| == |Keep(docs, kinds)| && Ascending(at)
    && forall j :: 0 <= j < |at| ==> at[j] < |docs| && Keep(docs, kinds)[j] == docs[at[j]]
  }

  /** Filtering keeps the order: the result is `docs` at strictly increasing places, every accepted place included. */
  lemma {:induction false} KeepInOrder(docs: seq<Document>, kinds: seq<GVK>) returns (at: seq<nat>)
    ensures PlacedAt(docs, kinds, at)
    ensures forall i :: 0 <= i < |docs| ==> (i in at <==> Accepts(kinds, docs[i].gvk))
  {
    at := [];
    if docs != [] {
      var n := |docs| - 1;
      var init := docs[..n];
      at := KeepInOrder(init, kinds);
      assert docs == init + [docs[n]] && [docs[n]][1..] == [];
      KeepAppend(init, [docs[n]], kinds);
      assert Keep([docs[n]], kinds) == if Accepts(kinds, docs[n].gvk) then [docs[n]] else [];
      assert forall i :: 0 <= i < n ==> init[i] == docs[i];
      if Accepts(kinds, docs[n].gvk) {
        at := at + [n];
      }
    }
  }

  lemma {:induction false} KeepAppend(a: seq<Document>, b: seq<Document>, kinds: seq<GVK>)
    ensures Keep(a + b, kinds) == Keep(a, kinds) + Keep(b, kinds)
  {
    if a == [] {
      assert a + b == b;
    } else {
      assert (a + b)[1..] == a[1..] + b;
      KeepAppend(a[1..], b, kinds);
    }
  }

  lemma {:induction false} PiecesAppend(a: seq<string>, b: seq<string>)
    ensures Pieces(a + b) == Pieces(a) + Pieces(b)
  {
    if a == [] {
      assert a + b == b;
    } else {
      assert (a + b)[1..] == a[1..] + b;
      PiecesAppend(a[1..], b);
    }
  }

  lemma {:induction false} DecodeAppend(a: seq<string>, b: seq<string>, decode: string -> Option<Document>)
    ensures var x, y := DecodeAll(a, decode), DecodeAll(b, decode);
            DecodeAll(a + b, decode) == if x.Some? && y.Some? then Some(x.value + y.value) else None
  {
    if a == [] {
      assert a + b == b;
      var y := DecodeAll(b, decode);
      assert y.Some? ==> [] + y.value == y.value;
    } else {
      assert (a + b)[1..] == a[1..] + b;
      DecodeAppend(a[1..], b, decode);
      var d, x, y := decode(a[0]), DecodeAll(a[1..], decode), DecodeAll(b, decode);
      assert d.Some? && x.Some? && y.Some? ==> [d.value] + (x.value + y.value) == [d.value] + x.value + y.value;
    }
  }

  lemma DecodeOne(doc: string, decode: string -> Option<Document>)
    ensures DecodeAll([doc], decode) == if decode(doc).Some? then Some([decode(doc).value]) else None
  {
    assert [doc][1..] == [] && DecodeAll([], decode) == Some([]);
    assert decode(doc).Some? ==> [decode(doc).value] + [] == [decode(doc).value];
  }

  /** The result parseRenderedManifests promises: the accepted documents in order, or an error. */
  function Parsed(content: string, kinds: seq<GVK>, decode: string -> Option<Document>): Option<seq<Document>> {
    var docs := DecodeAll(Pieces(Strings.Split(content, SEPARATOR)), decode);
    if docs.Some? then Some(Keep(docs.value, kinds)) else None
  }

  /** strings.Replace(doc, sep, "", 1) */
  function ReplaceOnce(doc: string): string {
    match Strings.FirstFrom(doc, SEPARATOR, 0)
    case Some(i) => doc[..i] + doc[i + |SEPARATOR|..]
    case None => doc
  }

  /** The Replace inside the loop never changes anything: a piece has no separator left. */
  lemma ReplaceIsIdle(content: string, doc: string)
    requires doc in Strings.Split(content, SEPARATOR)
    ensures ReplaceOnce(doc) == doc
  {
    Strings.PiecesHaveNoSeparator(content, SEPARATOR);
    assert !Strings.Occurs(doc, SEPARATOR);
  }

  /** The search loop over the filter's kinds. */
  method Search(kinds: seq<GVK>, gvk: GVK) returns (accepted: bool)
    ensures accepted == Accepts(kinds, gvk)
  {
    if |kinds| == 0 {
      return true;
    }
    for i := 0 to |kinds|
      invariant forall j :: 0 <= j < i ==> kinds[j].Print() != gvk.Print()
    {
      if gvk.Print() == kinds[i].Print() {
        assert kinds[i] in kinds;
        return true;
      }
    }
    return false;
  }

  /** What the first `i` parts decode to. */
  function Upto(parts: seq<string>, i: nat, decode: string -> Option<Document>): Option<seq<Document>>
    requires i <= |parts|
  {
    DecodeAll(Pieces(parts[..i]), decode)
  }

  /** One turn of the loop: the piece is blank, decodes to one more document, or ends the parse. */
  lemma NextPiece(parts: seq<string>, i: nat, decode: string -> Option<Document>)
    requires i < |parts|
    ensures var before := Upto(parts, i, decode);
            var doc := Strings.Trim(parts[i], BLANKS);
            Upto(parts, i + 1, decode) ==
            if doc == "" then before
            else if before.Some? && decode(doc).Some? then Some(before.value + [decode(doc).value])
            else None
  {
    var doc := Strings.Trim(parts[i], BLANKS);
    var piece := if doc == "" then [] else [doc];
    assert parts[..i + 1] == parts[..i] + [parts[i]];
    PiecesAppend(parts[..i], [parts[i]]);
    assert Pieces([parts[i]]) == piece + Pieces([]) == piece;
    DecodeAppend(Pieces(parts[..i]), piece, decode);
    var x := DecodeAll(Pieces(parts[..i]), decode);
    assert x.Some? ==> x.value + [] == x.value;
    DecodeOne(doc, decode);
  }

  lemma FailureIsFinal(parts: seq<string>, i: nat, decode: string -> Option<Document>)
    requires i <= |parts| && Upto(parts, i, decode).None?
    ensures Upto(parts, |parts|, decode).None?
  {
    assert parts[..|parts|] == parts[..i] + parts[i..];
    PiecesAppend(parts[..i], parts[i..]);
    DecodeAppend(Pieces(parts[..i]), Pieces(parts[i..]), decode);
  }

  method ParseRenderedManifests(content: string, kinds: seq<GVK>, decode: string -> Option<Document>)
    returns (result: Option<seq<Document>>)
    ensures result == Parsed(content, kinds, decode)
  {
    var parts := Strings.Split(content, SEPARATOR);
    var objects: seq<Document> := [];
    ghost var decoded: seq<Document> := [];
    assert parts[..|parts|] == parts;
    for i := 0 to |parts|
      invariant Upto(parts, i, decode) == Some(decoded)
      invariant objects == Keep(decoded, kinds)
    {
      ReplaceIsIdle(content, parts[i]);
      NextPiece(parts, i, decode);
      var doc := Strings.Trim(ReplaceOnce(parts[i]), BLANKS);
      if doc == "" {
        continue;
      }
      var parsed := decode(doc);
      if parsed.None? {
        FailureIsFinal(parts, i + 1, decode);
        return None;
      }
      var obj := parsed.value;
      KeepAppend(decoded, [obj], kinds);
      decoded := decoded + [obj];
      var accepted := Search(kinds, obj.gvk);
      if !accepted {
        continue;
      }
      objects := objects + [obj];
    }
    return Some(objects);
  }

  /** A document in a manifest, with the blanks around it. */
  datatype Padded = Padded(left: string, doc: string, right: string) {
    function Text(): string {
      left + doc + right
    }

    predicate Valid() {
      && Strings.AllIn(left, {' ', '\n'}) && Strings.AllIn(right, {' ', '\n'})
      && (doc != "" ==> doc[0] != ' ' && doc[0] != '\n' && doc[|doc| - 1] != ' ' && doc[|doc| - 1] != '\n')
      && !Strings.Occurs(Text(), "---\n")
    }
  }

  function Texts(parts: seq<Padded>): seq<string> {
    if parts == [] then [] else [parts[0].Text()] + Texts(parts[1..])
  }

  /** The documents without the blanks, the blank ones left out. */
  function Contents(parts: seq<Padded>): seq<string> {
    if parts == [] then [] else (if parts[0].doc == "" then [] else [parts[0].doc]) + Contents(parts[1..])
  }

  lemma TrimPadded(part: Padded)
    requires part.Valid()
    ensures Strings.Trim(part.Text(), BLANKS) == part.doc
  {
    Strings.TrimOf(part.left, part.doc, part.right, BLANKS);
  }

  lemma {:induction false} PiecesOfTexts(parts: seq<Padded>)
    requires forall p :: p in parts ==> p.Valid()
    ensures Pieces(Texts(parts)) == Contents(parts) && |Texts(parts)| == |parts|
    ensures forall t :: t in Texts(parts) ==> !Strings.Occurs(t, SEPARATOR)
  {
    if parts != [] {
      assert parts[0] in parts && forall p :: p in parts[1..] ==> p in parts;
      TrimPadded(parts[0]);
      PiecesOfTexts(parts[1..]);
      assert Texts(parts)[1..] == Texts(parts[1..]);
    }
  }

  /** Joining documents by the separator, with any spaces and line breaks around them and blank ones in between, and
      parsing with an accept-all filter gives back exactly those documents: the decoder is applied to each one that is
      not blank, without the blanks around it and in order. */
  lemma ManifestRoundTrip(parts: seq<Padded>, decode: string -> Option<Document>)
    requires parts != [] && forall p :: p in parts ==> p.Valid()
    ensures Texts(parts) != []
    ensures Parsed(Strings.Join(Texts(parts), "---\n"), [], decode) == DecodeAll(Contents(parts), decode)
  {
    PiecesOfTexts(parts);
    Strings.SplitOfJoin(Texts(parts), SEPARATOR);
    match DecodeAll(Contents(parts), decode)
    case Some(ds) => KeepAll(ds);
    case None =>
  }

  /** Decoding is all or nothing, one document for each piece in its place. */
  lemma {:induction false} DecodesEach(pieces: seq<string>, decode: string -> Option<Document>)
    ensures var docs := DecodeAll(pieces, decode);
            && (docs.Some? <==> forall i :: 0 <= i < |pieces| ==> decode(pieces[i]).Some?)
            && (docs.Some? ==>
                  && |docs.value| == |pieces|
                  && forall i :: 0 <= i < |pieces| ==> decode(pieces[i]) == Some(docs.value[i]))
  {
    if pieces != [] {
      DecodesEach(pieces[1..], decode);
      assert (forall i :: 0 <= i < |pieces| ==> decode(pieces[i]).Some?) <==>
             decode(pieces[0]).Some? && (forall i :: 0 <= i < |pieces[1..]| ==> decode(pieces[1..][i]).Some?) by {
        assert forall i :: 0 < i < |pieces| ==> pieces[i] == pieces[1..][i - 1];
      }
    }
  }

  lemma {:induction false} KeepAll(docs: seq<Document>)
    ensures Keep(docs, []) == docs
  {
    if docs != [] {
      KeepAll(docs[1..]);
    }
  }

  /** On whose behalf a manifest is read. */
  datatype Purpose = ForBackup(own: Operation, cronJobEnabled: bool, op: Operation) | ForAction {
    /** What is taken from it. */
    predicate Takes(gvk: GVK) {
      match this
      case ForBackup(_, _, _) =>
        || gvk == GVK("", "v1", "Secret") || gvk == GVK("", "v1", "ConfigMap")
        || gvk == GVK("bitnami.com", "v1alpha1", "SealedSecret")
        || gvk == GVK("kubernetes-client.io", "v1", "ExternalSecret")
        || (gvk == GVK("batch", "v1", "CronJob") && op == own && cronJobEnabled)
      case ForAction => gvk == GVK("batch", "v1", "Job")
    }
  }

  /** The documents taken, in their order. */
  function Taken(docs: seq<Document>, purpose: Purpose): seq<Document> {
    if docs == [] then []
    else (if purpose.Takes(docs[0].gvk) then [docs[0]] else []) + Taken(docs[1..], purpose)
  }

  /** All documents of a manifest. */
  function Decoded(content: string, decode: string -> Option<Document>): Option<seq<Document>> {
    DecodeAll(Pieces(Strings.Split(content, "---\n")), decode)
  }

  /** The helper objects of both operations, backup first, and the CronJob of the own one if enabled; nothing else. */
  predicate RendersBackup(manifest: Operation -> string, decode: string -> Option<Document>,
                          own: Operation, cronJobEnabled: bool, result: Option<seq<Document>>)
  {
    var b, r := Decoded(manifest(Backup), decode), Decoded(manifest(Restore), decode);
    result == if b.Some? && r.Some?
              then Some(Taken(b.value, ForBackup(own, cronJobEnabled, Backup))
                        + Taken(r.value, ForBackup(own, cronJobEnabled, Restore)))
              else None
  }

  /** The Jobs of the action's own operation; nothing else. */
  predicate RendersAction(manifest: Operation -> string, decode: string -> Option<Document>, action: Operation,
                          result: Option<seq<Document>>)
  {
    var docs := Decoded(manifest(action), decode);
    result == if docs.Some? then Some(Taken(docs.value, ForAction)) else None
  }

  function RenderedBackup(manifest: Operation -> string, decode: string -> Option<Document>,
                          own: Operation, cronJobEnabled: bool): Option<seq<Document>>
  {
    var b := Parsed(manifest(Backup), ScheduledBackupFilter(own, cronJobEnabled, Backup), decode);
    var r := Parsed(manifest(Restore), ScheduledBackupFilter(own, cronJobEnabled, Restore), decode);
    if b.Some? && r.Some? then Some(b.value + r.value) else None
  }

  /** RenderKubernetesResourcesFor on a RequestedBackupAction: the manifest of its own operation, Jobs only. */
  function RenderedAction(manifest: Operation -> string, decode: string -> Option<Document>,
                          action: Operation): Option<seq<Document>>
  {
    Parsed(manifest(action), REQUESTED_ACTION_FILTER, decode)
  }

  /** A decoder that yields parsed apiVersions: the group is what stands before the only slash. */
  ghost predicate SoundDecoder(decode: string -> Option<Document>) {
    forall s :: decode(s).Some? ==> '/' !in decode(s).value.gvk.group
  }

  lemma {:induction false} DecodedGroups(pieces: seq<string>, decode: string -> Option<Document>)
    requires SoundDecoder(decode)
    ensures DecodeAll(pieces, decode).Some? ==>
              forall d :: d in DecodeAll(pieces, decode).value ==> '/' !in d.gvk.group
  {
    if pieces != [] {
      DecodedGroups(pieces[1..], decode);
    }
  }

  lemma AcceptsIsMembership(kinds: seq<GVK>, gvk: GVK)
    requires kinds != [] && '/' !in gvk.group && forall k :: k in kinds ==> k.Plain()
    ensures Accepts(kinds, gvk) <==> gvk in kinds
  {
    forall k | k in kinds && k.Print() == gvk.Print() ensures k == gvk {
      PlainPrint(k, gvk);
    }
  }

  lemma ParsedKinds(content: string, kinds: seq<GVK>, decode: string -> Option<Document>)
    requires SoundDecoder(decode)
    requires kinds != [] && forall k :: k in kinds ==> k.Plain()
    ensures var p := Parsed(content, kinds, decode);
            p.Some? ==> forall d :: d in p.value ==> d.gvk in kinds
  {
    var pieces := Pieces(Strings.Split(content, SEPARATOR));
    DecodedGroups(pieces, decode);
    match DecodeAll(pieces, decode)
    case Some(docs) =>
      KeepIsFilter(docs, kinds);
      forall d | d in Keep(docs, kinds) ensures d.gvk in kinds {
        AcceptsIsMembership(kinds, d.gvk);
      }
    case None =>
  }

  /** The kinds the filters name print unambiguously. */
  lemma CoreKindsArePlain()
    ensures SECRET.Plain() && CONFIG_MAP.Plain()
  {
  }

  lemma BatchKindsArePlain()
    ensures JOB.Plain() && CRON_JOB.Plain()
  {
  }

  lemma SealedSecretIsPlain()
    ensures SEALED_SECRET.Plain()
  {
  }

  lemma ExternalSecretIsPlain()
    ensures EXTERNAL_SECRET.Plain()
  {
  }

  lemma HelperKinds()
    ensures forall k :: k in HELPER_KINDS ==> k.Plain() && k.kind[0] != 'J' && k.kind[1] != 'r'
  {
    CoreKindsArePlain();
    SealedSecretIsPlain();
    ExternalSecretIsPlain();
    forall k | k in HELPER_KINDS ensures k == SECRET || k == CONFIG_MAP || k == SEALED_SECRET || k == EXTERNAL_SECRET {
      var i :| 0 <= i < |HELPER_KINDS| && HELPER_KINDS[i] == k;
    }
  }

  lemma FilterKinds(own: Operation, cronJobEnabled: bool, op: Operation)
    ensures forall k :: k in ScheduledBackupFilter(own, cronJobEnabled, op) ==>
      k.Plain() && k != JOB && (k in HELPER_KINDS || (k == CRON_JOB && own == op && cronJobEnabled))
    ensures forall k :: k in REQUESTED_ACTION_FILTER ==> k == JOB && k.Plain()
    ensures ScheduledBackupFilter(own, cronJobEnabled, op) != [] && CRON_JOB !in HELPER_KINDS
  {
    HelperKinds();
    BatchKindsArePlain();
    assert JOB.kind[0] == 'J' && CRON_JOB.kind[1] == 'r';
  }

  /** What each custom resource may own, whatever the manifests contain: an action creates Jobs only; a scheduled
      backup creates no Job, and a CronJob only from the manifest of its own operation and only when enabled. */
  lemma RenderedKinds(manifest: Operation -> string, decode: string -> Option<Document>,
                      own: Operation, cronJobEnabled: bool, op: Operation)
    requires SoundDecoder(decode)
    ensures var action := RenderedAction(manifest, decode, op);
            action.Some? ==> forall d :: d in action.value ==> d.gvk == JOB
    ensures var part := Parsed(manifest(op), ScheduledBackupFilter(own, cronJobEnabled, op), decode);
            part.Some? ==> forall d :: d in part.value ==>
              d.gvk != JOB && (d.gvk in HELPER_KINDS || (d.gvk == CRON_JOB && own == op && cronJobEnabled))
  {
    FilterKinds(own, cronJobEnabled, op);
    ParsedKinds(manifest(op), ScheduledBackupFilter(own, cronJobEnabled, op), decode);
    ParsedKinds(manifest(op), REQUESTED_ACTION_FILTER, decode);
  }

  /** The filters take exactly what is meant. */
  lemma FilterTakes(own: Operation, cronJobEnabled: bool, op: Operation, gvk: GVK)
    requires '/' !in gvk.group
    ensures Accepts(ScheduledBackupFilter(own, cronJobEnabled, op), gvk) <==>
            ForBackup(own, cronJobEnabled, op).Takes(gvk)
    ensures Accepts(REQUESTED_ACTION_FILTER, gvk) <==> ForAction.Takes(gvk)
  {
    FilterKinds(own, cronJobEnabled, op);
    AcceptsIsMembership(ScheduledBackupFilter(own, cronJobEnabled, op), gvk);
    AcceptsIsMembership(REQUESTED_ACTION_FILTER, gvk);
    InFilter(own, cronJobEnabled, op, gvk);
  }

  lemma InFilter(own: Operation, cronJobEnabled: bool, op: Operation, gvk: GVK)
    ensures gvk in ScheduledBackupFilter(own, cronJobEnabled, op) <==> ForBackup(own, cronJobEnabled, op).Takes(gvk)
  {
    var helpers := HELPER_KINDS;
    assert helpers[0] == SECRET && helpers[1] == CONFIG_MAP && helpers[2] == SEALED_SECRET;
    assert helpers[3] == EXTERNAL_SECRET && |helpers| == 4;
    assert gvk in helpers <==> gvk == SECRET || gvk == CONFIG_MAP || gvk == SEALED_SECRET || gvk == EXTERNAL_SECRET;
  }

  lemma {:induction false} KeepTakes(docs: seq<Document>, own: Operation, cronJobEnabled: bool, op: Operation)
    requires forall d :: d in docs ==> '/' !in d.gvk.group
    ensures Keep(docs, ScheduledBackupFilter(own, cronJobEnabled, op)) ==
            Taken(docs, ForBackup(own, cronJobEnabled, op))
    ensures Keep(docs, REQUESTED_ACTION_FILTER) == Taken(docs, ForAction)
  {
    if docs != [] {
      assert docs[0] in docs;
      FilterTakes(own, cronJobEnabled, op, docs[0].gvk);
      KeepTakes(docs[1..], own, cronJobEnabled, op);
    }
  }

  lemma ParsedTakes(content: string, decode: string -> Option<Document>, own: Operation, cronJobEnabled: bool,
                    op: Operation)
    requires SoundDecoder(decode)
    ensures var docs := Decoded(content, decode);
            && Parsed(content, ScheduledBackupFilter(own, cronJobEnabled, op), decode) ==
               (if docs.Some? then Some(Taken(docs.value, ForBackup(own, cronJobEnabled, op))) else None)
            && Parsed(content, REQUESTED_ACTION_FILTER, decode) ==
               (if docs.Some? then Some(Taken(docs.value, ForAction)) else None)
  {
    var pieces := Pieces(Strings.Split(content, SEPARATOR));
    DecodedGroups(pieces, decode);
    if DecodeAll(pieces, decode).Some? {
      KeepTakes(DecodeAll(pieces, decode).value, own, cronJobEnabled, op);
    }
  }

  /** RenderKubernetesResourcesFor on a ScheduledBackup: both operations' manifests, each with its own filter. */
  method RenderScheduledBackup(manifest: Operation -> string, decode: string -> Option<Document>,
                               own: Operation, cronJobEnabled: bool)
    returns (result: Option<seq<Document>>)
    ensures result == RenderedBackup(manifest, decode, own, cronJobEnabled)
    ensures SoundDecoder(decode) ==> RendersBackup(manifest, decode, own, cronJobEnabled, result)
  {
    if SoundDecoder(decode) {
      ParsedTakes(manifest(Backup), decode, own, cronJobEnabled, Backup);
      ParsedTakes(manifest(Restore), decode, own, cronJobEnabled, Restore);
    }
    var rendered: seq<Document> := [];
    var operations := [Backup, Restore];
    ghost var first := Parsed(manifest(Backup), ScheduledBackupFilter(own, cronJobEnabled, Backup), decode);
    for i := 0 to 2
      invariant i == 0 ==> rendered == []
      invariant i == 1 ==> first == Some(rendered)
      invariant i == 2 ==> RenderedBackup(manifest, decode, own, cronJobEnabled) == Some(rendered)
    {
      var operation := operations[i];
      var part := ParseRenderedManifests(manifest(operation),
                                         ScheduledBackupFilter(own, cronJobEnabled, operation), decode);
      if part.None? {
        return None;
      }
      rendered := rendered + part.value;
      assert i == 0 ==> rendered == part.value;
    }
    return Some(rendered);
  }

  /** RenderKubernetesResourcesFor on a RequestedBackupAction. */
  method RenderRequestedAction(manifest: Operation -> string, decode: string -> Option<Document>, action: Operation)
    returns (result: Option<seq<Document>>)
    ensures result == RenderedAction(manifest, decode, action)
    ensures SoundDecoder(decode) ==> RendersAction(manifest, decode, action, result)
  {
    result := ParseRenderedManifests(manifest(action), REQUESTED_ACTION_FILTER, decode);
    if SoundDecoder(decode) {
      ParsedTakes(manifest(action), decode, action, false, action);
    }
  }

  /** The two custom resources never own objects of the same kind. */
  lemma RenderedKindsDisjoint(manifest: Operation -> string, decode: string -> Option<Document>,
                              own: Operation, cronJobEnabled: bool, op: Operation)
    requires SoundDecoder(decode)
    ensures var sb := RenderedBackup(manifest, decode, own, cronJobEnabled);
            var rba := RenderedAction(manifest, decode, op);
            sb.Some? && rba.Some? ==>
              forall d, e :: d in sb.value && e in rba.value ==> d.gvk != e.gvk
  {
    RenderedKinds(manifest, decode, own, cronJobEnabled, op);
    RenderedKinds(manifest, decode, own, cronJobEnabled, Backup);
    RenderedKinds(manifest, decode, own, cronJobEnabled, Restore);
  }
}
