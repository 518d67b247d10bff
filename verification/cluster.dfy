/** Objects the controller creates in the cluster, and pkg/bmg/utils.go and pkg/bmg/applying.go which create them. */
module Cluster {
  import opened Wrappers
  import opened References
  import opened Rendering

  datatype Identity = Identity(group: string, kind: string, namespace: string, name: string)

  /** What is stored under an identity: the document it was last written from, the tracking label (0 when absent), and
      for a Job its pod counts and whether it has run to its end. */
  datatype Object = Object(doc: Document, tracking: TrackingId, failed: nat, active: nat, finished: bool) {
    /** Everything the controller does not write itself. */
    function Progress(): (nat, nat, bool) {
      (failed, active, finished)
    }
  }

  type Store = map<Identity, Object>

  /** The identities carrying a tracking label. */
  function Labelled(objects: Store, id: TrackingId): set<Identity> {
    set k | k in objects && objects[k].tracking == id
  }

  /** A document resolved to the object it asks for. */
  datatype Target = Target(id: Identity, doc: Document)

  /** `suffix` is what the server appends to a generateName. */
  function Resolve(doc: Document, namespace: string, suffix: string): Target {
    var name := if doc.name == "" then doc.generateName + suffix else doc.name;
    Target(Identity(doc.gvk.group, doc.gvk.kind, namespace, name), doc)
  }

  function Fresh(target: Target, id: TrackingId): Object {
    Object(target.doc, id, 0, 0, false)
  }

  /** The effect of a successful create or update: the object is the labelled document, an existing one keeps its
      status. */
  function Put(objects: Store, target: Target, id: TrackingId): Store {
    if target.id in objects then objects[target.id := objects[target.id].(doc := target.doc, tracking := id)]
    else objects[target.id := Fresh(target, id)]
  }

  /** Applying a list: document i is labelled `first` + i. */
  function PutAll(objects: Store, targets: seq<Target>, first: TrackingId): Store
    decreases |targets|
  {
    if targets == [] then objects
    else
      var n := |targets| - 1;
      Put(PutAll(objects, targets[..n], first), targets[n], first + n)
  }

  function TargetIds(targets: seq<Target>): set<Identity> {
    set t | t in targets :: t.id
  }

  /** A later document of the list names the same object. */
  ghost predicate Overwritten(targets: seq<Target>, i: nat)
    requires i < |targets|
  {
    exists j :: i < j < |targets| && targets[j].id == targets[i].id
  }

  /** The last document of the list that names this object. */
  function LastFor(targets: seq<Target>, id: Identity): Option<Document>
    decreases |targets|
  {
    if targets == [] then None
    else
      var n := |targets| - 1;
      if targets[n].id == id then Some(targets[n].doc) else LastFor(targets[..n], id)
  }

  /** Applying a rendered list adds exactly its missing objects, makes every object it names the last document naming
      it, and leaves every other object, and the progress of all, alone. */
  lemma {:induction false} ApplyAddsMissing(objects: Store, targets: seq<Target>, first: TrackingId)
    ensures var after := PutAll(objects, targets, first);
            && after.Keys == objects.Keys + TargetIds(targets)
            && (forall k :: k in objects && k !in TargetIds(targets) ==> after[k] == objects[k])
            && (forall k :: k in objects ==> after[k].Progress() == objects[k].Progress())
            && (forall k :: k in TargetIds(targets) ==> LastFor(targets, k) == Some(after[k].doc))
    decreases |targets|
  {
    if targets != [] {
      var n := |targets| - 1;
      ApplyAddsMissing(objects, targets[..n], first);
      assert targets == targets[..n] + [targets[n]];
      assert TargetIds(targets) == TargetIds(targets[..n]) + {targets[n].id};
    }
  }

  lemma PutLabels(objects: Store, target: Target, id: TrackingId, other: TrackingId)
    ensures Labelled(Put(objects, target, id), other) ==
            if other == id then Labelled(objects, id) + {target.id} else Labelled(objects, other) - {target.id}
  {
  }

  /** Nothing carries a label that has not been drawn yet. */
  lemma UnusedLabel(objects: Store, targets: seq<Target>, first: TrackingId)
    requires forall k :: k in objects ==> objects[k].tracking < first
    ensures Labelled(PutAll(objects, targets, first), first + |targets|) == {}
  {
    LabelsInRange(objects, targets, first);
  }

  lemma OverwrittenByLast(targets: seq<Target>, i: nat)
    requires i < |targets|
    ensures Overwritten(targets, i) <==>
            i < |targets| - 1 &&
            (Overwritten(targets[..|targets| - 1], i) || targets[i].id == targets[|targets| - 1].id)
  {
    var init := targets[..|targets| - 1];
    assert forall j :: 0 <= j < |init| ==> init[j] == targets[j];
  }

  /** The last document's label marks its object; the label of an earlier one stays where it is, unless the last
      document names that very object. */
  lemma LabelsAfterLast(objects: Store, targets: seq<Target>, first: TrackingId, i: nat)
    requires i < |targets|
    ensures var n := |targets| - 1;
            var before := Labelled(PutAll(objects, targets[..n], first), first + i);
            Labelled(PutAll(objects, targets, first), first + i) ==
            if i == n then before + {targets[n].id} else before - {targets[n].id}
  {
    var n := |targets| - 1;
    PutLabels(PutAll(objects, targets[..n], first), targets[n], first + n, first + i);
  }

  /** The label given to document i marks exactly its own object, or nothing when a later document of the same pass
      names that object again. */
  lemma {:induction false} ApplyLabels(objects: Store, targets: seq<Target>, first: TrackingId, i: nat)
    requires (forall k :: k in objects ==> objects[k].tracking < first) && i < |targets|
    ensures Labelled(PutAll(objects, targets, first), first + i) ==
            if Overwritten(targets, i) then {} else {targets[i].id}
    decreases |targets|
  {
    var n := |targets| - 1;
    LabelsAfterLast(objects, targets, first, i);
    OverwrittenByLast(targets, i);
    if i < n {
      ApplyLabels(objects, targets[..n], first, i);
      assert targets[..n][i] == targets[i];
    } else {
      UnusedLabel(objects, targets[..n], first);
    }
  }

  lemma {:induction false} LabelsInRange(objects: Store, targets: seq<Target>, first: TrackingId)
    requires forall k :: k in objects ==> objects[k].tracking < first
    ensures forall k :: k in PutAll(objects, targets, first) ==>
              PutAll(objects, targets, first)[k].tracking < first + |targets|
    decreases |targets|
  {
    if targets != [] {
      var n := |targets| - 1;
      var middle := PutAll(objects, targets[..n], first);
      LabelsInRange(objects, targets[..n], first);
      assert forall k :: k in middle ==> middle[k].tracking < first + n;
    }
  }

  /** Applying the same documents a second time changes no object but its tracking label. */
  lemma ApplyTwice(objects: Store, targets: seq<Target>, first: TrackingId, second: TrackingId)
    ensures var once := PutAll(objects, targets, first);
            var twice := PutAll(once, targets, second);
            twice.Keys == once.Keys && forall k :: k in once ==> twice[k].(tracking := 0) == once[k].(tracking := 0)
  {
    ApplyAddsMissing(objects, targets, first);
    ApplyAddsMissing(PutAll(objects, targets, first), targets, second);
  }

  /** What the API server answers to the calls made for one document. */
  datatype Answers = Answers(discoveryFails: bool, getFails: bool, writeFails: bool, suffix: string)

  /** Nothing fails. */
  const WORKS := Answers(false, false, false, "")

  predicate Generated(doc: Document) {
    doc.name == "" && doc.generateName != ""
  }

  predicate CallSucceeds(objects: Store, doc: Document, namespace: string, api: Answers) {
    && !api.discoveryFails && !api.writeFails
    && if Generated(doc) then Resolve(doc, namespace, api.suffix).id !in objects
       else doc.name != "" && !api.getFails
  }

  /** A generateName document adds exactly one object each time it is applied. */
  lemma GeneratedAddsOne(objects: Store, doc: Document, namespace: string, id: TrackingId, api: Answers)
    requires Generated(doc) && CallSucceeds(objects, doc, namespace, api)
    ensures var after := Put(objects, Resolve(doc, namespace, api.suffix), id);
            |after| == |objects| + 1 && forall k :: k in objects ==> k in after && after[k] == objects[k]
  {
    var target := Resolve(doc, namespace, api.suffix);
    assert Put(objects, target, id).Keys == objects.Keys + {target.id};
  }

  function Targets(docs: seq<Document>, namespace: string, api: seq<Answers>): (targets: seq<Target>)
    requires |api| == |docs|
    ensures |targets| == |docs|
  {
    seq(|docs|, i requires 0 <= i < |docs| => Resolve(docs[i], namespace, api[i].suffix))
  }

  lemma PutOneMore(objects: Store, targets: seq<Target>, first: TrackingId, n: nat)
    requires n < |targets|
    ensures PutAll(objects, targets[..n + 1], first) == Put(PutAll(objects, targets[..n], first), targets[n], first + n)
  {
    assert targets[..n + 1][..n] == targets[..n];
  }

  class ApiServer {
    var objects: Store
    var nextId: TrackingId

    /** CreateOrUpdate: generateName documents are created anew each time, named ones are upserted. */
    method CreateOrUpdate(doc: Document, namespace: string, id: TrackingId, api: Answers) returns (ok: bool)
      modifies `objects
      ensures ok <==> CallSucceeds(old(objects), doc, namespace, api)
      ensures objects == if ok then Put(old(objects), Resolve(doc, namespace, api.suffix), id) else old(objects)
      ensures var name := if doc.name == "" then doc.generateName + api.suffix else doc.name;
              var key := Identity(doc.gvk.group, doc.gvk.kind, namespace, name);
              && (ok <==> && !api.discoveryFails && !api.writeFails
                          && if doc.name == "" then doc.generateName != "" && key !in old(objects) else !api.getFails)
              && (forall k :: k != key ==> (k in objects <==> k in old(objects)))
              && (forall k :: k != key && k in objects ==> objects[k] == old(objects)[k])
              && (ok ==> key in objects && objects[key].doc == doc && objects[key].tracking == id
                         && objects[key].Progress() ==
                            if key in old(objects) then old(objects)[key].Progress() else (0, 0, false))
    {
      if api.discoveryFails {
        return false;
      }
      var target := Resolve(doc, namespace, api.suffix);
      if doc.name == "" && doc.generateName != "" {
        if api.writeFails || target.id in objects {
          return false;
        }
        objects := objects[target.id := Fresh(target, id)];
        return true;
      }
      if doc.name == "" || api.getFails {
        return false;
      }
      if target.id !in objects {
        if api.writeFails {
          return false;
        }
        objects := objects[target.id := Fresh(target, id)];
        return true;
      }
      if api.writeFails {
        return false;
      }
      objects := objects[target.id := objects[target.id].(doc := target.doc, tracking := id)];
      return true;
    }

    /** ApplyObjects after rendering: stops at the first failing document; what succeeded stays and is referenced. */
    method ApplyObjects(docs: seq<Document>, namespace: string, api: seq<Answers>)
      returns (refs: seq<ChildReference>, ok: bool)
      requires |api| == |docs|
      modifies `objects, `nextId
      ensures ok <==> docs != [] && |refs| == |docs|
      ensures |refs| <= |docs| && nextId == old(nextId) + |refs| + if |refs| < |docs| then 1 else 0
      ensures forall i :: 0 <= i < |refs| ==> refs[i] == ReferenceTo(docs[i].gvk, old(nextId) + i)
      ensures objects == PutAll(old(objects), Targets(docs, namespace, api)[..|refs|], old(nextId))
      ensures |refs| < |docs| ==> !CallSucceeds(objects, docs[|refs|], namespace, api[|refs|])
    {
      ghost var targets := Targets(docs, namespace, api);
      refs := [];
      if |docs| == 0 {
        return refs, false;
      }
      for i := 0 to |docs|
        invariant |refs| == i && nextId == old(nextId) + i
        invariant forall j :: 0 <= j < i ==> refs[j] == ReferenceTo(docs[j].gvk, old(nextId) + j)
        invariant objects == PutAll(old(objects), targets[..i], old(nextId))
      {
        var id := nextId;
        nextId := nextId + 1;
        var applied := CreateOrUpdate(docs[i], namespace, id, api[i]);
        if !applied {
          return refs, false;
        }
        PutOneMore(old(objects), targets, old(nextId), i);
        refs := refs + [ReferenceTo(docs[i].gvk, id)];
      }
      return refs, true;
    }
  }
}
