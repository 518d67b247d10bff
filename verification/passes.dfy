/** Applying a list of documents without a failure: what both kinds of passes have in common. */
module Passes {
  import opened Locking
  import opened References
  import opened Rendering
  import opened Cluster
  import opened ControlPlane

  /** The answers let every document through, one after the other. */
  predicate AllSucceed(objects: Store, docs: seq<Document>, namespace: string, apis: seq<Answers>, first: TrackingId)
    requires |apis| == |docs|
  {
    forall j :: 0 <= j < |docs| ==>
      CallSucceeds(PutAll(objects, Targets(docs, namespace, apis)[..j], first), docs[j], namespace, apis[j])
  }

  /** The calls for the first `n` documents. */
  function CallsFor(docs: seq<Document>, namespace: string, apis: seq<Answers>, first: TrackingId, n: nat): seq<Call>
    requires n <= |docs| == |apis|
  {
    seq(n, j requires 0 <= j < n => CallFor(docs[j], namespace, apis[j].suffix, first + j, true))
  }

  /** The cluster after the first `n` documents of an action or of a scheduled backup. */
  function Wrote(s: State, k: Request, forAction: bool, docs: seq<Document>, apis: seq<Answers>, n: nat): State
    requires n <= |docs| == |apis|
  {
    s.(objects := PutAll(s.objects, Targets(docs, k.namespace, apis)[..n], s.nextId), nextId := s.nextId + n,
       landings := s.landings + LandingsOf(k, forAction, CallsFor(docs, k.namespace, apis, s.nextId, n)))
  }

  function LandingsOf(k: Request, forAction: bool, calls: seq<Call>): seq<Landing> {
    seq(|calls|, j requires 0 <= j < |calls| => Landing(k, forAction, calls[j]))
  }

  function ApplyEvents(w: nat, apis: seq<Answers>): seq<Event> {
    seq(|apis|, j requires 0 <= j < |apis| => ApplyDoc(w, apis[j], true))
  }

  lemma WroteOneMore(s: State, k: Request, forAction: bool, docs: seq<Document>, apis: seq<Answers>, n: nat)
    requires n < |docs| == |apis|
    ensures var before, after := Wrote(s, k, forAction, docs, apis, n), Wrote(s, k, forAction, docs, apis, n + 1);
            var call := CallFor(docs[n], k.namespace, apis[n].suffix, s.nextId + n, true);
            && after.objects == Put(before.objects, Resolve(docs[n], k.namespace, apis[n].suffix), s.nextId + n)
            && after.nextId == before.nextId + 1
            && after.landings == before.landings + [Landing(k, forAction, call)]
            && CallsFor(docs, k.namespace, apis, s.nextId, n + 1) ==
               CallsFor(docs, k.namespace, apis, s.nextId, n) + [call]
  {
    var targets := Targets(docs, k.namespace, apis);
    assert targets[..n + 1][..n] == targets[..n];
    var calls := CallsFor(docs, k.namespace, apis, s.nextId, n);
    var call := CallFor(docs[n], k.namespace, apis[n].suffix, s.nextId + n, true);
    assert CallsFor(docs, k.namespace, apis, s.nextId, n + 1) == calls + [call];
    assert LandingsOf(k, forAction, calls + [call]) == LandingsOf(k, forAction, calls) + [Landing(k, forAction, call)];
    assert s.landings + (LandingsOf(k, forAction, calls) + [Landing(k, forAction, call)]) ==
           s.landings + LandingsOf(k, forAction, calls) + [Landing(k, forAction, call)];
  }

  lemma WroteNothing(s: State, k: Request, forAction: bool, docs: seq<Document>, apis: seq<Answers>)
    requires |docs| == |apis|
    ensures Wrote(s, k, forAction, docs, apis, 0) == s && CallsFor(docs, k.namespace, apis, s.nextId, 0) == []
  {
    assert Targets(docs, k.namespace, apis)[..0] == [];
    assert s.landings + LandingsOf(k, forAction, []) == s.landings;
  }

  lemma EventsOneMore(w: nat, apis: seq<Answers>, n: nat)
    requires n < |apis|
    ensures ApplyEvents(w, apis[..n + 1]) == ApplyEvents(w, apis[..n]) + [ApplyDoc(w, apis[n], true)]
    ensures n + 1 == |apis| ==> ApplyEvents(w, apis) == ApplyEvents(w, apis[..n]) + [ApplyDoc(w, apis[n], true)]
    ensures ApplyEvents(w, apis[..0]) == []
  {
  }

  /** A single document with a name always goes through when nothing fails. */
  lemma NamedSucceeds(objects: Store, doc: Document, namespace: string, first: TrackingId)
    requires doc.name != ""
    ensures AllSucceed(objects, [doc], namespace, [WORKS], first)
  {
  }

  lemma WroteOne(s: State, k: Request, forAction: bool, doc: Document, api: Answers)
    ensures var call := CallFor(doc, k.namespace, api.suffix, s.nextId, true);
            && Wrote(s, k, forAction, [doc], [api], 1) ==
               s.(objects := Put(s.objects, Resolve(doc, k.namespace, api.suffix), s.nextId), nextId := s.nextId + 1,
                  landings := s.landings + [Landing(k, forAction, call)])
            && CallsFor([doc], k.namespace, [api], s.nextId, 1) == [call]
  {
    WroteNothing(s, k, forAction, [doc], [api]);
    WroteOneMore(s, k, forAction, [doc], [api], 0);
  }

  /** A single document goes through exactly when its call does. */
  lemma OneSucceeds(objects: Store, doc: Document, namespace: string, api: Answers, first: TrackingId)
    ensures AllSucceed(objects, [doc], namespace, [api], first) <==> CallSucceeds(objects, doc, namespace, api)
  {
    assert Targets([doc], namespace, [api])[..0] == [];
    assert PutAll(objects, [], first) == objects && [doc][0] == doc;
  }
}
