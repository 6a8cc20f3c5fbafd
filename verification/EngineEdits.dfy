/** Cancel and the context edits, exactly: what each leaves, what it logs, and when it refuses. */
module EngineEdits {
  // server/businessWorkflows.ts:1084-1142, 2352-2568.

  import opened Prelude
  import opened JsonTree
  import opened WorkflowGraph
  import opened Engine

  /** Cancel does nothing to a COMPLETED or CANCELLED instance. Any other it marks CANCELLED: open tasks are
      withdrawn, pending approvals rejected, armed timers disarmed, and nothing else changes. */
  lemma CancelCloses(env: Env, s: State, fuel: nat)
    ensures var r := Step(env, s, DoCancel, fuel).value;
            var t := r.state;
            && r.reply == Ok
            && (s.status in {Completed, Cancelled} ==> t == s)
            && (s.status !in {Completed, Cancelled} ==>
                  && t.status == Cancelled && t.log == s.log + [InstanceCancelled]
                  && t.context == s.context && t.active == s.active && t.metadata == s.metadata
                  && |t.tasks| == |s.tasks| && |t.approvals| == |s.approvals| && |t.timers| == |s.timers|
                  && (forall i :: 0 <= i < |s.tasks| ==>
                        t.tasks[i] == if s.tasks[i].status in {Open, Claimed, InProgress}
                                      then s.tasks[i].(status := Withdrawn) else s.tasks[i])
                  && (forall i :: 0 <= i < |s.approvals| ==>
                        t.approvals[i] == if s.approvals[i].status == Pending
                                          then s.approvals[i].(status := Rejected) else s.approvals[i])
                  && (forall i :: 0 <= i < |s.timers| ==>
                        t.timers[i] == if !s.timers[i].fired && !s.timers[i].cancelled
                                       then s.timers[i].(cancelled := true) else s.timers[i]))
  {}

  /** An update is refused by an ended instance, and else writes and logs if and only if some patched key is
      new or prints differently. */
  lemma UpdateLogsExactly(env: Env, s: State, patch: Context, reordered: set<string>, fuel: nat)
    ensures var r := Step(env, s, DoUpdateContext(patch, reordered), fuel).value;
            && (s.status in {Completed, Cancelled, Failed} <==> r.reply == Refused)
            && (r.reply == Refused ==> r.state == s)
            && (r.reply != Refused ==>
                  if exists k :: k in patch && (k in s.context ==> s.context[k] != patch[k] || k in reordered)
                  then r.state.log == s.log + [ContextUpdated] else r.state == s)
  {}

  /** A removal takes the given keys that are there and not reserved, and logs if and only if there is one;
      no status stops it. */
  lemma RemoveLogsExactly(env: Env, s: State, keys: set<string>, fuel: nat)
    ensures var r := Step(env, s, DoRemoveKeys(keys), fuel).value;
            && r.reply == Ok && r.state == s.(context := r.state.context, log := r.state.log)
            && (forall k :: k in r.state.context <==>
                              k in s.context && !(k in keys && !(|k| >= 2 && k[0] == '_' && k[1] == '_')))
            && (forall k :: k in r.state.context ==> r.state.context[k] == s.context[k])
            && r.state.log == if r.state.context == s.context then s.log else s.log + [ContextUpdated]
  {
    forall k | k in keys ensures Removable(k) <==> !(|k| >= 2 && k[0] == '_' && k[1] == '_') {
      assert |k| >= 2 ==> k[..2] == [k[0], k[1]];
    }
    var gone := set k | k in keys && Removable(k) && k in s.context;
    var t := RemoveKeys(s, keys).state;
    assert t.context == s.context - gone;
    if k :| k in gone {
      assert k in s.context && k !in t.context;
    }
  }

  /** `ks` are the places of the documents that stay, in order. */
  ghost predicate Staying(docs: seq<Json>, id: string, ks: seq<nat>) {
    && (forall i :: 0 <= i < |ks| ==> ks[i] < |docs|) && (forall i, j :: 0 <= i < j < |ks| ==> ks[i] < ks[j])
    && forall k: nat :: k < |docs| ==> (k in ks <==> !IsNamed(docs[k], id))
  }

  /** A plain object whose property "id" is the text. */
  predicate IsNamed(doc: Json, id: string) {
    match doc
    case Obj(fields) => "id" in fields && fields["id"] == Str(id)
    case _ => false
  }

  function Picked(docs: seq<Json>, ks: seq<nat>): seq<Json>
    requires forall i :: 0 <= i < |ks| ==> ks[i] < |docs|
  {
    seq(|ks|, i requires 0 <= i < |ks| => docs[ks[i]])
  }

  lemma {:induction false} DropStays(docs: seq<Json>, id: string) returns (ks: seq<nat>)
    ensures Staying(docs, id, ks) && DropId(docs, id) == Picked(docs, ks)
  {
    ks := [];
    if docs != [] {
      var n := |docs| - 1;
      var before := docs[..n];
      ks := DropStays(before, id);
      assert Picked(before, ks) == Picked(docs, ks);
      assert docs == before + [docs[n]];
      DropIdAppend(before, docs[n], id);
      if !IsNamed(docs[n], id) {
        var more := ks + [n];
        assert Picked(docs, more) == Picked(docs, ks) + [docs[n]];
        ks := more;
      }
    }
  }

  /** `r` is what detaching leaves when the documents at `ks` stay. */
  ghost predicate Detached(s: State, docs: seq<Json>, id: string, ks: seq<nat>, r: Outcome) {
    && r.reply == Ok && Staying(docs, id, ks)
    && r.state == s.(context := r.state.context, log := r.state.log)
    && Documents(r.state.context) == Picked(docs, ks)
    && r.state.context - {"__documents"} == s.context - {"__documents"}
    && r.state.log == if |ks| == |docs| then s.log else s.log + [DocumentRemoved]
  }

  lemma NothingDetached(s: State, id: string, ks: seq<nat>)
    requires var docs := Documents(s.context);
             Null !in docs && Staying(docs, id, ks) && DropId(docs, id) == Picked(docs, ks)
             && forall d :: d in docs ==> !HasId(d, id)
    ensures Detached(s, Documents(s.context), id, ks, RemoveDocument(s, id))
  {
    NoneDropped(Documents(s.context), id);
  }

  lemma SomeDetached(s: State, docs: seq<Json>, id: string, ks: seq<nat>, d: Json)
    requires docs == Documents(s.context) && Null !in docs && Staying(docs, id, ks)
    requires DropId(docs, id) == Picked(docs, ks) && d in docs && HasId(d, id)
    ensures Detached(s, docs, id, ks, RemoveDocument(s, id))
  {
    SomeDropped(docs, id, ks);
    var context := s.context["__documents" := Arr(DropId(docs, id))];
    assert Documents(context) == DropId(docs, id);
    assert RemoveDocument(s, id) == Outcome(Emit(s.(context := context), DocumentRemoved), Ok);
  }

  /** Detaching fails without effect when a null is among the documents, and else leaves, in order, all
      documents but the ones with the id, and logs if and only if there were any. No status stops it. */
  lemma DetachExactly(env: Env, s: State, id: string, fuel: nat) returns (ks: seq<nat>)
    ensures var r := Step(env, s, DoDetach(id), fuel).value;
            if Null in Documents(s.context) then r == Outcome(s, Refused)
            else Detached(s, Documents(s.context), id, ks, r)
  {
    var docs := Documents(s.context);
    ks := DropStays(docs, id);
    assert Step(env, s, DoDetach(id), fuel) == Some(RemoveDocument(s, id));
    if Null !in docs {
      if d :| d in docs && HasId(d, id) {
        SomeDetached(s, docs, id, ks, d);
      } else {
        NothingDetached(s, id, ks);
      }
    }
  }

  lemma SomeDropped(docs: seq<Json>, id: string, ks: seq<nat>)
    requires Staying(docs, id, ks) && exists d :: d in docs && HasId(d, id)
    ensures |ks| != |docs|
  {
    var k :| 0 <= k < |docs| && HasId(docs[k], id);
    if |ks| == |docs| {
      Crowded(ks, |docs|);
      Present(ks, k);
      assert false;
    }
  }

  lemma Present(ks: seq<nat>, k: nat)
    requires k < |ks| && ks[k] == k
    ensures k in ks
  {}

  /** As many increasing places as there are can only be all of them. */
  lemma {:induction false} Crowded(ks: seq<nat>, n: nat)
    requires |ks| == n && (forall i :: 0 <= i < n ==> ks[i] < n) && forall i, j :: 0 <= i < j < n ==> ks[i] < ks[j]
    ensures forall i :: 0 <= i < n ==> ks[i] == i
  {
    if n > 0 {
      assert ks[n - 1] <= n - 1;
      Crowded(ks[..n - 1], n - 1);
      assert forall i :: 0 <= i < n - 1 ==> ks[..n - 1][i] == ks[i];
      assert n > 1 ==> ks[n - 2] == n - 2;
    }
  }

  /** Attaching is refused for a malformed document and by an ended instance, and else changes the list of
      documents and the log alone. */
  lemma AttachExactly(env: Env, s: State, doc: Json, wellFormed: bool, fuel: nat)
    ensures var r := Step(env, s, DoAttach(doc, wellFormed), fuel).value;
            && (r.reply == Refused <==> !wellFormed || s.status in {Completed, Cancelled, Failed})
            && (r.reply == Refused ==> r.state == s)
            && (r.reply != Refused ==>
                  && r.reply == Ok && r.state == s.(context := r.state.context, log := s.log + [DocumentAttached])
                  && Documents(r.state.context) == Documents(s.context) + [doc])
  {}

  // --- What edits do to each other ---

  /** After an update every patched key reads as patched and every other key as before; the same update once
      more changes nothing, unless the patch is written in another key order. */
  lemma UpdateReads(env: Env, s: State, patch: Context, reordered: set<string>, fuel: nat)
    requires s.status in {Running, Paused}
    ensures var r := Step(env, s, DoUpdateContext(patch, reordered), fuel).value;
            && r.reply == Ok && r.state == s.(context := r.state.context, log := r.state.log)
            && (forall k :: k in patch ==> k in r.state.context && r.state.context[k] == patch[k])
            && (forall k :: k !in patch ==> (k in r.state.context <==> k in s.context)
                                            && (k in s.context ==> r.state.context[k] == s.context[k]))
            && (reordered == {} ==> Step(env, r.state, DoUpdateContext(patch, {}), fuel) == Some(Outcome(r.state, Ok)))
  {}

  /** Removing keys takes exactly the given ones that are not reserved, so it undoes an update that added
      such keys. */
  lemma RemoveUndoesUpdate(env: Env, s: State, patch: Context, fuel: nat)
    requires s.status in {Running, Paused}
    requires forall k :: k in patch ==> k !in s.context && !(|k| >= 2 && k[0] == '_' && k[1] == '_')
    ensures var r := Step(env, s, DoUpdateContext(patch, {}), fuel).value;
            Step(env, r.state, DoRemoveKeys(patch.Keys), fuel).value.state.context == s.context
  {
    var t := Step(env, s, DoUpdateContext(patch, {}), fuel).value.state;
    assert forall k :: k in patch ==> Removable(k);
    assert t.context == s.context + patch;
    var gone := set k | k in patch.Keys && Removable(k) && k in t.context;
    assert gone == patch.Keys;
    assert (s.context + patch) - patch.Keys == s.context;
  }

  /** Reserved keys are never removed. */
  lemma ReservedStay(env: Env, s: State, keys: set<string>, fuel: nat, k: string)
    requires |k| >= 2 && k[0] == '_' && k[1] == '_'
    ensures var t := Step(env, s, DoRemoveKeys(keys), fuel).value.state;
            (k in t.context <==> k in s.context) && (k in s.context ==> t.context[k] == s.context[k])
  {
    assert k[..2] == "__";
  }

  lemma ListedAfter(s: State, docs: seq<Json>)
    ensures Documents(s.context["__documents" := Arr(docs)]) == docs
  {}

  lemma DetachTakes(s: State, docs: seq<Json>, doc: Json, id: string)
    requires Documents(s.context) == docs + [doc] && HasId(doc, id)
    requires forall d :: d in docs ==> !HasId(d, id) && d != Null
    ensures Documents(RemoveDocument(s, id).state.context) == docs
  {
    assert doc in docs + [doc];
    NoneDropped(docs, id);
    DropIdAppend(docs, doc, id);
    ListedAfter(s, docs);
  }

  /** Attaching a document appends it to the list; removing its id, if new, gives the list back. */
  lemma DetachUndoesAttach(env: Env, s: State, doc: Json, id: string, fuel: nat)
    requires s.status in {Running, Paused} && HasId(doc, id)
    requires forall d :: d in Documents(s.context) ==> !HasId(d, id) && d != Null
    ensures var r := Step(env, s, DoAttach(doc, true), fuel).value;
            && Documents(r.state.context) == Documents(s.context) + [doc]
            && Documents(Step(env, r.state, DoDetach(id), fuel).value.state.context) == Documents(s.context)
            && forall k :: k != "__documents" && k in s.context ==>
                 k in r.state.context && r.state.context[k] == s.context[k]
  {
    var docs := Documents(s.context);
    var t := AttachDocument(s, doc, true).state;
    ListedAfter(s, docs + [doc]);
    DetachTakes(t, docs, doc, id);
  }
}
