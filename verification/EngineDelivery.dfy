/** Completed work delivers: what its output leaves in the instance, and which edges then carry control on. */
module EngineDelivery {
  // server/businessWorkflows.ts:536-555, 1265-1431, 1447-1517.

  import opened Prelude
  import opened JsonTree
  import opened WorkflowGraph
  import opened Worklist
  import opened Engine
  import opened EngineFrame
  import opened EngineInduction
  import opened EngineJoins

  /** The context after a node was completed with an output, read path by path. Without bindings the whole
      output stands under the node's id. With bindings, every path reads as their writes in turn leave it;
      an output no later binding touches stands at its path, and a path no binding touches is as before. */
  ghost predicate Delivered(before: Context, n: Node, output: Context, after: Context) {
    && (n.bindings == [] ==>
          var p := ["nodeOutputs"] + SplitPath(n.id);
          && GetAt(after, p) == Some(Obj(output))
          && forall q :: !Comparable(p, q) ==> GetAt(after, q) == GetAt(before, q))
    && (n.bindings != [] ==>
          && (forall q :: q != [] ==> GetAt(after, q) == AfterBindings(GetAt(before, q), q, n.bindings, output))
          && (forall q :: ClearOf(n.bindings, output, q) ==> GetAt(after, q) == GetAt(before, q))
          && forall i :: 0 <= i < |n.bindings| ==> BindingStands(n.bindings, i, output, after))
  }

  /** Output `i` stands at its path, unless a later binding touches it. */
  ghost predicate BindingStands(bindings: seq<Binding>, i: nat, output: Context, after: Context)
    requires i < |bindings|
  {
    var p := SplitPath(bindings[i].contextPath);
    bindings[i].name in output && p != [] && ClearOf(bindings[i + 1..], output, p) ==>
      GetAt(after, p) == Some(output[bindings[i].name])
  }

  lemma OutputPath(id: string)
    ensures SplitPath("nodeOutputs." + id) == ["nodeOutputs"] + SplitPath(id)
  {
    DottedName("nodeOutputs", id);
    assert "nodeOutputs" + "." == "nodeOutputs.";
  }

  lemma DefaultDelivers(before: Context, n: Node, output: Context)
    requires n.bindings == []
    ensures Delivered(before, n, output, ApplyOutputBindings(before, n.id, n.bindings, output))
  {
    OutputPath(n.id);
    var p := ["nodeOutputs"] + SplitPath(n.id);
    ReadBack(before, p, Obj(output));
    forall q | !Comparable(p, q) ensures GetAt(SetAt(before, p, Obj(output)), q) == GetAt(before, q) {
      ReadElsewhere(before, p, Obj(output), q);
    }
  }

  lemma BindingsDelivered(before: Context, n: Node, output: Context)
    requires n.bindings != []
    ensures Delivered(before, n, output, ApplyOutputBindings(before, n.id, n.bindings, output))
  {
    var after := BindAll(before, n.bindings, output);
    forall q | q != [] ensures GetAt(after, q) == AfterBindings(GetAt(before, q), q, n.bindings, output) {
      ReadAfterBindings(before, n.bindings, output, q);
    }
    forall q | ClearOf(n.bindings, output, q) ensures GetAt(after, q) == GetAt(before, q) {
      BindAllElsewhere(before, n.bindings, output, q);
    }
    forall i: nat | i < |n.bindings| ensures BindingStands(n.bindings, i, output, after) {
      var p := SplitPath(n.bindings[i].contextPath);
      if n.bindings[i].name in output && p != [] && ClearOf(n.bindings[i + 1..], output, p) {
        BindingsDeliver(before, n.bindings, output, i);
      }
    }
  }

  lemma OutputDelivered(before: Context, n: Node, output: Context)
    ensures Delivered(before, n, output, ApplyOutputBindings(before, n.id, n.bindings, output))
  {
    if n.bindings == [] {
      DefaultDelivers(before, n, output);
    } else {
      BindingsDelivered(before, n, output);
    }
  }

  /** What leaving a node changes besides the context, before its successors are activated: it is no longer
      active, its armed timers are cancelled and no others, and the log tells of its completion. */
  ghost predicate Left(s: State, n: Node, u: State) {
    && u.status == s.status && u.metadata == s.metadata && u.tasks == s.tasks && u.approvals == s.approvals
    && (forall x :: x in u.active <==> x in s.active && x != n.id)
    && TimersOff(s.timers, n.id, u.timers)
    && u.log == s.log + [NodeCompleted(n.id)] + AttachmentEvents(n.id, n.attachments, OnComplete)
  }

  /** Of the rows that were there, those at the node are disarmed and all others are as they were. */
  ghost predicate TimersOff(before: seq<Timer>, id: string, after: seq<Timer>) {
    && |before| <= |after|
    && forall k :: 0 <= k < |before| ==>
         if before[k].node == id && !before[k].fired && !before[k].cancelled
         then after[k] == before[k].(cancelled := true) else after[k] == before[k]
  }

  lemma {:induction false} WithoutHas(ids: seq<string>, id: string)
    ensures forall x :: x in Without(ids, id) <==> x in ids && x != id
  {
    if ids != [] {
      WithoutHas(ids[1..], id);
      assert ids == [ids[0]] + ids[1..];
    }
  }

  lemma DepartLeaves(env: Env, s: State, n: Node, output: Context)
    ensures Left(s, n, Depart(env, s, n, output))
  {
    WithoutHas(s.active, n.id);
    LogInThree(s.log, [NodeCompleted(n.id)], AttachmentEvents(n.id, n.attachments, OnComplete));
    var more := s.timers + AttachmentTimers(n.id, n.attachments, OnComplete);
    var u := Depart(env, s, n, output);
    assert u.timers == CancelledAt(more, n.id);
    assert forall k :: 0 <= k < |s.timers| ==> more[k] == s.timers[k];
  }

  /** The indices of the edges out of `id` whose condition holds in `ctx` and whose target exists, in
      order. */
  ghost predicate OpenEdges(env: Env, ctx: Context, id: string, ks: seq<nat>) {
    && (forall i, j :: 0 <= i < j < |ks| ==> ks[i] < ks[j])
    && forall k: nat :: k in ks <==>
         && k < |env.version.edges| && env.version.edges[k].source == id
         && (env.version.edges[k].condition.None? || Holds(env, env.version.edges[k].condition.value, ctx))
         && exists n :: n in env.version.nodes && n.id == env.version.edges[k].target
  }

  lemma EnabledAreOpen(env: Env, ctx: Context, id: string)
    ensures OpenEdges(env, ctx, id, EnabledEdges(env, ctx, id))
  {
    forall k: nat | k < |env.version.edges|
      ensures Lookup(env, env.version.edges[k].target).Some?
              <==> exists n :: n in env.version.nodes && n.id == env.version.edges[k].target
    {}
  }

  /** Moving on from a completed node of a RUNNING instance. The output is in the context, the node has been
      left (`u`), and control goes, from there, to the targets of exactly the edges that are open in that
      very context. */
  lemma AdvanceDelivers(env: Env, s: State, id: string, output: Context, fuel: nat) returns (u: State, ks: seq<nat>)
    requires s.status == Running && Lookup(env, id).Some? && Advance(env, s, id, output, fuel).Some?
    ensures var t := Advance(env, s, id, output, fuel).value;
            var n := Lookup(env, id).value;
            && Delivered(s.context, n, output, t.context) && Left(s, n, u) && Extends(u, t)
            && OpenEdges(env, t.context, id, ks) && (forall k :: k in ks ==> HasTarget(env, k))
            && Drain(env, u, TargetsOf(env, ks), fuel) == Some(t)
  {
    var n := Lookup(env, id).value;
    u := Depart(env, s, n, output);
    ks := EnabledEdges(env, u.context, id);
    OutputDelivered(s.context, n, output);
    DepartLeaves(env, s, n, output);
    PickedFound(env, u.context, id);
    DrainExtends(env, u, PickTargets(env, u.context, id), fuel);
    EnabledAreOpen(env, u.context, id);
  }

  /** Completing an open planned task of a RUNNING instance: the row is COMPLETED, and the explicit output,
      or else the form data, or else nothing, is delivered at its node. */
  lemma CompleteDelivers(env: Env, s: State, i: nat, formData: Option<Context>, output: Option<Context>, fuel: nat)
    returns (u: State, ks: seq<nat>)
    requires i < |s.tasks| && s.tasks[i].status in {Open, Claimed, InProgress} && s.tasks[i].where.Graph?
    requires s.status == Running && Lookup(env, s.tasks[i].where.id).Some?
    requires CompleteTask(env, s, i, formData, output, fuel).Some?
    ensures var r := CompleteTask(env, s, i, formData, output, fuel).value;
            var n := Lookup(env, s.tasks[i].where.id).value;
            && r.reply == Ok
            && Delivered(s.context, n, if output.Some? then output.value
                                       else if formData.Some? then formData.value else map[], r.state.context)
            && s.tasks[i := s.tasks[i].(status := Finished)] <= r.state.tasks
            && TimersOff(s.timers, n.id, r.state.timers)
            && s.log + [TaskCompleted(s.tasks[i].where)] + [NodeCompleted(n.id)] <= r.state.log
            && OpenEdges(env, r.state.context, n.id, ks) && (forall k :: k in ks ==> HasTarget(env, k))
            && u.context == r.state.context && Drain(env, u, TargetsOf(env, ks), fuel) == Some(r.state)
  {
    var s1 := Finish(s, i);
    u, ks := AdvanceDelivers(env, s1, s.tasks[i].where.id, OutputOf(formData, output), fuel);
  }

  /** The names decisions go by in the context. */
  predicate Names(d: ApprovalStatus, name: string) {
    && (d == Approved ==> name == "APPROVED")
    && (d == ApprovedWithConditions ==> name == "APPROVED_WITH_CONDITIONS")
    && (d == Rejected ==> name == "REJECTED")
  }

  /** What a settling decision says: its name, and conditions and notes if given. */
  ghost predicate Says(output: Context, d: ApprovalStatus, conditions: Option<string>, notes: Option<string>) {
    && output.Keys == {"decision"} + (if conditions.Some? then {"conditions"} else {})
                      + (if notes.Some? then {"notes"} else {})
    && output["decision"].Str? && Names(d, output["decision"].s)
    && (conditions.Some? ==> output["conditions"] == Str(conditions.value))
    && (notes.Some? ==> output["notes"] == Str(notes.value))
  }

  lemma OutputSays(d: ApprovalStatus, conditions: Option<string>, notes: Option<string>)
    ensures Says(DecisionOutput(d, conditions, notes), d, conditions, notes)
  {}

  /** Settling a pending approval of a RUNNING instance: the row carries the decision, and the decision, by
      its name and with conditions and notes, is delivered at its node. */
  lemma DecideDelivers(env: Env, s: State, i: nat, d: ApprovalStatus, conditions: Option<string>,
                       notes: Option<string>, fuel: nat)
    returns (output: Context, u: State, ks: seq<nat>)
    requires i < |s.approvals| && s.approvals[i].status == Pending && s.status == Running
    requires d in {Approved, ApprovedWithConditions, Rejected} && Lookup(env, s.approvals[i].node).Some?
    requires Decide(env, s, i, d, conditions, notes, fuel).Some?
    ensures var r := Decide(env, s, i, d, conditions, notes, fuel).value;
            var n := Lookup(env, s.approvals[i].node).value;
            && r.reply == Ok && Says(output, d, conditions, notes)
            && Delivered(s.context, n, output, r.state.context)
            && s.approvals[i := s.approvals[i].(status := d)] <= r.state.approvals
            && TimersOff(s.timers, n.id, r.state.timers)
            && s.log + [ApprovalDecided(n.id, d)] + [NodeCompleted(n.id)] <= r.state.log
            && OpenEdges(env, r.state.context, n.id, ks) && (forall k :: k in ks ==> HasTarget(env, k))
            && u.context == r.state.context && Drain(env, u, TargetsOf(env, ks), fuel) == Some(r.state)
  {
    var a := s.approvals[i];
    var s1 := Emit(s.(approvals := s.approvals[i := a.(status := d)]), ApprovalDecided(a.node, d));
    output := DecisionOutput(d, conditions, notes);
    OutputSays(d, conditions, notes);
    u, ks := AdvanceDelivers(env, s1, a.node, output, fuel);
  }

  /** Any other decision only marks its row: nothing is delivered and nothing moves. */
  lemma InterimDecision(env: Env, s: State, i: nat, d: ApprovalStatus, conditions: Option<string>,
                        notes: Option<string>, fuel: nat)
    requires i < |s.approvals| && s.approvals[i].status == Pending && s.status != Paused
    requires d !in {Approved, ApprovedWithConditions, Rejected}
    ensures Decide(env, s, i, d, conditions, notes, fuel)
            == Some(Outcome(s.(approvals := s.approvals[i := s.approvals[i].(status := d)],
                               log := s.log + [ApprovalDecided(s.approvals[i].node, d)]), Ok))
  {}

  // --- When it is refused, and when nothing moves on ---

  /** How completing a task is answered: null without the task or when it is closed already, refused on a
      paused instance unless the task is a blocking side task. Nothing changes unless it succeeds; and on an
      instance that is not RUNNING, or at a node that is gone, it closes the row and no more. */
  lemma CompleteReplies(env: Env, s: State, i: nat, formData: Option<Context>, output: Option<Context>, fuel: nat)
    requires Step(env, s, DoComplete(i, formData, output), fuel).Some?
    ensures var r := Step(env, s, DoComplete(i, formData, output), fuel).value;
            && (i >= |s.tasks| ==> r == Outcome(s, Absent))
            && (i < |s.tasks| ==>
                  var t := s.tasks[i];
                  var closed := s.(tasks := s.tasks[i := t.(status := Finished)],
                                   log := s.log + [TaskCompleted(t.where)]);
                  && (s.status == Paused && !(t.where.Side? && t.blocking) ==> r == Outcome(s, Refused))
                  && (s.status != Paused && t.status !in {Open, Claimed, InProgress} ==> r == Outcome(s, Absent))
                  && (s.status == Paused && t.where.Side? && t.blocking && t.status !in {Open, Claimed, InProgress} ==>
                        r == Outcome(s, Absent))
                  && (s.status != Paused && t.status in {Open, Claimed, InProgress}
                      && (t.where.Side? || s.status != Running || Lookup(env, t.where.id).None?) ==>
                        r == Outcome(closed, Ok)))
  {}

  /** The same for deciding an approval: null without it, refused while paused, null when it is decided
      already; and on an instance that is not RUNNING, or at a node that is gone, only the row is marked. */
  lemma DecideReplies(env: Env, s: State, i: nat, d: ApprovalStatus, conditions: Option<string>, notes: Option<string>,
                      fuel: nat)
    requires Step(env, s, DoDecide(i, d, conditions, notes), fuel).Some?
    ensures var r := Step(env, s, DoDecide(i, d, conditions, notes), fuel).value;
            && (i >= |s.approvals| ==> r == Outcome(s, Absent))
            && (i < |s.approvals| && s.status == Paused ==> r == Outcome(s, Refused))
            && (i < |s.approvals| && s.status != Paused && s.approvals[i].status != Pending ==> r == Outcome(s, Absent))
            && (i < |s.approvals| && s.status != Paused && s.approvals[i].status == Pending
                && (s.status != Running || Lookup(env, s.approvals[i].node).None?) ==>
                  r == Outcome(s.(approvals := s.approvals[i := s.approvals[i].(status := d)],
                                  log := s.log + [ApprovalDecided(s.approvals[i].node, d)]), Ok))
  {}
}
