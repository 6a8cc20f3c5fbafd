/** What a run does to the life of an instance: COMPLETED and CANCELLED are never left, a cancelled
    instance is sealed, and while the status stays PAUSED the planned part is frozen. */
module EngineLifecycle {
  import opened Prelude
  import opened JsonTree
  import opened WorkflowGraph
  import opened Worklist
  import opened Engine
  import opened EngineGrowth
  import opened EngineInduction

  /** A cancelled instance offers no work and arms no timer. */
  ghost predicate Sealed(s: State) {
    s.status == Cancelled ==>
      && (forall i :: 0 <= i < |s.tasks| ==> !IsOpen(s.tasks[i].status))
      && (forall i :: 0 <= i < |s.approvals| ==> s.approvals[i].status != Pending)
      && (forall i :: 0 <= i < |s.timers| ==> !Armed(s.timers[i]))
  }

  function StatusIn(before: Status): State -> bool {
    (s: State) => s.status == before || s.status == Completed
  }

  lemma EnterStatus(env: Env, s: State, n: Node)
    ensures Enter(env, s, n).status in {s.status, Completed}
  {}

  lemma EntryStatus(env: Env, before: Status)
    ensures EntryKeeps(env, StatusIn(before))
  {
    forall s: State, n: Node | StatusIn(before)(s) && Found(env, n) ensures StatusIn(before)(Enter(env, s, n)) {
      EnterStatus(env, s, n);
    }
  }

  /** Activation changes the status only by completing the instance. */
  lemma DrainStatus(env: Env, s: State, work: seq<Node>, fuel: nat)
    requires AllGood(FoundIn(env), work) && Drain(env, s, work, fuel).Some?
    ensures Drain(env, s, work, fuel).value.status in {s.status, Completed}
  {
    EntryStatus(env, s.status);
    DrainKeeps(env, s, work, fuel, StatusIn(s.status));
  }

  lemma AdvanceStatus(env: Env, s: State, id: string, output: Context, fuel: nat)
    requires Advance(env, s, id, output, fuel).Some?
    ensures Advance(env, s, id, output, fuel).value.status in {s.status, Completed}
    ensures s.status != Running ==> Advance(env, s, id, output, fuel).value == s
  {
    if s.status == Running && Lookup(env, id).Some? {
      var s1 := Depart(env, s, Lookup(env, id).value, output);
      PickedFound(env, s1.context, id);
      DrainStatus(env, s1, PickTargets(env, s1.context, id), fuel);
    }
  }

  lemma SendBackStatus(env: Env, s: State, target: string, fuel: nat)
    requires ValidTarget(env, target) && Drain(env, s, [Lookup(env, target).value], fuel).Some?
    ensures Drain(env, s, [Lookup(env, target).value], fuel).value.status in {s.status, Completed}
  {
    assert AllGood(FoundIn(env), [Lookup(env, target).value]);
    DrainStatus(env, s, [Lookup(env, target).value], fuel);
  }

  /** How one call can move the status. */
  ghost predicate StatusMove(a: Status, b: Status) {
    || a == b
    || (a == Running && b in {Paused, Completed, Cancelled})
    || (a == Paused && b in {Running, Cancelled})
    || (a == Failed && b in {Completed, Cancelled})
  }

  /** No sweep completes, cancels or pauses an instance. */
  lemma SweepStatus(env: Env, s: State, k: nat, delivered: bool)
    ensures var t := SweepTimer(env, s, k, delivered).state;
            t.status == s.status || (s.status == Paused && t.status == Running)
    ensures Sealed(s) && s.status == Cancelled ==> SweepTimer(env, s, k, delivered).state == s
  {}

  /** What one call on a sealed state may do to the status; a cancelled instance keeps its rows. */
  ghost predicate StatusKept(s: State, op: Op, t: State) {
    && StatusMove(s.status, t.status)
    && (t.status == Cancelled ==> s.status == Cancelled || op == DoCancel)
    && (s.status == Cancelled ==> t == s.(context := t.context, log := t.log))
  }

  lemma CompleteStatus(env: Env, s: State, i: nat, formData: Option<Context>, output: Option<Context>, fuel: nat)
    requires Sealed(s) && CompleteTask(env, s, i, formData, output, fuel).Some?
    ensures StatusKept(s, DoComplete(i, formData, output), CompleteTask(env, s, i, formData, output, fuel).value.state)
  {
    if i < |s.tasks| && IsOpen(s.tasks[i].status) && s.tasks[i].where.Graph? && s.status != Paused {
      AdvanceStatus(env, Finish(s, i), s.tasks[i].where.id, OutputOf(formData, output), fuel);
    }
  }

  lemma DecideStatus(env: Env, s: State, i: nat, d: ApprovalStatus, conditions: Option<string>, notes: Option<string>,
                     fuel: nat)
    requires Sealed(s) && Decide(env, s, i, d, conditions, notes, fuel).Some?
    ensures StatusKept(s, DoDecide(i, d, conditions, notes), Decide(env, s, i, d, conditions, notes, fuel).value.state)
  {
    if i < |s.approvals| && s.approvals[i].status == Pending && s.status != Paused && Settles(d) {
      var a := s.approvals[i];
      var s1 := Emit(s.(approvals := s.approvals[i := a.(status := d)]), ApprovalDecided(a.node, d));
      AdvanceStatus(env, s1, a.node, DecisionOutput(d, conditions, notes), fuel);
    }
  }

  lemma TaskBackStatus(env: Env, s: State, i: nat, target: string, fuel: nat)
    requires Sealed(s) && SendBackTask(env, s, i, target, fuel).Some?
    ensures StatusKept(s, DoSendBackTask(i, target), SendBackTask(env, s, i, target, fuel).value.state)
  {
    if i < |s.tasks| && IsOpen(s.tasks[i].status) && s.status != Paused && ValidTarget(env, target) {
      var t := s.tasks[i];
      SendBackStatus(env, Rewind(env, CloseTask(s, i, SentBack(target)), t.where.id, target,
                                 TaskSentBack(t.where, target)), target, fuel);
    }
  }

  lemma ApprovalBackStatus(env: Env, s: State, i: nat, target: string, fuel: nat)
    requires Sealed(s) && SendBackApproval(env, s, i, target, fuel).Some?
    ensures StatusKept(s, DoSendBackApproval(i, target), SendBackApproval(env, s, i, target, fuel).value.state)
  {
    if i < |s.approvals| && s.approvals[i].status == Pending && s.status != Paused && ValidTarget(env, target) {
      var a := s.approvals[i];
      var closed := s.(approvals := s.approvals[i := a.(status := NeedsMoreInformation, sentBackTo := Some(target))]);
      SendBackStatus(env, Rewind(env, closed, a.node, target, ApprovalSentBack(a.node, target)), target, fuel);
    }
  }

  lemma PlainStatus(env: Env, s: State, op: Op, fuel: nat)
    requires Sealed(s) && !MovesOn(op) && !op.DoSweepTimer? && Step(env, s, op, fuel).Some?
    ensures StatusKept(s, op, Step(env, s, op, fuel).value.state)
  {}

  /** Every call on every sealed state moves the status along StatusMove; only a cancel cancels, and a
      cancelled instance keeps all but its context and log. */
  lemma StepStatus(env: Env, s: State, op: Op, fuel: nat)
    requires Sealed(s) && Step(env, s, op, fuel).Some?
    ensures StatusKept(s, op, Step(env, s, op, fuel).value.state)
  {
    match op
    case DoComplete(i, formData, output) => CompleteStatus(env, s, i, formData, output, fuel);
    case DoDecide(i, d, conditions, notes) => DecideStatus(env, s, i, d, conditions, notes, fuel);
    case DoSendBackTask(i, target) => TaskBackStatus(env, s, i, target, fuel);
    case DoSendBackApproval(i, target) => ApprovalBackStatus(env, s, i, target, fuel);
    case DoSweepTimer(k, delivered) => SweepStatus(env, s, k, delivered);
    case _ => PlainStatus(env, s, op, fuel);
  }

  lemma StepSealed(env: Env, s: State, op: Op, fuel: nat)
    requires Sealed(s) && Step(env, s, op, fuel).Some?
    ensures Sealed(Step(env, s, op, fuel).value.state)
  {
    StepStatus(env, s, op, fuel);
  }

  // --- Ended instances, over whole runs ---

  ghost function AfterEnd(s: State): State -> bool {
    (t: State) =>
      && Sealed(t) && Grows(s, t)
      && (s.status == Completed ==> t.status == Completed)
      && (s.status == Cancelled ==> t == s.(context := t.context, log := t.log))
  }

  /** COMPLETED and CANCELLED are never left. After CANCELLED only the context and the log can
      still change, and the instance stays without open task, pending approval or armed timer. */
  lemma EndedForever(env: Env, s: State, ops: seq<Op>, fuel: nat)
    requires Sealed(s) && Replay(env, s, ops, fuel).Some?
    ensures var t := Replay(env, s, ops, fuel).value;
            && Sealed(t) && Grows(s, t)
            && (s.status == Completed ==> t.status == Completed)
            && (s.status == Cancelled ==> t == s.(context := t.context, log := t.log))
  {
    forall x: State, op: Op | AfterEnd(s)(x) && Step(env, x, op, fuel).Some?
      ensures AfterEnd(s)(Step(env, x, op, fuel).value.state)
    {
      StepStatus(env, x, op, fuel);
      StepSealed(env, x, op, fuel);
      StepGrows(env, x, op, fuel);
      GrowsTransitive(s, x, Step(env, x, op, fuel).value.state);
    }
    ReplayKeeps(env, s, ops, fuel, AfterEnd(s));
  }

  // --- Pause ---

  /** The planned part of the instance is as it was: active nodes, join counters, planned rows and
      their openness, approval verdicts. */
  ghost predicate Frozen(s: State, t: State) {
    && t.active == s.active && t.metadata == s.metadata
    && |t.approvals| == |s.approvals|
    && (forall i :: 0 <= i < |s.approvals| ==>
          t.approvals[i].node == s.approvals[i].node && t.approvals[i].status == s.approvals[i].status)
    && |s.tasks| <= |t.tasks|
    && (forall i :: 0 <= i < |s.tasks| ==>
          && t.tasks[i].where == s.tasks[i].where
          && (s.tasks[i].where.Graph? ==>
                (IsOpen(t.tasks[i].status) <==> IsOpen(s.tasks[i].status))
                && (!IsOpen(s.tasks[i].status) ==> t.tasks[i].status == s.tasks[i].status)))
    && (forall i :: |s.tasks| <= i < |t.tasks| ==> t.tasks[i].where.Side?)
  }

  /** The only calls that end a pause. */
  predicate Unpauses(s: State, op: Op) {
    match op
    case DoResume => true
    case DoCancel => true
    case DoComplete(i, _, _) => i < |s.tasks| && IsBlockingSide(s.tasks[i]) && IsOpen(s.tasks[i].status)
    case DoSweepTimer(k, _) =>
      && k < |s.timers| && Armed(s.timers[k]) && s.timers[k].action == AutoComplete
      && LatestOpen(s.tasks, s.timers[k].node).Some?
      && IsBlockingSide(s.tasks[LatestOpen(s.tasks, s.timers[k].node).value])
    case _ => false
  }

  /** Edits of one task row that keep its openness, or touch an ad-hoc row. */
  lemma FrozenEdit(s: State, t: State, i: nat)
    requires i < |s.tasks| && |t.tasks| == |s.tasks| && t.tasks == s.tasks[i := t.tasks[i]]
    requires t.tasks[i].where == s.tasks[i].where
    requires s.tasks[i].where.Side? || (IsOpen(s.tasks[i].status) && IsOpen(t.tasks[i].status))
    requires t.active == s.active && t.metadata == s.metadata && t.approvals == s.approvals
    ensures Frozen(s, t)
  {}

  lemma PausedFire(env: Env, s: State, k: nat, delivered: bool)
    requires s.status == Paused && k < |s.timers| && Armed(s.timers[k])
    ensures FireOne(env, s, k, delivered).state.status != Paused <==> Unpauses(s, DoSweepTimer(k, delivered))
    ensures Frozen(s, FireOne(env, s, k, delivered).state)
  {
    var open := LatestOpen(s.tasks, s.timers[k].node);
    var s1 := Emit(s, AttachedTimerFired(s.timers[k].node, k));
    var t := FireOne(env, s, k, delivered).state;
    if open.Some? && s.timers[k].action == AutoComplete {
      PausedTimer(env, s1, open.value);
    } else if open.Some? && t.tasks != s.tasks {
      FrozenEdit(s, t, open.value);
    }
  }

  lemma PausedTimer(env: Env, s: State, i: nat)
    requires s.status == Paused && i < |s.tasks| && IsOpen(s.tasks[i].status)
    ensures CompleteByTimer(env, s, i).state.status != Paused <==> IsBlockingSide(s.tasks[i])
    ensures Frozen(s, CompleteByTimer(env, s, i).state)
  {
    var t := CompleteByTimer(env, s, i).state;
    if t != s {
      FrozenEdit(s, t, i);
    }
  }

  lemma PausedSweep(env: Env, s: State, k: nat, delivered: bool)
    requires s.status == Paused
    ensures SweepTimer(env, s, k, delivered).state.status != Paused <==> Unpauses(s, DoSweepTimer(k, delivered))
    ensures Frozen(s, SweepTimer(env, s, k, delivered).state)
  {
    if k < |s.timers| && Armed(s.timers[k]) {
      PausedFire(env, s, k, delivered);
    }
  }

  lemma PausedComplete(env: Env, s: State, i: nat, formData: Option<Context>, output: Option<Context>, fuel: nat)
    requires s.status == Paused
    ensures var r := CompleteTask(env, s, i, formData, output, fuel);
            && r.Some? && (r.value.state.status != Paused <==> Unpauses(s, DoComplete(i, formData, output)))
            && Frozen(s, r.value.state)
  {}

  lemma PausedEdit(env: Env, s: State, op: Op, fuel: nat)
    requires s.status == Paused && (op.DoClaim? || op.DoReassignTask? || op.DoReassignApproval? || op.DoAdHoc?
                                    || op.DoComplete? || op.DoSweepOverdue?)
    ensures Step(env, s, op, fuel).Some?
    ensures Step(env, s, op, fuel).value.state.status != Paused <==> Unpauses(s, op)
    ensures Frozen(s, Step(env, s, op, fuel).value.state)
  {
    if op.DoComplete? {
      PausedComplete(env, s, op.task, op.formData, op.output, fuel);
    } else if op.DoReassignTask? {
      PausedReassign(s, op.task, op.assignee);
    } else if op.DoAdHoc? {
      PausedAdHoc(s, op.token, op.blocking, op.assignee);
    }
  }

  lemma PausedReassign(s: State, i: nat, assignee: string)
    requires s.status == Paused
    ensures Frozen(s, ReassignTask(s, i, assignee).state) && ReassignTask(s, i, assignee).state.status == Paused
  {
    var t := ReassignTask(s, i, assignee).state;
    if t != s {
      FrozenEdit(s, t, i);
    }
  }

  lemma PausedAdHoc(s: State, token: string, blocking: bool, assignee: string)
    requires s.status == Paused
    ensures Frozen(s, CreateAdHoc(s, token, blocking, assignee).state)
    ensures CreateAdHoc(s, token, blocking, assignee).state.status == Paused
  {}

  /** A paused instance leaves PAUSED exactly on the calls above, and no call but cancel touches
      its planned part: reassigning, ad-hoc tasks and sweeper ticks included. */
  lemma PausedStep(env: Env, s: State, op: Op, fuel: nat)
    requires s.status == Paused
    ensures Step(env, s, op, fuel).Some?
    ensures Step(env, s, op, fuel).value.state.status != Paused <==> Unpauses(s, op)
    ensures op != DoCancel ==> Frozen(s, Step(env, s, op, fuel).value.state)
  {
    if op.DoSweepTimer? {
      PausedSweep(env, s, op.timer, op.delivered);
    } else if op.DoClaim? || op.DoReassignTask? || op.DoReassignApproval? || op.DoAdHoc? || op.DoComplete?
              || op.DoSweepOverdue? {
      PausedEdit(env, s, op, fuel);
    }
  }

  ghost predicate StaysPaused(env: Env, s: State, ops: seq<Op>, fuel: nat) {
    forall k :: 0 <= k <= |ops| ==>
      Replay(env, s, ops[..k], fuel).Some? && Replay(env, s, ops[..k], fuel).value.status == Paused
  }

  /** Over any run segment that stays PAUSED the planned part never moves. */
  lemma {:induction false} PauseFreezes(env: Env, s: State, ops: seq<Op>, fuel: nat)
    requires StaysPaused(env, s, ops, fuel)
    ensures Replay(env, s, ops, fuel).Some? && Frozen(s, Replay(env, s, ops, fuel).value)
    decreases |ops|
  {
    assert ops[..|ops|] == ops;
    if ops != [] {
      var shorter := ops[..|ops| - 1];
      forall k | 0 <= k <= |shorter|
        ensures Replay(env, s, shorter[..k], fuel).Some? && Replay(env, s, shorter[..k], fuel).value.status == Paused
      {
        assert shorter[..k] == ops[..k];
      }
      PauseFreezes(env, s, shorter, fuel);
      var x := Replay(env, s, shorter, fuel).value;
      assert x.status == Paused by { assert shorter == ops[..|ops| - 1]; }
      PausedStep(env, x, ops[|ops| - 1], fuel);
      assert Replay(env, s, ops, fuel).value.status == Paused;
    }
  }
}
