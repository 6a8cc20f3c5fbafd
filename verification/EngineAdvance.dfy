/** Every piece of settled work moves the graph on exactly once. */
module EngineAdvance {
  // In a living instance the NODE_COMPLETED events of a node are its completed planned tasks plus its
  // settled approvals.

  import opened Prelude
  import opened JsonTree
  import opened WorkflowGraph
  import opened Worklist
  import opened Engine
  import opened EngineInduction
  import opened EngineBooks
  import opened EngineMarking

  /** Planned tasks completed and approvals settled at a node, by the log. */
  function Settlements(log: seq<Event>, id: string): nat {
    Seen(log, TaskCompleted(Graph(id)))
    + Seen(log, ApprovalDecided(id, Approved)) + Seen(log, ApprovalDecided(id, ApprovedWithConditions))
    + Seen(log, ApprovalDecided(id, Rejected))
  }

  function Departures(log: seq<Event>, id: string): nat {
    Seen(log, NodeCompleted(id))
  }

  /** Ended instances may settle work without moving on, never the other way round. */
  ghost predicate OnceAt(s: State, id: string) {
    && Departures(s.log, id) <= Settlements(s.log, id)
    && (Alive(s) ==> Departures(s.log, id) == Settlements(s.log, id))
  }

  ghost predicate Once(s: State) {
    forall id :: OnceAt(s, id)
  }

  predicate Settling(e: Event, id: string) {
    e == TaskCompleted(Graph(id)) || (e.ApprovalDecided? && e.node == id && Settles(e.decision))
  }

  predicate Neutral(e: Event) {
    !(e.NodeCompleted? || (e.TaskCompleted? && e.where.Graph?) || (e.ApprovalDecided? && Settles(e.decision)))
  }

  lemma NeutralLog(log: seq<Event>, more: seq<Event>, id: string)
    requires forall e :: e in more ==> Neutral(e)
    ensures Departures(log + more, id) == Departures(log, id) && Settlements(log + more, id) == Settlements(log, id)
  {
    forall e | !Neutral(e) ensures Seen(log + more, e) == Seen(log, e) {
      assert e !in more;
      assert multiset(more)[e] == 0;
    }
  }

  lemma NeutralOnce(a: State, b: State, more: seq<Event>)
    requires Once(a) && b.log == a.log + more && (Alive(b) ==> Alive(a))
    requires forall e :: e in more ==> Neutral(e)
    ensures Once(b)
  {
    forall id ensures OnceAt(b, id) {
      assert OnceAt(a, id);
      NeutralLog(a.log, more, id);
    }
  }

  lemma OneSettles(log: seq<Event>, e: Event, at: string, id: string)
    requires Settling(e, at)
    ensures Settlements(log + [e], id) == Settlements(log, id) + (if id == at then 1 else 0)
    ensures Departures(log + [e], id) == Departures(log, id)
  {
    forall q ensures Seen(log + [e], q) == Seen(log, q) + (if q == e then 1 else 0) { SeenOne(log, e, q); }
  }

  lemma OneDeparts(log: seq<Event>, at: string, id: string)
    ensures Departures(log + [NodeCompleted(at)], id) == Departures(log, id) + (if id == at then 1 else 0)
    ensures Settlements(log + [NodeCompleted(at)], id) == Settlements(log, id)
  {
    forall q ensures Seen(log + [NodeCompleted(at)], q) == Seen(log, q) + (if q == NodeCompleted(at) then 1 else 0) {
      SeenOne(log, NodeCompleted(at), q);
    }
  }

  /** One settlement and one departure of the same node. */
  lemma PairOnce(a: State, b: State, e: Event, at: string, more: seq<Event>)
    requires Once(a) && Settling(e, at) && (Alive(b) ==> Alive(a))
    requires b.log == a.log + [e] + [NodeCompleted(at)] + more
    requires forall q :: q in more ==> Neutral(q)
    ensures Once(b)
  {
    forall id ensures OnceAt(b, id) {
      assert OnceAt(a, id);
      OneSettles(a.log, e, at, id);
      OneDeparts(a.log + [e], at, id);
      NeutralLog(a.log + [e] + [NodeCompleted(at)], more, id);
    }
  }

  /** A settlement in an ended instance. */
  lemma LateOnce(a: State, b: State, e: Event, at: string)
    requires Once(a) && Settling(e, at) && !Alive(b) && b.log == a.log + [e]
    ensures Once(b)
  {
    forall id ensures OnceAt(b, id) {
      assert OnceAt(a, id);
      OneSettles(a.log, e, at, id);
    }
  }

  lemma {:induction false} NeutralAttachments(id: string, atts: seq<Attachment>, trigger: Trigger)
    ensures forall e :: e in AttachmentEvents(id, atts, trigger) ==> Neutral(e)
  {
    if atts != [] {
      NeutralAttachments(id, atts[1..], trigger);
    }
  }

  lemma EnterOnce(env: Env, s: State, n: Node)
    requires Once(s)
    ensures Once(Enter(env, s, n))
  {
    EnterLog(env, s, n);
    NeutralAttachments(n.id, n.attachments, OnActivate);
    var more := [NodeActivated(n.id, BaseOf(env, n))] + EnterTail(env, n);
    assert Enter(env, s, n).log == s.log + more;
    assert forall e :: e in EnterTail(env, n) ==> Neutral(e);
    NeutralOnce(s, Enter(env, s, n), more);
  }

  ghost function OnceIn(): State -> bool {
    (s: State) => Once(s)
  }

  lemma DrainOnce(env: Env, s: State, work: seq<Node>, fuel: nat)
    requires Once(s) && AllGood(FoundIn(env), work) && Drain(env, s, work, fuel).Some?
    ensures Once(Drain(env, s, work, fuel).value)
  {
    forall x: State, n: Node | OnceIn()(x) && Found(env, n) ensures OnceIn()(Enter(env, x, n)) {
      EnterOnce(env, x, n);
    }
    DrainKeeps(env, s, work, fuel, OnceIn());
  }

  /** Work is settled at `at` by `e`, then its node is left. */
  lemma DepartOnce(env: Env, s: State, closed: State, e: Event, n: Node, output: Context)
    requires Once(s) && Settling(e, n.id) && s.status != Paused
    requires closed.log == s.log + [e] && closed.status == s.status
    ensures Once(Depart(env, closed, n, output))
  {
    var more := AttachmentEvents(n.id, n.attachments, OnComplete);
    var s1 := Depart(env, closed, n, output);
    NeutralAttachments(n.id, n.attachments, OnComplete);
    LogInThree(closed.log, [NodeCompleted(n.id)], more);
    PairOnce(s, s1, e, n.id, more);
  }

  /** Work is settled at `at` by `e`, then the engine advances. */
  lemma AdvanceOnce(env: Env, s: State, closed: State, e: Event, at: string, output: Context, fuel: nat)
    requires Once(s) && Settling(e, at) && Lookup(env, at).Some? && s.status != Paused
    requires closed.log == s.log + [e] && closed.status == s.status && Advance(env, closed, at, output, fuel).Some?
    ensures Once(Advance(env, closed, at, output, fuel).value)
  {
    if s.status == Running {
      var n := Lookup(env, at).value;
      var s1 := Depart(env, closed, n, output);
      DepartOnce(env, s, closed, e, n, output);
      PickedFound(env, s1.context, at);
      DrainOnce(env, s1, PickTargets(env, s1.context, at), fuel);
    } else {
      LateOnce(s, closed, e, at);
    }
  }

  lemma CompleteOnce(env: Env, s: State, i: nat, formData: Option<Context>, output: Option<Context>, fuel: nat)
    requires Once(s) && RowsGrounded(env, s) && CompleteTask(env, s, i, formData, output, fuel).Some?
    ensures Once(CompleteTask(env, s, i, formData, output, fuel).value.state)
  {
    if i < |s.tasks| && IsOpen(s.tasks[i].status) && (IsBlockingSide(s.tasks[i]) || s.status != Paused) {
      var t := s.tasks[i];
      var s1 := Finish(s, i);
      if t.where.Graph? {
        AdvanceOnce(env, s, s1, TaskCompleted(t.where), t.where.id, OutputOf(formData, output), fuel);
      } else {
        NeutralOnce(s, s1, [TaskCompleted(t.where)]);
        NeutralOnce(s1, Resume(s1), if s1.status == Paused then [InstanceResumed] else []);
      }
    }
  }

  lemma DecideOnce(env: Env, s: State, i: nat, d: ApprovalStatus, conditions: Option<string>,
                   notes: Option<string>, fuel: nat)
    requires Once(s) && RowsGrounded(env, s) && Decide(env, s, i, d, conditions, notes, fuel).Some?
    ensures Once(Decide(env, s, i, d, conditions, notes, fuel).value.state)
  {
    if i < |s.approvals| && s.approvals[i].status == Pending && s.status != Paused {
      var a := s.approvals[i];
      var e := ApprovalDecided(a.node, d);
      var s1 := Emit(s.(approvals := s.approvals[i := a.(status := d)]), e);
      if Settles(d) {
        AdvanceOnce(env, s, s1, e, a.node, DecisionOutput(d, conditions, notes), fuel);
      } else {
        NeutralOnce(s, s1, [e]);
      }
    }
  }

  lemma RewindOnce(env: Env, s: State, source: string, target: string, e: Event, fuel: nat)
    requires Once(s) && Neutral(e) && ValidTarget(env, target)
    requires Drain(env, Rewind(env, s, source, target, e), [Lookup(env, target).value], fuel).Some?
    ensures Once(Drain(env, Rewind(env, s, source, target, e), [Lookup(env, target).value], fuel).value)
  {
    NeutralOnce(s, Rewind(env, s, source, target, e), [e]);
    assert AllGood(FoundIn(env), [Lookup(env, target).value]);
    DrainOnce(env, Rewind(env, s, source, target, e), [Lookup(env, target).value], fuel);
  }

  lemma TimerOnce(env: Env, s: State, i: nat)
    requires Once(s) && RowsGrounded(env, s) && i < |s.tasks| && IsOpen(s.tasks[i].status)
    ensures Once(CompleteByTimer(env, s, i).state)
  {
    var t := s.tasks[i];
    var s1 := Finish(s, i);
    var r := CompleteByTimer(env, s, i);
    if r.state != s {
      if t.where.Side? {
        NeutralOnce(s, s1, [TaskCompleted(t.where)]);
        NeutralOnce(s1, Resume(s1), if s1.status == Paused then [InstanceResumed] else []);
      } else if r.reply == Blocked {
        var n := Lookup(env, t.where.id).value;
        NeutralAttachments(n.id, n.attachments, OnComplete);
        PairOnce(s, r.state, TaskCompleted(t.where), n.id, AttachmentEvents(n.id, n.attachments, OnComplete));
      } else {
        LateOnce(s, s1, TaskCompleted(t.where), t.where.id);
      }
    }
  }

  lemma SweepOnce(env: Env, s: State, k: nat, delivered: bool)
    requires Once(s) && RowsGrounded(env, s)
    ensures Once(SweepTimer(env, s, k, delivered).state)
  {
    if k < |s.timers| && Armed(s.timers[k]) {
      var row := s.timers[k];
      var s1 := Emit(s, AttachedTimerFired(row.node, k));
      NeutralOnce(s, s1, [AttachedTimerFired(row.node, k)]);
      var open := LatestOpen(s.tasks, row.node);
      if row.action == AutoComplete && open.Some? {
        TimerOnce(env, s1, open.value);
      } else if row.action == Escalate && open.Some? && row.escalateTo.Some? {
        NeutralOnce(s1, ReassignTask(s1, open.value, row.escalateTo.value).state,
                    [TaskReassigned(s.tasks[open.value].where)]);
      }
      var r := FireOne(env, s, k, delivered);
      assert Once(r.state);
      NeutralOnce(r.state, SweepTimer(env, s, k, delivered).state, []);
    }
  }

  /** Calls that settle nothing and move nothing. */
  lemma OtherOnce(env: Env, s: State, op: Op, fuel: nat)
    requires Once(s) && Step(env, s, op, fuel).Some?
    requires !(op.DoComplete? || op.DoDecide? || op.DoSendBackTask? || op.DoSendBackApproval? || op.DoSweepTimer?)
    ensures Once(Step(env, s, op, fuel).value.state)
  {
    var t := Step(env, s, op, fuel).value.state;
    if op.DoSweepOverdue? && t != s && Lookup(env, s.tasks[op.task].where.id).Some? {
      var n := Lookup(env, s.tasks[op.task].where.id).value;
      var all := AttachmentEvents(n.id, n.attachments, OnOverdue);
      NeutralAttachments(n.id, n.attachments, OnOverdue);
      var more := if op.sent < |all| then all[..op.sent] else all;
      assert forall e :: e in more ==> e in all;
      NeutralOnce(s, t, more);
    } else {
      OtherLog(env, s, op, fuel);
      NeutralOnce(s, t, t.log[|s.log|..]);
    }
  }

  /** Log `t` is log `s` with neutral events at the end. */
  ghost predicate NeutralAfter(s: State, t: State) {
    && s.log <= t.log && t.log == s.log + t.log[|s.log|..]
    && (forall e :: e in t.log[|s.log|..] ==> Neutral(e))
    && (Alive(t) ==> Alive(s))
  }

  lemma AdHocLog(s: State, token: string, blocking: bool, assignee: string)
    ensures NeutralAfter(s, CreateAdHoc(s, token, blocking, assignee).state)
  {
    var t := CreateAdHoc(s, token, blocking, assignee).state;
    if t != s {
      var e := AdHocTaskCreated(Side("adhoc-" + token), blocking);
      assert t.log == s.log + [e] || t.log == s.log + [e] + [InstancePaused];
    }
  }

  lemma NeutralEvent(s: State, t: State, e: Event)
    requires (t.log == s.log || t.log == s.log + [e]) && Neutral(e) && (Alive(t) ==> Alive(s))
    ensures NeutralAfter(s, t)
  {}

  lemma SideLog(env: Env, s: State, op: Op, fuel: nat)
    requires op.DoReassignTask? || op.DoPause? || op.DoResume? || op.DoSweepOverdue?
    requires op.DoSweepOverdue? && Step(env, s, op, fuel).value.state != s ==>
               Lookup(env, s.tasks[op.task].where.id).None?
    ensures NeutralAfter(s, Step(env, s, op, fuel).value.state)
  {
    var t := Step(env, s, op, fuel).value.state;
    NeutralEvent(s, t, if op.DoPause? then InstancePaused else if op.DoReassignTask? && op.task < |s.tasks| then
                         TaskReassigned(s.tasks[op.task].where) else InstanceResumed);
  }

  lemma OtherLog(env: Env, s: State, op: Op, fuel: nat)
    requires Step(env, s, op, fuel).Some?
    requires !(op.DoComplete? || op.DoDecide? || op.DoSendBackTask? || op.DoSendBackApproval? || op.DoSweepTimer?)
    requires op.DoSweepOverdue? && Step(env, s, op, fuel).value.state != s ==>
               Lookup(env, s.tasks[op.task].where.id).None?
    ensures NeutralAfter(s, Step(env, s, op, fuel).value.state)
  {
    if op.DoAdHoc? {
      AdHocLog(s, op.token, op.blocking, op.assignee);
    } else {
      var t := Step(env, s, op, fuel).value.state;
      if PlainEdit(op) {
        PlainEditLog(env, s, op, fuel);
        NeutralEvent(s, t, EditEvent(s, op));
      } else {
        SideLog(env, s, op, fuel);
      }
    }
  }

  lemma SendBackTaskOnce(env: Env, s: State, i: nat, target: string, fuel: nat)
    requires Once(s) && SendBackTask(env, s, i, target, fuel).Some?
    ensures Once(SendBackTask(env, s, i, target, fuel).value.state)
  {
    if i < |s.tasks| && IsOpen(s.tasks[i].status) && s.status != Paused && ValidTarget(env, target) {
      var t := s.tasks[i];
      var s1 := CloseTask(s, i, SentBack(target));
      assert s1.log == s.log + [];
      NeutralOnce(s, s1, []);
      RewindOnce(env, s1, t.where.id, target, TaskSentBack(t.where, target), fuel);
    }
  }

  lemma SendBackApprovalOnce(env: Env, s: State, i: nat, target: string, fuel: nat)
    requires Once(s) && SendBackApproval(env, s, i, target, fuel).Some?
    ensures Once(SendBackApproval(env, s, i, target, fuel).value.state)
  {
    if i < |s.approvals| && s.approvals[i].status == Pending && s.status != Paused && ValidTarget(env, target) {
      var a := s.approvals[i];
      var s1 := s.(approvals := s.approvals[i := a.(status := NeedsMoreInformation, sentBackTo := Some(target))]);
      assert s1.log == s.log + [];
      NeutralOnce(s, s1, []);
      RewindOnce(env, s1, a.node, target, ApprovalSentBack(a.node, target), fuel);
    }
  }

  lemma MoveOnce(env: Env, s: State, op: Op, fuel: nat)
    requires Once(s) && RowsGrounded(env, s) && MovesOn(op) && Step(env, s, op, fuel).Some?
    ensures Once(Step(env, s, op, fuel).value.state)
  {
    match op {
      case DoComplete(i, formData, output) =>
        assert Step(env, s, op, fuel) == CompleteTask(env, s, i, formData, output, fuel);
        CompleteOnce(env, s, i, formData, output, fuel);
      case DoDecide(i, d, conditions, notes) =>
        assert Step(env, s, op, fuel) == Decide(env, s, i, d, conditions, notes, fuel);
        DecideOnce(env, s, i, d, conditions, notes, fuel);
      case DoSendBackTask(i, target) =>
        assert Step(env, s, op, fuel) == SendBackTask(env, s, i, target, fuel);
        SendBackTaskOnce(env, s, i, target, fuel);
      case DoSendBackApproval(i, target) =>
        assert Step(env, s, op, fuel) == SendBackApproval(env, s, i, target, fuel);
        SendBackApprovalOnce(env, s, i, target, fuel);
    }
  }

  lemma StepOnce(env: Env, s: State, op: Op, fuel: nat)
    requires Once(s) && RowsGrounded(env, s) && Step(env, s, op, fuel).Some?
    ensures Once(Step(env, s, op, fuel).value.state)
  {
    if MovesOn(op) {
      MoveOnce(env, s, op, fuel);
    } else if op.DoSweepTimer? {
      SweepOnce(env, s, op.timer, op.delivered);
    } else {
      OtherOnce(env, s, op, fuel);
    }
  }

  lemma {:induction false} ReplayOnce(env: Env, s: State, ops: seq<Op>, fuel: nat)
    requires Once(s) && Marking(env, s, {}) && Replay(env, s, ops, fuel).Some?
    ensures Once(Replay(env, s, ops, fuel).value)
    decreases |ops|
  {
    if ops != [] {
      var before := ops[..|ops| - 1];
      ReplayOnce(env, s, before, fuel);
      ReplayMarking(env, s, before, fuel);
      StepOnce(env, Replay(env, s, before, fuel).value, ops[|ops| - 1], fuel);
    }
  }

  /** In every state of every run, hanging sweeps included, settled work and NODE_COMPLETED
      events of a node agree while the instance lives. */
  lemma RunOnce(env: Env, ctx: Context, ops: seq<Op>, fuel: nat)
    requires Exec(env, ctx, ops, fuel).Some?
    ensures Once(Exec(env, ctx, ops, fuel).value)
  {
    var start := StartNode(env.version.nodes).value;
    assert AllGood(FoundIn(env), [start]);
    DrainMarking(env, Fresh(ctx), [start], fuel, {});
    assert Once(Fresh(ctx)) by {
      assert Fresh(ctx).log == [] + [InstanceStarted];
      forall id ensures OnceAt(Fresh(ctx), id) { NeutralLog([], [InstanceStarted], id); }
    }
    DrainOnce(env, Fresh(ctx), [start], fuel);
    ReplayOnce(env, Begin(env, ctx, fuel).value, ops, fuel);
  }
}
