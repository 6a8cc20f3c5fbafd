/** Where live marking can break at all: only at nodes whose version arms an auto-completion. */
module EngineAlarms {
  // A version without an enabled AUTO_COMPLETE alarm keeps every run live.

  import opened Prelude
  import opened JsonTree
  import opened WorkflowGraph
  import opened Worklist
  import opened Engine
  import opened EngineInduction
  import opened EngineGrowth
  import opened EngineMarking

  predicate AutoAlarm(att: Attachment) {
    att.Alarm? && att.enabled && att.minutes != 0 && att.action == AutoComplete
  }

  predicate Alarmed(n: Node) {
    exists i :: 0 <= i < |n.attachments| && AutoAlarm(n.attachments[i])
  }

  /** A node with the id carries an alarm that will auto-complete it. */
  ghost predicate AlarmedAt(env: Env, id: string) {
    exists n :: n in env.version.nodes && n.id == id && Alarmed(n)
  }

  /** Auto-completing timer rows come from such alarms. */
  ghost predicate Known(env: Env, ts: seq<Timer>) {
    forall i :: 0 <= i < |ts| && ts[i].action == AutoComplete ==> AlarmedAt(env, ts[i].node)
  }

  /** Timer rows are fired and cancelled, but not added, moved or given another action. */
  predicate SameTimers(a: seq<Timer>, b: seq<Timer>) {
    |a| == |b| && forall i :: 0 <= i < |a| ==> b[i].node == a[i].node && b[i].action == a[i].action
  }

  lemma {:induction false} AlarmsKnown(env: Env, n: Node, k: nat)
    requires n in env.version.nodes && k <= |n.attachments|
    ensures Known(env, AttachmentTimers(n.id, n.attachments[k..], OnActivate))
    decreases |n.attachments| - k
  {
    if k < |n.attachments| {
      assert n.attachments[k..][1..] == n.attachments[k + 1..];
      AlarmsKnown(env, n, k + 1);
      var first := AttachmentTimer(n.id, n.attachments[k], OnActivate);
      assert forall i :: 0 <= i < |first| && first[i].action == AutoComplete ==> Alarmed(n);
    }
  }

  lemma {:induction false} OnlyOnActivation(id: string, atts: seq<Attachment>, trigger: Trigger)
    requires trigger != OnActivate
    ensures AttachmentTimers(id, atts, trigger) == []
  {
    if atts != [] {
      OnlyOnActivation(id, atts[1..], trigger);
    }
  }

  lemma EnterKnown(env: Env, s: State, n: Node)
    requires Known(env, s.timers) && Found(env, n)
    ensures Known(env, Enter(env, s, n).timers)
  {
    EnterTables(env, s, n);
    AlarmsKnown(env, n, 0);
    assert n.attachments[0..] == n.attachments;
  }

  ghost function KnownIn(env: Env): State -> bool {
    (s: State) => Known(env, s.timers)
  }

  lemma DrainKnown(env: Env, s: State, work: seq<Node>, fuel: nat)
    requires Known(env, s.timers) && AllGood(FoundIn(env), work) && Drain(env, s, work, fuel).Some?
    ensures Known(env, Drain(env, s, work, fuel).value.timers)
  {
    forall x: State, n: Node | KnownIn(env)(x) && Found(env, n) ensures KnownIn(env)(Enter(env, x, n)) {
      EnterKnown(env, x, n);
    }
    DrainKeeps(env, s, work, fuel, KnownIn(env));
  }

  lemma SameKnown(env: Env, a: State, b: State)
    requires Known(env, a.timers) && SameTimers(a.timers, b.timers)
    ensures Known(env, b.timers)
  {}

  lemma DepartSame(env: Env, s: State, n: Node, output: Context)
    ensures SameTimers(s.timers, Depart(env, s, n, output).timers)
  {
    OnlyOnActivation(n.id, n.attachments, OnComplete);
    var none: seq<Timer> := [];
    assert s.timers + none == s.timers;
  }

  lemma AdvanceKnown(env: Env, s: State, id: string, output: Context, fuel: nat)
    requires Known(env, s.timers) && Advance(env, s, id, output, fuel).Some?
    ensures Known(env, Advance(env, s, id, output, fuel).value.timers)
  {
    if s.status == Running && Lookup(env, id).Some? {
      var s1 := Depart(env, s, Lookup(env, id).value, output);
      DepartSame(env, s, Lookup(env, id).value, output);
      SameKnown(env, s, s1);
      PickedFound(env, s1.context, id);
      DrainKnown(env, s1, PickTargets(env, s1.context, id), fuel);
    }
  }

  lemma RewindKnown(env: Env, s: State, source: string, target: string, e: Event, fuel: nat)
    requires Known(env, s.timers) && ValidTarget(env, target)
    requires Drain(env, Rewind(env, s, source, target, e), [Lookup(env, target).value], fuel).Some?
    ensures Known(env, Drain(env, Rewind(env, s, source, target, e), [Lookup(env, target).value], fuel).value.timers)
  {
    var s1 := Rewind(env, s, source, target, e);
    SameKnown(env, s, s1);
    assert AllGood(FoundIn(env), [Lookup(env, target).value]);
    DrainKnown(env, s1, [Lookup(env, target).value], fuel);
  }

  lemma CompleteKnown(env: Env, s: State, i: nat, formData: Option<Context>, output: Option<Context>, fuel: nat)
    requires Known(env, s.timers) && CompleteTask(env, s, i, formData, output, fuel).Some?
    ensures Known(env, CompleteTask(env, s, i, formData, output, fuel).value.state.timers)
  {
    if i < |s.tasks| && IsOpen(s.tasks[i].status) && s.tasks[i].where.Graph? {
      AdvanceKnown(env, Finish(s, i), s.tasks[i].where.id, OutputOf(formData, output), fuel);
    }
  }

  lemma DecideKnown(env: Env, s: State, i: nat, d: ApprovalStatus, conditions: Option<string>,
                    notes: Option<string>, fuel: nat)
    requires Known(env, s.timers) && Decide(env, s, i, d, conditions, notes, fuel).Some?
    ensures Known(env, Decide(env, s, i, d, conditions, notes, fuel).value.state.timers)
  {
    if i < |s.approvals| && s.approvals[i].status == Pending && s.status != Paused && Settles(d) {
      var a := s.approvals[i];
      var s1 := Emit(s.(approvals := s.approvals[i := a.(status := d)]), ApprovalDecided(a.node, d));
      AdvanceKnown(env, s1, a.node, DecisionOutput(d, conditions, notes), fuel);
    }
  }

  lemma TaskBackKnown(env: Env, s: State, i: nat, target: string, fuel: nat)
    requires Known(env, s.timers) && SendBackTask(env, s, i, target, fuel).Some?
    ensures Known(env, SendBackTask(env, s, i, target, fuel).value.state.timers)
  {
    if i < |s.tasks| && IsOpen(s.tasks[i].status) && s.status != Paused && ValidTarget(env, target) {
      var t := s.tasks[i];
      RewindKnown(env, CloseTask(s, i, SentBack(target)), t.where.id, target, TaskSentBack(t.where, target), fuel);
    }
  }

  lemma ApprovalBackKnown(env: Env, s: State, i: nat, target: string, fuel: nat)
    requires Known(env, s.timers) && SendBackApproval(env, s, i, target, fuel).Some?
    ensures Known(env, SendBackApproval(env, s, i, target, fuel).value.state.timers)
  {
    if i < |s.approvals| && s.approvals[i].status == Pending && s.status != Paused && ValidTarget(env, target) {
      var a := s.approvals[i];
      var closed := s.(approvals := s.approvals[i := a.(status := NeedsMoreInformation, sentBackTo := Some(target))]);
      RewindKnown(env, closed, a.node, target, ApprovalSentBack(a.node, target), fuel);
    }
  }

  lemma MoveKnown(env: Env, s: State, op: Op, fuel: nat)
    requires Known(env, s.timers) && MovesOn(op) && Step(env, s, op, fuel).Some?
    ensures Known(env, Step(env, s, op, fuel).value.state.timers)
  {
    match op {
      case DoComplete(i, formData, output) =>
        assert Step(env, s, op, fuel) == CompleteTask(env, s, i, formData, output, fuel);
        CompleteKnown(env, s, i, formData, output, fuel);
      case DoDecide(i, d, conditions, notes) =>
        assert Step(env, s, op, fuel) == Decide(env, s, i, d, conditions, notes, fuel);
        DecideKnown(env, s, i, d, conditions, notes, fuel);
      case DoSendBackTask(i, target) =>
        assert Step(env, s, op, fuel) == SendBackTask(env, s, i, target, fuel);
        TaskBackKnown(env, s, i, target, fuel);
      case DoSendBackApproval(i, target) =>
        assert Step(env, s, op, fuel) == SendBackApproval(env, s, i, target, fuel);
        ApprovalBackKnown(env, s, i, target, fuel);
    }
  }

  lemma TimerSame(env: Env, s: State, i: nat)
    requires i < |s.tasks|
    ensures SameTimers(s.timers, CompleteByTimer(env, s, i).state.timers)
  {
    if Lookup(env, s.tasks[i].where.id).Some? {
      var n := Lookup(env, s.tasks[i].where.id).value;
      OnlyOnActivation(n.id, n.attachments, OnComplete);
      var none: seq<Timer> := [];
      assert s.timers + none == s.timers;
    }
  }

  lemma SweepSame(env: Env, s: State, k: nat, delivered: bool)
    ensures SameTimers(s.timers, SweepTimer(env, s, k, delivered).state.timers)
  {
    if k < |s.timers| && Armed(s.timers[k]) {
      var s1 := Emit(s, AttachedTimerFired(s.timers[k].node, k));
      var open := LatestOpen(s.tasks, s.timers[k].node);
      if open.Some? {
        TimerSame(env, s1, open.value);
      }
      assert SameTimers(s.timers, FireOne(env, s, k, delivered).state.timers);
    }
  }

  lemma StaySame(env: Env, s: State, op: Op, fuel: nat)
    requires !MovesOn(op) && !op.DoSweepTimer? && Step(env, s, op, fuel).Some?
    ensures SameTimers(s.timers, Step(env, s, op, fuel).value.state.timers)
  {}

  lemma StepKnown(env: Env, s: State, op: Op, fuel: nat)
    requires Known(env, s.timers) && Step(env, s, op, fuel).Some?
    ensures Known(env, Step(env, s, op, fuel).value.state.timers)
  {
    if MovesOn(op) {
      MoveKnown(env, s, op, fuel);
    } else {
      if op.DoSweepTimer? {
        SweepSame(env, s, op.timer, op.delivered);
      } else {
        StaySame(env, s, op, fuel);
      }
      SameKnown(env, s, Step(env, s, op, fuel).value.state);
    }
  }

  lemma {:induction false} ReplayStrands(env: Env, s: State, ops: seq<Op>, fuel: nat)
    requires Known(env, s.timers) && Replay(env, s, ops, fuel).Some?
    ensures Known(env, Replay(env, s, ops, fuel).value.timers)
    ensures forall id :: id in Stranded(env, s, ops, fuel) ==> AlarmedAt(env, id)
    decreases |ops|
  {
    if ops != [] {
      var before := ops[..|ops| - 1];
      ReplayStrands(env, s, before, fuel);
      StepKnown(env, Replay(env, s, before, fuel).value, ops[|ops| - 1], fuel);
    }
  }

  /** In every run, only nodes with an enabled AUTO_COMPLETE alarm are ever stranded. */
  lemma RunStrandsAlarmed(env: Env, ctx: Context, ops: seq<Op>, fuel: nat)
    requires Exec(env, ctx, ops, fuel).Some?
    ensures forall id :: id in Stranded(env, Begin(env, ctx, fuel).value, ops, fuel) ==> AlarmedAt(env, id)
  {
    var start := StartNode(env.version.nodes).value;
    assert AllGood(FoundIn(env), [start]);
    DrainKnown(env, Fresh(ctx), [start], fuel);
    ReplayStrands(env, Begin(env, ctx, fuel).value, ops, fuel);
  }

  /** A version without such alarms: in every state of every run, every active node has its work. */
  lemma UnalarmedRunsAreLive(env: Env, ctx: Context, ops: seq<Op>, fuel: nat)
    requires Exec(env, ctx, ops, fuel).Some?
    requires forall n :: n in env.version.nodes ==> !Alarmed(n)
    ensures Marking(env, Exec(env, ctx, ops, fuel).value, {})
  {
    RunMarking(env, ctx, ops, fuel);
    RunStrandsAlarmed(env, ctx, ops, fuel);
    assert Stranded(env, Begin(env, ctx, fuel).value, ops, fuel) == {};
  }
}
