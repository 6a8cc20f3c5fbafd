/** The event log is written and never read.
    Whatever the log held before, a call does the same to the instance, replies the same and appends the
    same events; so a run can be followed beside the same run with other events in front of its log, and
    what is proved of the one holds of the other. */
module EngineLog {
  import opened Prelude
  import opened JsonTree
  import opened WorkflowGraph
  import opened Worklist
  import opened Engine
  import opened EngineInduction

  /** The state with older events in front of its log. */
  function Behind(d: seq<Event>, s: State): State {
    s.(log := d + s.log)
  }

  function BehindDrain(d: seq<Event>, r: Option<State>): Option<State> {
    if r.None? then None else Some(Behind(d, r.value))
  }

  function BehindCall(d: seq<Event>, r: Option<Outcome>): Option<Outcome> {
    if r.None? then None else Some(Outcome(Behind(d, r.value.state), r.value.reply))
  }

  lemma LogsJoin(d: seq<Event>, log: seq<Event>, more: seq<Event>)
    ensures d + log + more == d + (log + more)
  {}

  lemma EmitBehind(d: seq<Event>, s: State, e: Event)
    ensures Emit(Behind(d, s), e) == Behind(d, Emit(s, e))
  {
    LogsJoin(d, s.log, [e]);
  }

  lemma MarkBehind(d: seq<Event>, s: State, id: string)
    ensures Mark(Behind(d, s), id) == Behind(d, Mark(s, id))
  {}

  /** A node's activation event and what its attachments do. */
  function Opened(env: Env, s: State, n: Node): State {
    FireAttachments(Emit(s, NodeActivated(n.id, BaseOf(env, n))), n, OnActivate)
  }

  lemma OpenedBehind(env: Env, d: seq<Event>, s: State, n: Node)
    ensures Opened(env, Behind(d, s), n) == Behind(d, Opened(env, s, n))
  {
    var e := NodeActivated(n.id, BaseOf(env, n));
    EmitBehind(d, s, e);
    LogsJoin(d, Emit(s, e).log, AttachmentEvents(n.id, n.attachments, OnActivate));
  }

  lemma EnterBehind(env: Env, d: seq<Event>, s: State, n: Node)
    ensures Enter(env, Behind(d, s), n) == Behind(d, Enter(env, s, n))
  {
    var s1 := Opened(env, s, n);
    OpenedBehind(env, d, s, n);
    match BaseOf(env, n) {
      case End => EmitBehind(d, s1.(status := Completed, active := Without(s1.active, n.id)), InstanceCompleted(n.id));
      case AgentTask =>
        EmitBehind(d, s1, AgentDelegated(n.id));
        MarkBehind(d, Emit(s1, AgentDelegated(n.id)), n.id);
      case Notification => EmitBehind(d, s1, NotificationSent(n.id));
      case HumanTask => TaskBehind(d, s1, n.id);
      case FormFill => TaskBehind(d, s1, n.id);
      case ApprovalGate => MarkBehind(d, s1.(approvals := s1.approvals + [Approval(n.id, Pending, None, "")]), n.id);
      case ToolRequest => MarkBehind(d, s1, n.id);
      case CallWorkflow => MarkBehind(d, s1, n.id);
      case Unrecognized => MarkBehind(d, s1, n.id);
      case TimerWait =>
        var written := SetPath(s1.metadata, "timers." + n.id, Obj(map["nodeId" := Str(n.id)]));
        MarkBehind(d, s1.(metadata := written), n.id);
      case ParallelJoin =>
      case Start =>
      case ParallelFork =>
      case DecisionGate =>
    }
  }

  lemma TaskBehind(d: seq<Event>, s: State, id: string)
    ensures var row := Task(Graph(id), Open, None, "", false, false);
            Mark(Behind(d, s).(tasks := s.tasks + [row]), id) == Behind(d, Mark(s.(tasks := s.tasks + [row]), id))
  {}

  function BehindIn(d: seq<Event>): State -> State {
    (s: State) => Behind(d, s)
  }

  lemma DrainBehind(env: Env, d: seq<Event>, s: State, work: seq<Node>, fuel: nat)
    ensures Drain(env, Behind(d, s), work, fuel) == BehindDrain(d, Drain(env, s, work, fuel))
  {
    var enter, next, f := EnterIn(env), NextIn(env), BehindIn(d);
    forall x: State, n: Node ensures enter(f(x), n) == f(enter(x, n)) && next(f(x), n) == next(x, n) {
      EnterBehind(env, d, x, n);
    }
    Commutes(enter, next, f, s, work, fuel);
  }

  lemma DepartBehind(env: Env, d: seq<Event>, s: State, n: Node, output: Context)
    ensures Depart(env, Behind(d, s), n, output) == Behind(d, Depart(env, s, n, output))
  {
    LogsJoin(d, s.log, DepartEvents(n));
  }

  lemma AdvanceBehind(env: Env, d: seq<Event>, s: State, id: string, output: Context, fuel: nat)
    ensures Advance(env, Behind(d, s), id, output, fuel) == BehindDrain(d, Advance(env, s, id, output, fuel))
  {
    if s.status == Running && Lookup(env, id).Some? {
      var n := Lookup(env, id).value;
      var s1 := Depart(env, s, n, output);
      DepartBehind(env, d, s, n, output);
      DrainBehind(env, d, s1, PickTargets(env, s1.context, id), fuel);
    }
  }

  lemma FinishBehind(d: seq<Event>, s: State, i: nat)
    requires i < |s.tasks|
    ensures Finish(Behind(d, s), i) == Behind(d, Finish(s, i))
  {
    EmitBehind(d, CloseTask(s, i, Finished), TaskCompleted(s.tasks[i].where));
  }

  lemma ResumeBehind(d: seq<Event>, s: State)
    ensures Resume(Behind(d, s)) == Behind(d, Resume(s)) && Pause(Behind(d, s)) == Behind(d, Pause(s))
  {
    EmitBehind(d, s.(status := Running), InstanceResumed);
    EmitBehind(d, s.(status := Paused), InstancePaused);
  }

  lemma CompleteBehind(env: Env, d: seq<Event>, s: State, i: nat, formData: Option<Context>, output: Option<Context>,
                       fuel: nat)
    ensures CompleteTask(env, Behind(d, s), i, formData, output, fuel)
            == BehindCall(d, CompleteTask(env, s, i, formData, output, fuel))
  {
    if i < |s.tasks| {
      FinishBehind(d, s, i);
      ResumeBehind(d, Finish(s, i));
      AdvanceBehind(env, d, Finish(s, i), s.tasks[i].where.id, OutputOf(formData, output), fuel);
    }
  }

  lemma DecideBehind(env: Env, d: seq<Event>, s: State, i: nat, v: ApprovalStatus, conditions: Option<string>,
                     notes: Option<string>, fuel: nat)
    ensures Decide(env, Behind(d, s), i, v, conditions, notes, fuel)
            == BehindCall(d, Decide(env, s, i, v, conditions, notes, fuel))
  {
    if i < |s.approvals| {
      var a := s.approvals[i];
      var s0 := s.(approvals := s.approvals[i := a.(status := v)]);
      EmitBehind(d, s0, ApprovalDecided(a.node, v));
      AdvanceBehind(env, d, Emit(s0, ApprovalDecided(a.node, v)), a.node, DecisionOutput(v, conditions, notes), fuel);
    }
  }

  lemma RewindBehind(env: Env, d: seq<Event>, s: State, source: string, target: string, e: Event)
    ensures Rewind(env, Behind(d, s), source, target, e) == Behind(d, Rewind(env, s, source, target, e))
  {
    LogsJoin(d, s.log, [e]);
  }

  lemma SendBackTaskBehind(env: Env, d: seq<Event>, s: State, i: nat, target: string, fuel: nat)
    ensures SendBackTask(env, Behind(d, s), i, target, fuel) == BehindCall(d, SendBackTask(env, s, i, target, fuel))
  {
    if i < |s.tasks| && ValidTarget(env, target) {
      var t := s.tasks[i];
      var closed := CloseTask(s, i, SentBack(target));
      RewindBehind(env, d, closed, t.where.id, target, TaskSentBack(t.where, target));
      DrainBehind(env, d, Rewind(env, closed, t.where.id, target, TaskSentBack(t.where, target)),
                  [Lookup(env, target).value], fuel);
    }
  }

  lemma SendBackApprovalBehind(env: Env, d: seq<Event>, s: State, i: nat, target: string, fuel: nat)
    ensures SendBackApproval(env, Behind(d, s), i, target, fuel)
            == BehindCall(d, SendBackApproval(env, s, i, target, fuel))
  {
    if i < |s.approvals| && ValidTarget(env, target) {
      var a := s.approvals[i];
      var closed := s.(approvals := s.approvals[i := a.(status := NeedsMoreInformation, sentBackTo := Some(target))]);
      RewindBehind(env, d, closed, a.node, target, ApprovalSentBack(a.node, target));
      DrainBehind(env, d, Rewind(env, closed, a.node, target, ApprovalSentBack(a.node, target)),
                  [Lookup(env, target).value], fuel);
    }
  }

  lemma MoveBehind(env: Env, d: seq<Event>, s: State, op: Op, fuel: nat)
    requires MovesOn(op)
    ensures Step(env, Behind(d, s), op, fuel) == BehindCall(d, Step(env, s, op, fuel))
  {
    match op {
      case DoComplete(i, formData, output) => CompleteBehind(env, d, s, i, formData, output, fuel);
      case DoDecide(i, v, conditions, notes) => DecideBehind(env, d, s, i, v, conditions, notes, fuel);
      case DoSendBackTask(i, target) => SendBackTaskBehind(env, d, s, i, target, fuel);
      case DoSendBackApproval(i, target) => SendBackApprovalBehind(env, d, s, i, target, fuel);
    }
  }

  lemma TimerBehind(env: Env, d: seq<Event>, s: State, i: nat)
    requires i < |s.tasks|
    ensures var r := CompleteByTimer(env, s, i);
            CompleteByTimer(env, Behind(d, s), i) == Outcome(Behind(d, r.state), r.reply)
  {
    var s1 := Finish(s, i);
    FinishBehind(d, s, i);
    ResumeBehind(d, s1);
    if Lookup(env, s.tasks[i].where.id).Some? {
      var n := Lookup(env, s.tasks[i].where.id).value;
      EmitBehind(d, s1, NodeCompleted(s.tasks[i].where.id));
      LogsJoin(d, Emit(s1, NodeCompleted(s.tasks[i].where.id)).log, AttachmentEvents(n.id, n.attachments, OnComplete));
    }
  }

  lemma ReassignBehind(d: seq<Event>, s: State, i: nat, assignee: string)
    ensures var r := ReassignTask(s, i, assignee);
            ReassignTask(Behind(d, s), i, assignee) == Outcome(Behind(d, r.state), r.reply)
  {
    if i < |s.tasks| {
      LogsJoin(d, s.log, [TaskReassigned(s.tasks[i].where)]);
    }
  }

  lemma SweepBehind(env: Env, d: seq<Event>, s: State, k: nat, delivered: bool)
    ensures var r := SweepTimer(env, s, k, delivered);
            SweepTimer(env, Behind(d, s), k, delivered) == Outcome(Behind(d, r.state), r.reply)
  {
    if k < |s.timers| {
      FireBehind(env, d, s, k, delivered);
    }
  }

  lemma FireBehind(env: Env, d: seq<Event>, s: State, k: nat, delivered: bool)
    requires k < |s.timers|
    ensures var r := FireOne(env, s, k, delivered);
            FireOne(env, Behind(d, s), k, delivered) == Outcome(Behind(d, r.state), r.reply)
  {
    var row := s.timers[k];
    var s1 := Emit(s, AttachedTimerFired(row.node, k));
    EmitBehind(d, s, AttachedTimerFired(row.node, k));
    var open := LatestOpen(s.tasks, row.node);
    if open.Some? {
      TimerBehind(env, d, s1, open.value);
      if row.escalateTo.Some? {
        ReassignBehind(d, s1, open.value, row.escalateTo.value);
      }
    }
  }

  lemma OverdueBehind(env: Env, d: seq<Event>, s: State, i: nat, sent: nat)
    ensures var r := SweepOverdue(env, s, i, sent);
            SweepOverdue(env, Behind(d, s), i, sent) == Outcome(Behind(d, r.state), r.reply)
  {
    if i < |s.tasks| && Lookup(env, s.tasks[i].where.id).Some? {
      var n := Lookup(env, s.tasks[i].where.id).value;
      var all := AttachmentEvents(n.id, n.attachments, OnOverdue);
      LogsJoin(d, s.log, if sent < |all| then all[..sent] else all);
    }
  }

  lemma AdHocBehind(d: seq<Event>, s: State, token: string, blocking: bool, assignee: string)
    ensures var r := CreateAdHoc(s, token, blocking, assignee);
            CreateAdHoc(Behind(d, s), token, blocking, assignee) == Outcome(Behind(d, r.state), r.reply)
  {
    var w := Side("adhoc-" + token);
    var s0 := s.(tasks := s.tasks + [Task(w, Open, None, assignee, blocking, false)]);
    EmitBehind(d, s0, AdHocTaskCreated(w, blocking));
    ResumeBehind(d, Emit(s0, AdHocTaskCreated(w, blocking)));
  }

  lemma RowBehind(env: Env, d: seq<Event>, s: State, op: Op, fuel: nat)
    requires op.DoClaim? || op.DoReassignApproval? || op.DoCancel?
    ensures Step(env, Behind(d, s), op, fuel) == BehindCall(d, Step(env, s, op, fuel))
  {
    match op {
      case DoClaim(i, who) =>
        if i < |s.tasks| { LogsJoin(d, s.log, [TaskClaimed(s.tasks[i].where)]); }
      case DoReassignApproval(i, assignee) =>
        if i < |s.approvals| { LogsJoin(d, s.log, [ApprovalReassigned(s.approvals[i].node)]); }
      case DoCancel => LogsJoin(d, s.log, [InstanceCancelled]);
    }
  }

  lemma EditBehind(env: Env, d: seq<Event>, s: State, op: Op, fuel: nat)
    requires op.DoUpdateContext? || op.DoRemoveKeys? || op.DoAttach? || op.DoDetach? || op.DoNote?
    ensures Step(env, Behind(d, s), op, fuel) == BehindCall(d, Step(env, s, op, fuel))
  {
    LogsJoin(d, s.log, [ContextUpdated]);
    LogsJoin(d, s.log, [DocumentAttached]);
    LogsJoin(d, s.log, [DocumentRemoved]);
    LogsJoin(d, s.log, [NoteAdded]);
  }

  /** Every call, on every state. */
  lemma StepBehind(env: Env, d: seq<Event>, s: State, op: Op, fuel: nat)
    ensures Step(env, Behind(d, s), op, fuel) == BehindCall(d, Step(env, s, op, fuel))
  {
    if MovesOn(op) {
      MoveBehind(env, d, s, op, fuel);
    } else {
      match op {
        case DoReassignTask(i, assignee) => ReassignBehind(d, s, i, assignee);
        case DoAdHoc(token, blocking, assignee) => AdHocBehind(d, s, token, blocking, assignee);
        case DoPause => ResumeBehind(d, s);
        case DoResume => ResumeBehind(d, s);
        case DoSweepTimer(k, delivered) => SweepBehind(env, d, s, k, delivered);
        case DoSweepOverdue(i, sent) => OverdueBehind(env, d, s, i, sent);
        case DoClaim(_, _) => RowBehind(env, d, s, op, fuel);
        case DoReassignApproval(_, _) => RowBehind(env, d, s, op, fuel);
        case DoCancel => RowBehind(env, d, s, op, fuel);
        case _ => EditBehind(env, d, s, op, fuel);
      }
    }
  }
}
