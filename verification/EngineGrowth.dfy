/** Tables and log only grow.
    Every call, the send-backs, sweeps and the cancel included, adds rows and events or closes rows;
    it removes nothing and reopens nothing:
    - a closed task, a decided approval, a fired or cancelled timer stays exactly as it is;
    - a row keeps its place, so its id keeps its meaning;
    - the log of an earlier state is a prefix of the log of a later one. */
module EngineGrowth {
  import opened Prelude
  import opened JsonTree
  import opened WorkflowGraph
  import opened Worklist
  import opened Engine
  import opened EngineInduction

  /** A closed row is closed for good, and what a row is about never changes. */
  ghost predicate TaskGrows(a: Task, b: Task) {
    && a.where == b.where && a.blocking == b.blocking && (a.overdueNotified ==> b.overdueNotified)
    && (!IsOpen(a.status) ==> a == b)
  }

  ghost predicate ApprovalGrows(a: Approval, b: Approval) {
    a.node == b.node && (a.status != Pending ==> a == b)
  }

  ghost predicate TimerGrows(a: Timer, b: Timer) {
    b == a.(fired := b.fired, cancelled := b.cancelled) && (!Armed(a) ==> a == b)
  }

  ghost predicate TasksGrow(a: seq<Task>, b: seq<Task>) {
    |a| <= |b| && forall i :: 0 <= i < |a| ==> TaskGrows(a[i], b[i])
  }

  ghost predicate ApprovalsGrow(a: seq<Approval>, b: seq<Approval>) {
    |a| <= |b| && forall i :: 0 <= i < |a| ==> ApprovalGrows(a[i], b[i])
  }

  ghost predicate TimersGrow(a: seq<Timer>, b: seq<Timer>) {
    |a| <= |b| && forall i :: 0 <= i < |a| ==> TimerGrows(a[i], b[i])
  }

  ghost predicate Grows(s: State, t: State) {
    TasksGrow(s.tasks, t.tasks) && ApprovalsGrow(s.approvals, t.approvals) && TimersGrow(s.timers, t.timers)
    && s.log <= t.log
  }

  lemma GrowsTransitive(a: State, b: State, c: State)
    requires Grows(a, b) && Grows(b, c)
    ensures Grows(a, c)
  {
    forall i | 0 <= i < |a.tasks| ensures TaskGrows(a.tasks[i], c.tasks[i]) {
      assert TaskGrows(a.tasks[i], b.tasks[i]) && TaskGrows(b.tasks[i], c.tasks[i]);
    }
    forall i | 0 <= i < |a.approvals| ensures ApprovalGrows(a.approvals[i], c.approvals[i]) {
      assert ApprovalGrows(a.approvals[i], b.approvals[i]) && ApprovalGrows(b.approvals[i], c.approvals[i]);
    }
    forall i | 0 <= i < |a.timers| ensures TimerGrows(a.timers[i], c.timers[i]) {
      assert TimerGrows(a.timers[i], b.timers[i]) && TimerGrows(b.timers[i], c.timers[i]);
    }
  }

  lemma TasksMore(ts: seq<Task>, more: seq<Task>)
    ensures TasksGrow(ts, ts) && TasksGrow(ts, ts + more)
  {}

  lemma TasksSet(ts: seq<Task>, i: nat, t: Task)
    requires i < |ts| && TaskGrows(ts[i], t)
    ensures TasksGrow(ts, ts[i := t])
  {}

  lemma ApprovalsMore(aps: seq<Approval>, more: seq<Approval>)
    ensures ApprovalsGrow(aps, aps) && ApprovalsGrow(aps, aps + more)
  {}

  lemma ApprovalsSet(aps: seq<Approval>, i: nat, a: Approval)
    requires i < |aps| && ApprovalGrows(aps[i], a)
    ensures ApprovalsGrow(aps, aps[i := a])
  {}

  lemma TimersMore(ts: seq<Timer>, more: seq<Timer>)
    ensures TimersGrow(ts, ts) && TimersGrow(ts, ts + more)
  {}

  lemma TimersSet(ts: seq<Timer>, i: nat, t: Timer)
    requires i < |ts| && TimerGrows(ts[i], t)
    ensures TimersGrow(ts, ts[i := t])
  {}

  /** Same rows, longer log. */
  lemma LogMore(s: State, t: State, more: seq<Event>)
    requires t.tasks == s.tasks && t.approvals == s.approvals && t.timers == s.timers && t.log == s.log + more
    ensures Grows(s, t)
  {
    TasksMore(s.tasks, []);
    ApprovalsMore(s.approvals, []);
    TimersMore(s.timers, []);
  }

  ghost function GrownFrom(s: State): State -> bool {
    (t: State) => Grows(s, t)
  }

  /** The task rows and approval rows made on entering a node. */
  function EnterTasks(env: Env, n: Node): seq<Task> {
    if BaseOf(env, n) in {HumanTask, FormFill} then [Task(Graph(n.id), Open, None, "", false, false)] else []
  }

  function EnterApprovals(env: Env, n: Node): seq<Approval> {
    if BaseOf(env, n) == ApprovalGate then [Approval(n.id, Pending, None, "")] else []
  }

  lemma EnterTables(env: Env, s: State, n: Node)
    ensures Enter(env, s, n).tasks == s.tasks + EnterTasks(env, n)
    ensures Enter(env, s, n).approvals == s.approvals + EnterApprovals(env, n)
    ensures Enter(env, s, n).timers == s.timers + AttachmentTimers(n.id, n.attachments, OnActivate)
  {
    var noTask: seq<Task>, noApproval: seq<Approval> := [], [];
    assert s.tasks + noTask == s.tasks && s.approvals + noApproval == s.approvals;
  }

  lemma EnterGrows(env: Env, s: State, n: Node)
    ensures Grows(s, Enter(env, s, n))
  {
    EnterLog(env, s, n);
    EnterTables(env, s, n);
    TasksMore(s.tasks, EnterTasks(env, n));
    ApprovalsMore(s.approvals, EnterApprovals(env, n));
    TimersMore(s.timers, AttachmentTimers(n.id, n.attachments, OnActivate));
  }

  lemma DrainGrows(env: Env, s: State, work: seq<Node>, fuel: nat)
    requires AllGood(FoundIn(env), work) && Drain(env, s, work, fuel).Some?
    ensures Grows(s, Drain(env, s, work, fuel).value)
  {
    forall x: State, n: Node | GrownFrom(s)(x) && Found(env, n) ensures GrownFrom(s)(Enter(env, x, n)) {
      EnterGrows(env, x, n);
      GrowsTransitive(s, x, Enter(env, x, n));
    }
    DrainKeeps(env, s, work, fuel, GrownFrom(s));
  }

  lemma DepartGrows(env: Env, s: State, n: Node, output: Context)
    ensures Grows(s, Depart(env, s, n, output))
  {
    var s1 := Depart(env, s, n, output);
    TasksMore(s.tasks, []);
    ApprovalsMore(s.approvals, []);
    var more := s.timers + AttachmentTimers(n.id, n.attachments, OnComplete);
    assert s1.timers == CancelledAt(more, n.id);
    forall i | 0 <= i < |s.timers| ensures TimerGrows(s.timers[i], s1.timers[i]) {
      assert more[i] == s.timers[i];
    }
  }

  lemma AdvanceGrows(env: Env, s: State, id: string, output: Context, fuel: nat)
    requires Advance(env, s, id, output, fuel).Some?
    ensures Grows(s, Advance(env, s, id, output, fuel).value)
  {
    if s.status == Running && Lookup(env, id).Some? {
      var n := Lookup(env, id).value;
      var s1 := Depart(env, s, n, output);
      DepartGrows(env, s, n, output);
      PickedFound(env, s1.context, id);
      DrainGrows(env, s1, PickTargets(env, s1.context, id), fuel);
      GrowsTransitive(s, s1, Advance(env, s, id, output, fuel).value);
    } else {
      LogMore(s, s, []);
    }
  }

  lemma RewindGrows(env: Env, s: State, source: string, target: string, e: Event, fuel: nat)
    requires ValidTarget(env, target)
    requires Drain(env, Rewind(env, s, source, target, e), [Lookup(env, target).value], fuel).Some?
    ensures Grows(s, Drain(env, Rewind(env, s, source, target, e), [Lookup(env, target).value], fuel).value)
  {
    var s1 := Rewind(env, s, source, target, e);
    TasksMore(s.tasks, []);
    ApprovalsMore(s.approvals, []);
    assert TimersGrow(s.timers, CancelledAt(s.timers, source));
    assert s1.log == s.log + [e];
    assert AllGood(FoundIn(env), [Lookup(env, target).value]);
    DrainGrows(env, s1, [Lookup(env, target).value], fuel);
    GrowsTransitive(s, s1, Drain(env, s1, [Lookup(env, target).value], fuel).value);
  }

  lemma EmitGrows(s: State, e: Event)
    ensures Grows(s, Emit(s, e))
  {
    LogMore(s, Emit(s, e), [e]);
  }

  lemma SetTaskGrows(s: State, i: nat, t: Task, more: seq<Event>)
    requires i < |s.tasks| && TaskGrows(s.tasks[i], t)
    ensures Grows(s, s.(tasks := s.tasks[i := t], log := s.log + more))
  {
    TasksSet(s.tasks, i, t);
    ApprovalsMore(s.approvals, []);
    TimersMore(s.timers, []);
  }

  lemma SetApprovalGrows(s: State, i: nat, a: Approval, more: seq<Event>)
    requires i < |s.approvals| && ApprovalGrows(s.approvals[i], a)
    ensures Grows(s, s.(approvals := s.approvals[i := a], log := s.log + more))
  {
    TasksMore(s.tasks, []);
    ApprovalsSet(s.approvals, i, a);
    TimersMore(s.timers, []);
  }

  lemma StampGrows(s: State, k: nat)
    requires k < |s.timers| && Armed(s.timers[k])
    ensures Grows(s, Stamp(s, k))
  {
    TasksMore(s.tasks, []);
    ApprovalsMore(s.approvals, []);
    TimersSet(s.timers, k, s.timers[k].(fired := true));
  }

  lemma ResumeGrows(s: State)
    ensures Grows(s, Resume(s)) && Grows(s, Pause(s))
  {
    LogMore(s, Resume(s), if s.status == Paused then [InstanceResumed] else []);
    LogMore(s, Pause(s), if s.status == Running then [InstancePaused] else []);
  }

  lemma FinishGrows(s: State, i: nat)
    requires i < |s.tasks| && IsOpen(s.tasks[i].status)
    ensures Grows(s, Finish(s, i))
  {
    SetTaskGrows(s, i, s.tasks[i].(status := Finished), [TaskCompleted(s.tasks[i].where)]);
  }

  lemma ReassignGrows(s: State, i: nat, assignee: string)
    ensures Grows(s, ReassignTask(s, i, assignee).state)
  {
    if i < |s.tasks| && IsOpen(s.tasks[i].status) {
      SetTaskGrows(s, i, ReassignTask(s, i, assignee).state.tasks[i], [TaskReassigned(s.tasks[i].where)]);
    } else {
      LogMore(s, s, []);
    }
  }

  /** Stamping after some growth is growth. */
  lemma ThenStamp(s: State, t: State, k: nat)
    requires Grows(s, t) && k < |t.timers| && Armed(t.timers[k])
    ensures Grows(s, Stamp(t, k))
  {
    StampGrows(t, k);
    GrowsTransitive(s, t, Stamp(t, k));
  }

  lemma AutoCompleteGrows(env: Env, s: State, i: nat)
    requires i < |s.tasks| && IsOpen(s.tasks[i].status)
    ensures Grows(s, CompleteByTimer(env, s, i).state)
  {
    LogMore(s, s, []);
    var s1 := Finish(s, i);
    FinishGrows(s, i);
    ResumeGrows(s1);
    GrowsTransitive(s, s1, Resume(s1));
    if CompleteByTimer(env, s, i).reply == Blocked {
      var n := Lookup(env, s.tasks[i].where.id).value;
      var s2 := FireAttachments(Emit(s1, NodeCompleted(n.id)), n, OnComplete);
      assert s2.log == s1.log + ([NodeCompleted(n.id)] + AttachmentEvents(n.id, n.attachments, OnComplete));
      TasksMore(s1.tasks, []);
      ApprovalsMore(s1.approvals, []);
      TimersMore(s1.timers, AttachmentTimers(n.id, n.attachments, OnComplete));
      GrowsTransitive(s, s1, s2);
    }
  }

  lemma FireGrows(env: Env, s: State, k: nat, delivered: bool)
    requires k < |s.timers|
    ensures Grows(s, FireOne(env, s, k, delivered).state)
  {
    var row := s.timers[k];
    var s1 := Emit(s, AttachedTimerFired(row.node, k));
    EmitGrows(s, AttachedTimerFired(row.node, k));
    var open := LatestOpen(s.tasks, row.node);
    if open.Some? {
      if row.escalateTo.Some? {
        ReassignGrows(s1, open.value, row.escalateTo.value);
        GrowsTransitive(s, s1, ReassignTask(s1, open.value, row.escalateTo.value).state);
      }
      AutoCompleteGrows(env, s1, open.value);
      GrowsTransitive(s, s1, CompleteByTimer(env, s1, open.value).state);
    }
  }

  /** Firing a row does not close it; only the stamp does. */
  lemma FireKeepsRow(env: Env, s: State, k: nat, delivered: bool)
    requires k < |s.timers|
    ensures FireOne(env, s, k, delivered).state.timers[k] == s.timers[k]
  {}

  lemma SweepGrows(env: Env, s: State, k: nat, delivered: bool)
    ensures Grows(s, SweepTimer(env, s, k, delivered).state)
  {
    if k < |s.timers| && Armed(s.timers[k]) {
      FireGrows(env, s, k, delivered);
      FireKeepsRow(env, s, k, delivered);
      ThenStamp(s, FireOne(env, s, k, delivered).state, k);
    } else {
      LogMore(s, s, []);
    }
  }

  lemma CompleteGrows(env: Env, s: State, i: nat, formData: Option<Context>, output: Option<Context>, fuel: nat)
    requires CompleteTask(env, s, i, formData, output, fuel).Some?
    ensures Grows(s, CompleteTask(env, s, i, formData, output, fuel).value.state)
  {
    if i < |s.tasks| && IsOpen(s.tasks[i].status) && (IsBlockingSide(s.tasks[i]) || s.status != Paused) {
      var s1 := Finish(s, i);
      FinishGrows(s, i);
      ResumeGrows(s1);
      GrowsTransitive(s, s1, Resume(s1));
      if s.tasks[i].where.Graph? {
        AdvanceGrows(env, s1, s.tasks[i].where.id, OutputOf(formData, output), fuel);
        GrowsTransitive(s, s1, Advance(env, s1, s.tasks[i].where.id, OutputOf(formData, output), fuel).value);
      }
    } else {
      LogMore(s, s, []);
    }
  }

  lemma DecideGrows(env: Env, s: State, i: nat, d: ApprovalStatus, conditions: Option<string>,
                    notes: Option<string>, fuel: nat)
    requires Decide(env, s, i, d, conditions, notes, fuel).Some?
    ensures Grows(s, Decide(env, s, i, d, conditions, notes, fuel).value.state)
  {
    if i < |s.approvals| && s.approvals[i].status == Pending && s.status != Paused {
      var a := s.approvals[i];
      var s1 := Emit(s.(approvals := s.approvals[i := a.(status := d)]), ApprovalDecided(a.node, d));
      SetApprovalGrows(s, i, a.(status := d), [ApprovalDecided(a.node, d)]);
      if Settles(d) {
        AdvanceGrows(env, s1, a.node, DecisionOutput(d, conditions, notes), fuel);
        GrowsTransitive(s, s1, Advance(env, s1, a.node, DecisionOutput(d, conditions, notes), fuel).value);
      }
    } else {
      LogMore(s, s, []);
    }
  }

  lemma SendBackTaskGrows(env: Env, s: State, i: nat, target: string, fuel: nat)
    requires SendBackTask(env, s, i, target, fuel).Some?
    ensures Grows(s, SendBackTask(env, s, i, target, fuel).value.state)
  {
    if i < |s.tasks| && IsOpen(s.tasks[i].status) && s.status != Paused && ValidTarget(env, target) {
      var t := s.tasks[i];
      var s1 := CloseTask(s, i, SentBack(target));
      SetTaskGrows(s, i, t.(status := SentBack(target)), []);
      assert s.log + [] == s.log;
      RewindGrows(env, s1, t.where.id, target, TaskSentBack(t.where, target), fuel);
      GrowsTransitive(s, s1, SendBackTask(env, s, i, target, fuel).value.state);
    } else {
      LogMore(s, s, []);
    }
  }

  lemma SendBackApprovalGrows(env: Env, s: State, i: nat, target: string, fuel: nat)
    requires SendBackApproval(env, s, i, target, fuel).Some?
    ensures Grows(s, SendBackApproval(env, s, i, target, fuel).value.state)
  {
    if i < |s.approvals| && s.approvals[i].status == Pending && s.status != Paused && ValidTarget(env, target) {
      var a := s.approvals[i];
      var a' := a.(status := NeedsMoreInformation, sentBackTo := Some(target));
      var s1 := s.(approvals := s.approvals[i := a']);
      SetApprovalGrows(s, i, a', []);
      assert s.log + [] == s.log;
      RewindGrows(env, s1, a.node, target, ApprovalSentBack(a.node, target), fuel);
      GrowsTransitive(s, s1, SendBackApproval(env, s, i, target, fuel).value.state);
    } else {
      LogMore(s, s, []);
    }
  }

  lemma AdHocGrows(s: State, token: string, blocking: bool, assignee: string)
    ensures Grows(s, CreateAdHoc(s, token, blocking, assignee).state)
  {
    if Ended(s.status) {
      LogMore(s, s, []);
    } else {
      var w := Side("adhoc-" + token);
      var t := Task(w, Open, None, assignee, blocking, false);
      var s1 := Emit(s.(tasks := s.tasks + [t]), AdHocTaskCreated(w, blocking));
      TasksMore(s.tasks, [t]);
      ApprovalsMore(s.approvals, []);
      TimersMore(s.timers, []);
      ResumeGrows(s1);
      GrowsTransitive(s, s1, Pause(s1));
    }
  }

  lemma CancelGrows(s: State)
    ensures Grows(s, CancelInstance(s))
  {
    LogMore(s, s, []);
    if s.status != Completed && s.status != Cancelled {
      assert TasksGrow(s.tasks, WithdrawAll(s.tasks));
      assert ApprovalsGrow(s.approvals, RejectAll(s.approvals));
      assert TimersGrow(s.timers, DisarmAll(s.timers));
    }
  }

  lemma SmallGrows(env: Env, s: State, op: Op, fuel: nat)
    requires op.DoClaim? || op.DoReassignApproval? || op.DoSweepOverdue?
    ensures Grows(s, Step(env, s, op, fuel).value.state)
  {
    LogMore(s, s, []);
    var s' := Step(env, s, op, fuel).value.state;
    match op {
      case DoClaim(i, who) =>
        if s' != s { SetTaskGrows(s, i, s'.tasks[i], [TaskClaimed(s.tasks[i].where)]); }
      case DoReassignApproval(i, assignee) =>
        if s' != s { SetApprovalGrows(s, i, s'.approvals[i], [ApprovalReassigned(s.approvals[i].node)]); }
      case DoSweepOverdue(i, sent) =>
        if s' != s {
          SetTaskGrows(s, i, s'.tasks[i], s'.log[|s.log|..]);
          assert s'.log == s.log + s'.log[|s.log|..];
        }
    }
  }

  lemma MoveGrows(env: Env, s: State, op: Op, fuel: nat)
    requires MovesOn(op) && Step(env, s, op, fuel).Some?
    ensures Grows(s, Step(env, s, op, fuel).value.state)
  {
    match op
    case DoComplete(i, formData, output) => CompleteGrows(env, s, i, formData, output, fuel);
    case DoDecide(i, d, conditions, notes) => DecideGrows(env, s, i, d, conditions, notes, fuel);
    case DoSendBackTask(i, target) => SendBackTaskGrows(env, s, i, target, fuel);
    case DoSendBackApproval(i, target) => SendBackApprovalGrows(env, s, i, target, fuel);
  }

  lemma EditGrows(env: Env, s: State, op: Op, fuel: nat)
    requires op.DoUpdateContext? || op.DoRemoveKeys? || op.DoAttach? || op.DoDetach? || op.DoNote?
    ensures Grows(s, Step(env, s, op, fuel).value.state)
  {
    var t := Step(env, s, op, fuel).value.state;
    match op
    case DoNote => EmitGrows(s, NoteAdded);
    case DoAttach(doc, wellFormed) => ContextGrows(s, t, DocumentAttached);
    case DoDetach(id) => ContextGrows(s, t, DocumentRemoved);
    case _ => ContextGrows(s, t, ContextUpdated);
  }

  /** In every call, rows are only added or closed, and the log is only appended to. */
  lemma StepGrows(env: Env, s: State, op: Op, fuel: nat)
    requires Step(env, s, op, fuel).Some?
    ensures Grows(s, Step(env, s, op, fuel).value.state)
  {
    if MovesOn(op) {
      MoveGrows(env, s, op, fuel);
    } else {
      match op
      case DoSweepTimer(k, delivered) => SweepGrows(env, s, k, delivered);
      case DoAdHoc(token, blocking, assignee) => AdHocGrows(s, token, blocking, assignee);
      case DoCancel => CancelGrows(s);
      case DoReassignTask(i, assignee) => ReassignGrows(s, i, assignee);
      case DoPause => ResumeGrows(s);
      case DoResume => ResumeGrows(s);
      case DoClaim(_, _) => SmallGrows(env, s, op, fuel);
      case DoReassignApproval(_, _) => SmallGrows(env, s, op, fuel);
      case DoSweepOverdue(_, _) => SmallGrows(env, s, op, fuel);
      case _ => EditGrows(env, s, op, fuel);
    }
  }

  lemma ContextGrows(s: State, t: State, e: Event)
    requires t == s || t == Emit(s.(context := t.context), e)
    ensures Grows(s, t)
  {
    LogMore(s, t, if t.log == s.log then [] else [e]);
  }

  // --- The overdue claim ---

  /** The call is an overdue sweep that finds task `i` and claims it. */
  ghost predicate ClaimsOverdue(env: Env, s: State, op: Op, i: nat) {
    op.DoSweepOverdue? && op.task == i && SweepOverdue(env, s, i, op.sent).reply == Ok
  }

  /** How often a run claims task `i` as overdue. */
  ghost function OverdueClaims(env: Env, s: State, ops: seq<Op>, fuel: nat, i: nat): nat
    requires Replay(env, s, ops, fuel).Some?
    decreases |ops|
  {
    if ops == [] then 0
    else
      var before := ops[..|ops| - 1];
      OverdueClaims(env, s, before, fuel, i)
      + if ClaimsOverdue(env, Replay(env, s, before, fuel).value, ops[|ops| - 1], i) then 1 else 0
  }

  predicate Notified(s: State, i: nat) {
    i < |s.tasks| && s.tasks[i].overdueNotified
  }

  lemma NotifiedStays(s: State, t: State, i: nat)
    requires Grows(s, t) && Notified(s, i)
    ensures Notified(t, i)
  {
    assert TaskGrows(s.tasks[i], t.tasks[i]);
  }

  lemma ClaimNotifies(env: Env, s: State, i: nat, sent: nat)
    ensures SweepOverdue(env, s, i, sent).reply == Ok ==>
              !Notified(s, i) && Notified(SweepOverdue(env, s, i, sent).state, i)
  {}

  /** In every run, however many sweeps look at it, a task is claimed as overdue at most once, and never
      after it has been notified. */
  lemma {:induction false} ClaimedOverdueOnce(env: Env, s: State, ops: seq<Op>, fuel: nat, i: nat)
    requires Replay(env, s, ops, fuel).Some?
    ensures OverdueClaims(env, s, ops, fuel, i) <= if Notified(s, i) then 0 else 1
    ensures Notified(s, i) || OverdueClaims(env, s, ops, fuel, i) == 1 ==> Notified(Replay(env, s, ops, fuel).value, i)
    decreases |ops|
  {
    if ops != [] {
      var before, op := ops[..|ops| - 1], ops[|ops| - 1];
      ClaimedOverdueOnce(env, s, before, fuel, i);
      var u := Replay(env, s, before, fuel).value;
      StepGrows(env, u, op, fuel);
      if Notified(u, i) {
        NotifiedStays(u, Step(env, u, op, fuel).value.state, i);
      }
      if op.DoSweepOverdue? {
        ClaimNotifies(env, u, op.task, op.sent);
      }
    }
  }
}
