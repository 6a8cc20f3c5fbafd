/** The active marking means something.
    While an instance lives, every active node still has the work or the decision it waits for: an open
    planned task, or an approval that is pending or carries an intermediate decision. Timer
    auto-completion is the one call that breaks this. */
module EngineMarking {
  import opened Prelude
  import opened JsonTree
  import opened WorkflowGraph
  import opened Worklist
  import opened Engine
  import opened EngineInduction
  import opened EngineLifecycle

  predicate BaseAt(env: Env, id: string, bases: set<BaseType>) {
    Lookup(env, id).Some? && BaseOf(env, Lookup(env, id).value) in bases
  }

  predicate TaskNode(env: Env, id: string) {
    BaseAt(env, id, {HumanTask, FormFill})
  }

  predicate ApprovalNode(env: Env, id: string) {
    BaseAt(env, id, {ApprovalGate})
  }

  /** Node types that stay active once entered. */
  predicate WaitingNode(env: Env, id: string) {
    BaseAt(env, id, {HumanTask, FormFill, ApprovalGate, AgentTask, ToolRequest, CallWorkflow, Unrecognized, TimerWait})
  }

  predicate OpenAt(t: Task, id: string) {
    t.where == Graph(id) && IsOpen(t.status)
  }

  ghost predicate HasOpen(ts: seq<Task>, id: string) {
    exists i :: 0 <= i < |ts| && OpenAt(ts[i], id)
  }

  /** Pending, or carrying a decision that does not settle the approval; not sent back. */
  predicate UnsettledAt(a: Approval, id: string) {
    a.node == id && !Settles(a.status) && a.sentBackTo.None?
  }

  ghost predicate HasUnsettled(aps: seq<Approval>, id: string) {
    exists i :: 0 <= i < |aps| && UnsettledAt(aps[i], id)
  }

  predicate Distinct(ids: seq<string>) {
    forall i, j :: 0 <= i < j < |ids| ==> ids[i] != ids[j]
  }

  ghost predicate RowsGrounded(env: Env, s: State) {
    && (forall i :: 0 <= i < |s.tasks| ==> s.tasks[i].where.Graph? ==> TaskNode(env, s.tasks[i].where.id))
    && (forall i :: 0 <= i < |s.approvals| ==> ApprovalNode(env, s.approvals[i].node))
  }

  /** Active nodes are listed once and exist, and rows sit at nodes of their kind. */
  ghost predicate Grounded(env: Env, s: State) {
    && Distinct(s.active)
    && (forall id :: id in s.active ==> WaitingNode(env, id))
    && RowsGrounded(env, s)
  }

  predicate Alive(s: State) {
    s.status == Running || s.status == Paused
  }

  ghost predicate Served(env: Env, s: State, id: string) {
    && (TaskNode(env, id) ==> HasOpen(s.tasks, id))
    && (ApprovalNode(env, id) ==> HasUnsettled(s.approvals, id))
  }

  /** Every active node, except possibly those in `but`, still has its work. */
  ghost predicate LiveBut(env: Env, s: State, but: set<string>) {
    Alive(s) ==> forall id :: id in s.active && id !in but ==> Served(env, s, id)
  }

  ghost predicate Live(env: Env, s: State) {
    LiveBut(env, s, {})
  }

  ghost predicate Marking(env: Env, s: State, hole: set<string>) {
    Grounded(env, s) && LiveBut(env, s, hole)
  }

  lemma {:induction false} WithoutIs(ids: seq<string>, id: string)
    ensures forall x :: x in Without(ids, id) <==> x in ids && x != id
    ensures Distinct(ids) ==> Distinct(Without(ids, id))
  {
    if ids != [] {
      WithoutIs(ids[1..], id);
      assert ids == [ids[0]] + ids[1..];
      if Distinct(ids) {
        var rest := Without(ids[1..], id);
        assert Distinct(ids[1..]);
        assert forall k :: 1 <= k < |ids| ==> ids[0] != ids[k];
        assert ids[0] !in ids[1..];
        assert ids[0] !in rest;
      }
    }
  }

  lemma MoreRows(ts: seq<Task>, more: seq<Task>, aps: seq<Approval>, moreAps: seq<Approval>)
    ensures forall id :: HasOpen(ts, id) ==> HasOpen(ts + more, id)
    ensures forall id :: HasUnsettled(aps, id) ==> HasUnsettled(aps + moreAps, id)
  {
    forall id | HasOpen(ts, id) ensures HasOpen(ts + more, id) {
      var i :| 0 <= i < |ts| && OpenAt(ts[i], id);
      assert OpenAt((ts + more)[i], id);
    }
    forall id | HasUnsettled(aps, id) ensures HasUnsettled(aps + moreAps, id) {
      var i :| 0 <= i < |aps| && UnsettledAt(aps[i], id);
      assert UnsettledAt((aps + moreAps)[i], id);
    }
  }

  /** A state with the same rows, active list and liveness. */
  lemma SameMarking(env: Env, a: State, b: State, hole: set<string>)
    requires Grounded(env, a) && LiveBut(env, a, hole)
    requires b.tasks == a.tasks && b.approvals == a.approvals && b.active == a.active
    requires Alive(b) ==> Alive(a)
    ensures Grounded(env, b) && LiveBut(env, b, hole)
  {
    if Alive(b) {
      forall id | id in b.active && id !in hole ensures Served(env, b, id) { assert Served(env, a, id); }
    }
  }

  /** Marking one more waiting node that has its work. */
  lemma MarkMarking(env: Env, a: State, id: string, hole: set<string>)
    requires Grounded(env, a) && LiveBut(env, a, hole) && WaitingNode(env, id) && (Alive(a) ==> Served(env, a, id))
    ensures Marking(env, Mark(a, id), hole)
  {
    var b := Mark(a, id);
    forall x | x in b.active ensures WaitingNode(env, x) {}
    if Alive(b) {
      forall x | x in b.active && x !in hole ensures Served(env, b, x) {
        if x in a.active { assert Served(env, a, x); } else { assert Served(env, a, id); }
      }
    }
  }

  /** Adding rows keeps the marking. */
  lemma RowsMarking(env: Env, a: State, b: State, more: seq<Task>, moreAps: seq<Approval>, hole: set<string>)
    requires Marking(env, a, hole) && b.active == a.active && b.status == a.status
    requires b.tasks == a.tasks + more && b.approvals == a.approvals + moreAps
    requires forall t :: t in more ==> (t.where.Graph? ==> TaskNode(env, t.where.id))
    requires forall p :: p in moreAps ==> ApprovalNode(env, p.node)
    ensures Marking(env, b, hole)
  {
    MoreRows(a.tasks, more, a.approvals, moreAps);
    forall i | 0 <= i < |b.tasks| ensures b.tasks[i].where.Graph? ==> TaskNode(env, b.tasks[i].where.id) {
      if i >= |a.tasks| { assert b.tasks[i] in more; }
    }
    forall i | 0 <= i < |b.approvals| ensures ApprovalNode(env, b.approvals[i].node) {
      if i >= |a.approvals| { assert b.approvals[i] in moreAps; }
    }
    if Alive(b) {
      forall id | id in b.active && id !in hole ensures Served(env, b, id) { assert Served(env, a, id); }
    }
  }

  /** Dropping the one unserved node from the active list restores liveness. */
  lemma DropMarking(env: Env, a: State, b: State, id: string, hole: set<string>)
    requires Grounded(env, a) && LiveBut(env, a, hole + {id})
    requires b.active == Without(a.active, id) && b.tasks == a.tasks && b.approvals == a.approvals
    requires Alive(b) ==> Alive(a)
    ensures Marking(env, b, hole)
  {
    WithoutIs(a.active, id);
    if Alive(b) {
      forall x | x in b.active && x !in hole ensures Served(env, b, x) { assert Served(env, a, x); }
    }
  }

  lemma EnterTaskMarking(env: Env, s: State, n: Node, s': State, hole: set<string>)
    requires Marking(env, s, hole) && Found(env, n) && BaseOf(env, n) in {HumanTask, FormFill} && s' == Enter(env, s, n)
    ensures Marking(env, s', hole)
  {
    var t := Task(Graph(n.id), Open, None, "", false, false);
    var mid := s'.(active := s.active);
    RowsMarking(env, s, mid, [t], [], hole);
    assert OpenAt(mid.tasks[|s.tasks|], n.id);
    MarkMarking(env, mid, n.id, hole);
    assert s' == Mark(mid, n.id);
  }

  lemma EnterApprovalMarking(env: Env, s: State, n: Node, s': State, hole: set<string>)
    requires Marking(env, s, hole) && Found(env, n) && BaseOf(env, n) == ApprovalGate && s' == Enter(env, s, n)
    ensures Marking(env, s', hole)
  {
    var a := Approval(n.id, Pending, None, "");
    var mid := s'.(active := s.active);
    RowsMarking(env, s, mid, [], [a], hole);
    assert UnsettledAt(mid.approvals[|s.approvals|], n.id);
    MarkMarking(env, mid, n.id, hole);
    assert s' == Mark(mid, n.id);
  }

  lemma EnterMarking(env: Env, s: State, n: Node, hole: set<string>)
    requires Marking(env, s, hole) && Found(env, n)
    ensures Marking(env, Enter(env, s, n), hole)
  {
    var s' := Enter(env, s, n);
    match BaseOf(env, n) {
      case HumanTask => EnterTaskMarking(env, s, n, s', hole);
      case FormFill => EnterTaskMarking(env, s, n, s', hole);
      case ApprovalGate => EnterApprovalMarking(env, s, n, s', hole);
      case End =>
        WithoutIs(s.active, n.id);
      case AgentTask => EnterWaiting(env, s, n, s', hole);
      case ToolRequest => EnterWaiting(env, s, n, s', hole);
      case CallWorkflow => EnterWaiting(env, s, n, s', hole);
      case Unrecognized => EnterWaiting(env, s, n, s', hole);
      case TimerWait => EnterWaiting(env, s, n, s', hole);
      case _ => SameMarking(env, s, s', hole);
    }
  }

  lemma EnterWaiting(env: Env, s: State, n: Node, s': State, hole: set<string>)
    requires Marking(env, s, hole) && Found(env, n) && s' == Enter(env, s, n)
    requires BaseOf(env, n) in {AgentTask, ToolRequest, CallWorkflow, Unrecognized, TimerWait}
    ensures Marking(env, s', hole)
  {
    var mid := s'.(active := s.active);
    EnterIdle(env, s, n);
    SameMarking(env, s, mid, hole);
    MarkMarking(env, mid, n.id, hole);
  }

  /** Entering such a node marks it and makes no row. */
  lemma EnterIdle(env: Env, s: State, n: Node)
    requires BaseOf(env, n) in {AgentTask, ToolRequest, CallWorkflow, Unrecognized, TimerWait}
    ensures var s' := Enter(env, s, n);
            && s'.tasks == s.tasks && s'.approvals == s.approvals && s'.status == s.status
            && s' == Mark(s'.(active := s.active), n.id)
  {}

  ghost function MarkingIn(env: Env, hole: set<string>): State -> bool {
    (s: State) => Marking(env, s, hole)
  }

  lemma DrainMarking(env: Env, s: State, work: seq<Node>, fuel: nat, hole: set<string>)
    requires Marking(env, s, hole) && AllGood(FoundIn(env), work) && Drain(env, s, work, fuel).Some?
    ensures Marking(env, Drain(env, s, work, fuel).value, hole)
  {
    forall x: State, n: Node | MarkingIn(env, hole)(x) && Found(env, n) ensures MarkingIn(env, hole)(Enter(env, x, n)) {
      EnterMarking(env, x, n, hole);
    }
    DrainKeeps(env, s, work, fuel, MarkingIn(env, hole));
  }

  // --- Calls ---

  /** Replacing one task row: only its own node can lose its last open row. */
  lemma SetTaskMarking(env: Env, a: State, b: State, i: nat, t: Task, hole: set<string>)
    requires Marking(env, a, hole) && i < |a.tasks| && t.where == a.tasks[i].where
    requires b.tasks == a.tasks[i := t] && b.approvals == a.approvals && b.active == a.active && (Alive(b) ==> Alive(a))
    ensures Grounded(env, b)
    ensures t.where.Graph? ==> LiveBut(env, b, hole + {t.where.id})
    ensures t.where.Side? || (IsOpen(a.tasks[i].status) ==> IsOpen(t.status)) ==> LiveBut(env, b, hole)
  {
    var keeps := t.where.Side? || (IsOpen(a.tasks[i].status) ==> IsOpen(t.status));
    forall id | HasOpen(a.tasks, id) && (keeps || Graph(id) != t.where) ensures HasOpen(b.tasks, id) {
      var j :| 0 <= j < |a.tasks| && OpenAt(a.tasks[j], id);
      assert OpenAt(b.tasks[j], id);
    }
    if Alive(b) {
      forall id | id in b.active && id !in hole && (keeps || Graph(id) != t.where) ensures Served(env, b, id) {
        assert Served(env, a, id);
      }
    }
  }

  lemma SetApprovalMarking(env: Env, a: State, b: State, i: nat, p: Approval, hole: set<string>)
    requires Marking(env, a, hole) && i < |a.approvals| && p.node == a.approvals[i].node
    requires b.approvals == a.approvals[i := p] && b.tasks == a.tasks && b.active == a.active && (Alive(b) ==> Alive(a))
    ensures Grounded(env, b) && LiveBut(env, b, hole + {p.node})
    ensures (UnsettledAt(a.approvals[i], p.node) ==> UnsettledAt(p, p.node)) ==> LiveBut(env, b, hole)
  {
    var keeps := UnsettledAt(a.approvals[i], p.node) ==> UnsettledAt(p, p.node);
    forall id | HasUnsettled(a.approvals, id) && (keeps || id != p.node) ensures HasUnsettled(b.approvals, id) {
      var j :| 0 <= j < |a.approvals| && UnsettledAt(a.approvals[j], id);
      assert UnsettledAt(b.approvals[j], id);
    }
    if Alive(b) {
      forall id | id in b.active && id !in hole && (keeps || id != p.node) ensures Served(env, b, id) {
        assert Served(env, a, id);
      }
    }
  }

  /** Moving on from a node whose work has just been closed. */
  lemma AdvanceMarking(env: Env, s: State, id: string, output: Context, fuel: nat, hole: set<string>)
    requires Grounded(env, s) && LiveBut(env, s, hole + {id}) && s.status != Paused && Lookup(env, id).Some?
    requires Advance(env, s, id, output, fuel).Some?
    ensures Marking(env, Advance(env, s, id, output, fuel).value, hole)
  {
    if s.status == Running {
      var s1 := Depart(env, s, Lookup(env, id).value, output);
      DropMarking(env, s, s1, id, hole);
      PickedFound(env, s1.context, id);
      DrainMarking(env, s1, PickTargets(env, s1.context, id), fuel, hole);
    }
  }

  lemma CompleteMarking(env: Env, s: State, i: nat, formData: Option<Context>, output: Option<Context>, fuel: nat,
                        hole: set<string>)
    requires Marking(env, s, hole) && CompleteTask(env, s, i, formData, output, fuel).Some?
    ensures Marking(env, CompleteTask(env, s, i, formData, output, fuel).value.state, hole)
  {
    if i < |s.tasks| && IsOpen(s.tasks[i].status) && (IsBlockingSide(s.tasks[i]) || s.status != Paused) {
      var s1 := Finish(s, i);
      SetTaskMarking(env, s, s1, i, s.tasks[i].(status := Finished), hole);
      if s.tasks[i].where.Graph? {
        AdvanceMarking(env, s1, s.tasks[i].where.id, OutputOf(formData, output), fuel, hole);
      } else {
        SameMarking(env, s1, Resume(s1), hole);
      }
    }
  }

  lemma DecideMarking(env: Env, s: State, i: nat, d: ApprovalStatus, conditions: Option<string>,
                      notes: Option<string>, fuel: nat, hole: set<string>)
    requires Marking(env, s, hole) && Decide(env, s, i, d, conditions, notes, fuel).Some?
    ensures Marking(env, Decide(env, s, i, d, conditions, notes, fuel).value.state, hole)
  {
    if i < |s.approvals| && s.approvals[i].status == Pending && s.status != Paused {
      var a := s.approvals[i];
      var s1 := Emit(s.(approvals := s.approvals[i := a.(status := d)]), ApprovalDecided(a.node, d));
      SetApprovalMarking(env, s, s1, i, a.(status := d), hole);
      if Settles(d) {
        AdvanceMarking(env, s1, a.node, DecisionOutput(d, conditions, notes), fuel, hole);
      }
    }
  }

  lemma RewindMarking(env: Env, s: State, source: string, target: string, e: Event, fuel: nat, hole: set<string>)
    requires Grounded(env, s) && LiveBut(env, s, hole + {source}) && ValidTarget(env, target)
    requires Drain(env, Rewind(env, s, source, target, e), [Lookup(env, target).value], fuel).Some?
    ensures Marking(env, Drain(env, Rewind(env, s, source, target, e), [Lookup(env, target).value], fuel).value, hole)
  {
    var s1 := Rewind(env, s, source, target, e);
    DropMarking(env, s, s1, source, hole);
    assert AllGood(FoundIn(env), [Lookup(env, target).value]);
    DrainMarking(env, s1, [Lookup(env, target).value], fuel, hole);
  }

  lemma SendBackTaskMarking(env: Env, s: State, i: nat, target: string, fuel: nat, hole: set<string>)
    requires Marking(env, s, hole) && SendBackTask(env, s, i, target, fuel).Some?
    ensures Marking(env, SendBackTask(env, s, i, target, fuel).value.state, hole)
  {
    if i < |s.tasks| && IsOpen(s.tasks[i].status) && s.status != Paused && ValidTarget(env, target) {
      var t := s.tasks[i];
      var s1 := CloseTask(s, i, SentBack(target));
      SetTaskMarking(env, s, s1, i, t.(status := SentBack(target)), hole);
      RewindMarking(env, s1, t.where.id, target, TaskSentBack(t.where, target), fuel, hole);
    }
  }

  lemma SendBackApprovalMarking(env: Env, s: State, i: nat, target: string, fuel: nat, hole: set<string>)
    requires Marking(env, s, hole) && SendBackApproval(env, s, i, target, fuel).Some?
    ensures Marking(env, SendBackApproval(env, s, i, target, fuel).value.state, hole)
  {
    if i < |s.approvals| && s.approvals[i].status == Pending && s.status != Paused && ValidTarget(env, target) {
      var a := s.approvals[i];
      var a' := a.(status := NeedsMoreInformation, sentBackTo := Some(target));
      var s1 := s.(approvals := s.approvals[i := a']);
      SetApprovalMarking(env, s, s1, i, a', hole);
      RewindMarking(env, s1, a.node, target, ApprovalSentBack(a.node, target), fuel, hole);
    }
  }

  lemma CancelMarking(env: Env, s: State, hole: set<string>)
    requires Marking(env, s, hole)
    ensures Marking(env, CancelInstance(s), hole)
  {
    var b := CancelInstance(s);
    if b != s {
      forall i | 0 <= i < |b.tasks| ensures b.tasks[i].where == s.tasks[i].where {}
      forall i | 0 <= i < |b.approvals| ensures b.approvals[i].node == s.approvals[i].node {}
    }
  }

  lemma ReassignMarking(env: Env, s: State, i: nat, assignee: string, hole: set<string>)
    requires Marking(env, s, hole)
    ensures Marking(env, ReassignTask(s, i, assignee).state, hole)
  {
    if i < |s.tasks| && IsOpen(s.tasks[i].status) {
      var t := ReassignTask(s, i, assignee).state;
      SetTaskMarking(env, s, t, i, t.tasks[i], hole);
    }
  }

  lemma TimerMarking(env: Env, s: State, i: nat, hole: set<string>)
    requires Marking(env, s, hole) && i < |s.tasks| && CompleteByTimer(env, s, i).reply != Blocked
    ensures Marking(env, CompleteByTimer(env, s, i).state, hole)
  {
    var t := s.tasks[i];
    var s1 := Finish(s, i);
    SetTaskMarking(env, s, s1, i, t.(status := Finished), hole);
    if t.where.Side? {
      SameMarking(env, s1, Resume(s1), hole);
    }
  }

  lemma SweepMarking(env: Env, s: State, k: nat, delivered: bool, hole: set<string>)
    requires Marking(env, s, hole) && SweepTimer(env, s, k, delivered).reply != Blocked
    ensures Marking(env, SweepTimer(env, s, k, delivered).state, hole)
  {
    if k < |s.timers| && Armed(s.timers[k]) {
      var row := s.timers[k];
      var s1 := Emit(s, AttachedTimerFired(row.node, k));
      SameMarking(env, s, s1, hole);
      var open := LatestOpen(s.tasks, row.node);
      var r := FireOne(env, s, k, delivered);
      if row.action == Escalate && open.Some? && row.escalateTo.Some? {
        ReassignMarking(env, s1, open.value, row.escalateTo.value, hole);
      } else if row.action == AutoComplete && open.Some? {
        TimerMarking(env, s1, open.value, hole);
      }
      assert Marking(env, r.state, hole);
      SameMarking(env, r.state, SweepTimer(env, s, k, delivered).state, hole);
    }
  }

  lemma AdHocMarking(env: Env, s: State, token: string, blocking: bool, assignee: string, hole: set<string>)
    requires Marking(env, s, hole)
    ensures Marking(env, CreateAdHoc(s, token, blocking, assignee).state, hole)
  {
    if !Ended(s.status) {
      var w := Side("adhoc-" + token);
      var t := Task(w, Open, None, assignee, blocking, false);
      var s1 := Emit(s.(tasks := s.tasks + [t]), AdHocTaskCreated(w, blocking));
      RowsMarking(env, s, s1, [t], [], hole);
      SameMarking(env, s1, Pause(s1), hole);
    }
  }

  lemma ClaimMarking(env: Env, s: State, i: nat, who: string, hole: set<string>)
    requires Marking(env, s, hole)
    ensures Marking(env, ClaimTask(s, i, who).state, hole)
  {
    var t := ClaimTask(s, i, who).state;
    if t != s { SetTaskMarking(env, s, t, i, t.tasks[i], hole); }
  }

  lemma ReassignApprovalMarking(env: Env, s: State, i: nat, assignee: string, hole: set<string>)
    requires Marking(env, s, hole)
    ensures Marking(env, ReassignApproval(s, i, assignee).state, hole)
  {
    var t := ReassignApproval(s, i, assignee).state;
    if t != s { SetApprovalMarking(env, s, t, i, t.approvals[i], hole); }
  }

  lemma OverdueMarking(env: Env, s: State, i: nat, sent: nat, hole: set<string>)
    requires Marking(env, s, hole)
    ensures Marking(env, SweepOverdue(env, s, i, sent).state, hole)
  {
    var t := SweepOverdue(env, s, i, sent).state;
    if t != s { SetTaskMarking(env, s, t, i, t.tasks[i], hole); }
  }

  lemma SmallMarking(env: Env, s: State, op: Op, fuel: nat, hole: set<string>)
    requires Marking(env, s, hole) && (op.DoClaim? || op.DoReassignApproval? || op.DoSweepOverdue?)
    ensures Marking(env, Step(env, s, op, fuel).value.state, hole)
  {
    match op {
      case DoClaim(i, who) => ClaimMarking(env, s, i, who, hole);
      case DoReassignApproval(i, assignee) => ReassignApprovalMarking(env, s, i, assignee, hole);
      case DoSweepOverdue(i, sent) => OverdueMarking(env, s, i, sent, hole);
    }
  }

  /** Sweeping timer `k` auto-completes planned work of a RUNNING instance. */
  predicate Hangs(env: Env, s: State, k: nat) {
    && k < |s.timers| && Armed(s.timers[k]) && s.timers[k].action == AutoComplete && s.status == Running
    && LatestOpen(s.tasks, s.timers[k].node).Some?
    && s.tasks[LatestOpen(s.tasks, s.timers[k].node).value].where.Graph?
    && Lookup(env, s.timers[k].node).Some?
  }

  /** The guard of the one call that does not come back. */
  lemma HangsExactly(env: Env, s: State, k: nat, delivered: bool)
    ensures SweepTimer(env, s, k, delivered).reply == Blocked <==> Hangs(env, s, k)
  {}

  /** Another open task than `i` waits at the node. */
  ghost predicate OtherOpen(ts: seq<Task>, i: nat, id: string) {
    exists j :: 0 <= j < |ts| && j != i && OpenAt(ts[j], id)
  }

  /** The hanging sweep closes the last open task of an active node. */
  ghost predicate Strands(env: Env, s: State, k: nat) {
    && Hangs(env, s, k) && s.timers[k].node in s.active
    && !OtherOpen(s.tasks, LatestOpen(s.tasks, s.timers[k].node).value, s.timers[k].node)
  }

  /** What a hanging auto-completion leaves: its task closed, and all that the marking speaks of. */
  lemma HangLeaves(env: Env, s: State, k: nat, delivered: bool)
    requires Hangs(env, s, k)
    ensures var b := SweepTimer(env, s, k, delivered).state;
            var i := LatestOpen(s.tasks, s.timers[k].node).value;
            && b.status == s.status && b.active == s.active && b.approvals == s.approvals
            && b.tasks == s.tasks[i := s.tasks[i].(status := Finished)]
  {}

  /** The hanging sweep takes liveness from its own node at most, and only if it strands it. */
  lemma HangMarking(env: Env, s: State, k: nat, delivered: bool, hole: set<string>)
    requires Marking(env, s, hole) && Hangs(env, s, k)
    ensures Marking(env, SweepTimer(env, s, k, delivered).state, hole + {s.timers[k].node})
    ensures !Strands(env, s, k) ==> Marking(env, SweepTimer(env, s, k, delivered).state, hole)
  {
    var id := s.timers[k].node;
    var i := LatestOpen(s.tasks, id).value;
    var b := SweepTimer(env, s, k, delivered).state;
    HangLeaves(env, s, k, delivered);
    SetTaskMarking(env, s, b, i, s.tasks[i].(status := Finished), hole);
    if !Strands(env, s, k) {
      forall x | x in b.active && x !in hole ensures Served(env, b, x) {
        if x == id {
          var j :| 0 <= j < |s.tasks| && j != i && OpenAt(s.tasks[j], id);
          assert OpenAt(b.tasks[j], id);
          assert TaskNode(env, id);
        } else {
          assert x !in hole + {id};
        }
      }
    }
  }

  /** The nodes a call strands. */
  ghost function StrandedBy(env: Env, s: State, op: Op): set<string> {
    if op.DoSweepTimer? && Strands(env, s, op.timer) then {s.timers[op.timer].node} else {}
  }

  lemma MoveMarking(env: Env, s: State, op: Op, fuel: nat, hole: set<string>)
    requires Marking(env, s, hole) && MovesOn(op) && Step(env, s, op, fuel).Some?
    ensures Marking(env, Step(env, s, op, fuel).value.state, hole)
  {
    match op {
      case DoComplete(i, formData, output) =>
        assert Step(env, s, op, fuel) == CompleteTask(env, s, i, formData, output, fuel);
        CompleteMarking(env, s, i, formData, output, fuel, hole);
      case DoDecide(i, d, conditions, notes) =>
        assert Step(env, s, op, fuel) == Decide(env, s, i, d, conditions, notes, fuel);
        DecideMarking(env, s, i, d, conditions, notes, fuel, hole);
      case DoSendBackTask(i, target) =>
        assert Step(env, s, op, fuel) == SendBackTask(env, s, i, target, fuel);
        SendBackTaskMarking(env, s, i, target, fuel, hole);
      case DoSendBackApproval(i, target) =>
        assert Step(env, s, op, fuel) == SendBackApproval(env, s, i, target, fuel);
        SendBackApprovalMarking(env, s, i, target, fuel, hole);
    }
  }

  lemma StayMarking(env: Env, s: State, op: Op, fuel: nat, hole: set<string>)
    requires Marking(env, s, hole) && !MovesOn(op) && !op.DoSweepTimer? && Step(env, s, op, fuel).Some?
    ensures Marking(env, Step(env, s, op, fuel).value.state, hole)
  {
    var t := Step(env, s, op, fuel).value.state;
    match op {
      case DoReassignTask(i, assignee) => ReassignMarking(env, s, i, assignee, hole);
      case DoAdHoc(token, blocking, assignee) => AdHocMarking(env, s, token, blocking, assignee, hole);
      case DoCancel => CancelMarking(env, s, hole);
      case DoClaim(i, who) => SmallMarking(env, s, op, fuel, hole);
      case DoReassignApproval(i, assignee) => SmallMarking(env, s, op, fuel, hole);
      case DoSweepOverdue(i, sent) => SmallMarking(env, s, op, fuel, hole);
      case _ => SameMarking(env, s, t, hole);
    }
  }

  lemma SweepStepMarking(env: Env, s: State, k: nat, delivered: bool, hole: set<string>)
    requires Marking(env, s, hole)
    ensures Marking(env, SweepTimer(env, s, k, delivered).state,
                    hole + StrandedBy(env, s, DoSweepTimer(k, delivered)))
  {
    HangsExactly(env, s, k, delivered);
    if Hangs(env, s, k) {
      HangMarking(env, s, k, delivered, hole);
    } else {
      SweepMarking(env, s, k, delivered, hole);
    }
    assert !Strands(env, s, k) ==> hole + StrandedBy(env, s, DoSweepTimer(k, delivered)) == hole;
  }

  /** Every call keeps the marking, up to the node it strands. */
  lemma StepMarking(env: Env, s: State, op: Op, fuel: nat, hole: set<string>)
    requires Marking(env, s, hole) && Step(env, s, op, fuel).Some?
    ensures Marking(env, Step(env, s, op, fuel).value.state, hole + StrandedBy(env, s, op))
  {
    if op.DoSweepTimer? {
      SweepStepMarking(env, s, op.timer, op.delivered, hole);
    } else {
      assert hole + StrandedBy(env, s, op) == hole;
      if MovesOn(op) {
        MoveMarking(env, s, op, fuel, hole);
      } else {
        StayMarking(env, s, op, fuel, hole);
      }
    }
  }

  /** The nodes stranded in the course of a run. */
  ghost function Stranded(env: Env, s: State, ops: seq<Op>, fuel: nat): set<string>
    requires Replay(env, s, ops, fuel).Some?
    decreases |ops|
  {
    if ops == [] then {}
    else
      var before := ops[..|ops| - 1];
      Stranded(env, s, before, fuel) + StrandedBy(env, Replay(env, s, before, fuel).value, ops[|ops| - 1])
  }

  lemma {:induction false} ReplayMarking(env: Env, s: State, ops: seq<Op>, fuel: nat)
    requires Marking(env, s, {}) && Replay(env, s, ops, fuel).Some?
    ensures Marking(env, Replay(env, s, ops, fuel).value, Stranded(env, s, ops, fuel))
    decreases |ops|
  {
    if ops != [] {
      var before := ops[..|ops| - 1];
      ReplayMarking(env, s, before, fuel);
      StepMarking(env, Replay(env, s, before, fuel).value, ops[|ops| - 1], fuel, Stranded(env, s, before, fuel));
    }
  }

  /** In every state of every run the active list has no duplicates, names existing waiting nodes,
      and every active node that was not stranded still has its open task or unsettled approval. */
  lemma RunMarking(env: Env, ctx: Context, ops: seq<Op>, fuel: nat)
    requires Exec(env, ctx, ops, fuel).Some?
    ensures Marking(env, Exec(env, ctx, ops, fuel).value, Stranded(env, Begin(env, ctx, fuel).value, ops, fuel))
  {
    var start := StartNode(env.version.nodes).value;
    assert AllGood(FoundIn(env), [start]);
    DrainMarking(env, Fresh(ctx), [start], fuel, {});
    ReplayMarking(env, Begin(env, ctx, fuel).value, ops, fuel);
  }

  /** A sweep breaks the marking exactly when the row it takes is an armed auto-completion of a RUNNING
      instance, whose node is active and has one open planned task and no other. */
  lemma BlockedMarking(env: Env, s: State, k: nat, delivered: bool)
    requires Marking(env, s, {})
    ensures Marking(env, SweepTimer(env, s, k, delivered).state, {}) <==> !Strands(env, s, k)
  {
    HangsExactly(env, s, k, delivered);
    if !Hangs(env, s, k) {
      SweepMarking(env, s, k, delivered, {});
    } else {
      HangMarking(env, s, k, delivered, {});
      if Strands(env, s, k) {
        StrandedUnserved(env, s, k, delivered);
      }
    }
  }

  lemma StrandedUnserved(env: Env, s: State, k: nat, delivered: bool)
    requires Marking(env, s, {}) && Strands(env, s, k)
    ensures !Live(env, SweepTimer(env, s, k, delivered).state)
  {
    var id := s.timers[k].node;
    var i := LatestOpen(s.tasks, id).value;
    var b := SweepTimer(env, s, k, delivered).state;
    HangLeaves(env, s, k, delivered);
    assert TaskNode(env, id);
    forall j | 0 <= j < |b.tasks| ensures !OpenAt(b.tasks[j], id) {
      if j != i {
        assert !OpenAt(s.tasks[j], id);
      }
    }
    assert !Served(env, b, id);
  }

  // --- The run that shows it ---

  /** START leads to one task whose attached timer auto-completes it after a minute. */
  function TimedTask(): Env {
    Env(Version([Node("s", Builtin(Start), None, [], []),
                 Node("t", Builtin(HumanTask), None, [Alarm("a", true, 1, AutoComplete, None)], [])],
                [Edge("e", "s", "t", None)]),
        map[], (c, x) => false, false)
  }

  const TIMED_NODE := Node("t", Builtin(HumanTask), None, [Alarm("a", true, 1, AutoComplete, None)], [])

  /** The instance right after it was started. */
  function TimedStart(): State {
    State(Running, map[], ["t"], map[], [Task(Graph("t"), Open, None, "", false, false)], [],
          [Timer("t", "a", AutoComplete, None, false, false)],
          [InstanceStarted, NodeActivated("s", Start), NodeActivated("t", HumanTask), AttachedTimerScheduled("t", "a")])
  }

  lemma TimedGraph()
    ensures Lookup(TimedTask(), "t") == Some(TIMED_NODE)
    ensures EnabledEdges(TimedTask(), map[], "s") == [0]
  {
    var env := TimedTask();
    assert env.version.nodes[1..] == [TIMED_NODE];
    assert FindNode([TIMED_NODE], "t") == Some(TIMED_NODE);
    assert Enabled(env, map[], "s", 0);
    var es := EnabledEdges(env, map[], "s");
    assert 0 in es;
    assert forall k: nat :: k in es ==> k == 0;
  }

  lemma TimedBegins()
    ensures Begin(TimedTask(), map[], 2) == Some(TimedStart())
  {
    var env := TimedTask();
    var start := env.version.nodes[0];
    TimedGraph();
    var s0 := Fresh(map[]);
    var s1 := Enter(env, s0, start);
    EnterLog(env, s0, start);
    EnterLog(env, s1, TIMED_NODE);
    assert s1 == s0.(log := [InstanceStarted, NodeActivated("s", Start)]);
    assert Next(env, s0, start) == [TIMED_NODE] by {
      assert Hops(env, s0, start) == [0];
      assert TargetsOf(env, [0])[0] == TargetOf(env, 0);
    }
    var alarm := TIMED_NODE.attachments[0];
    assert [alarm][1..] == [];
    assert AttachmentTimers("t", [alarm], OnActivate) == [Timer("t", "a", AutoComplete, None, false, false)];
    assert AttachmentEvents("t", [alarm], OnActivate) == [AttachedTimerScheduled("t", "a")];
    var s2 := Enter(env, s1, TIMED_NODE);
    assert s2 == TimedStart();
    TwoSteps(env, s0, start, s1, TIMED_NODE, s2);
  }

  /** Two visits of a walk that goes straight through. */
  lemma TwoSteps(env: Env, s0: State, a: Node, s1: State, b: Node, s2: State)
    requires Enter(env, s0, a) == s1 && Next(env, s0, a) == [b]
    requires Enter(env, s1, b) == s2 && Next(env, s1, b) == []
    ensures Drain(env, s0, [a], 2) == Some(s2)
  {
    var enter, next := EnterIn(env), NextIn(env);
    assert enter(s0, a) == s1 && next(s0, a) == [b] && enter(s1, b) == s2 && next(s1, b) == [];
    assert [b] + [a][1..] == [b];
    assert [] + [b][1..] == [];
    assert Run(enter, next, s2, [], 0) == Some(s2);
    assert Run(enter, next, s1, [b], 1) == Some(s2);
  }

  lemma TimedHangs()
    ensures LatestOpen(TimedStart().tasks, "t") == Some(0) && Hangs(TimedTask(), TimedStart(), 0)
  {
    TimedGraph();
  }

  /** The sweep of that instance's timer. */
  lemma TimedSweep() returns (t: State)
    ensures var r := Step(TimedTask(), TimedStart(), DoSweepTimer(0, true), 2);
            r.Some? && r.value.state == t
    ensures t.status == Running && t.active == ["t"] && "t" in t.active && TaskNode(TimedTask(), "t")
    ensures forall i :: 0 <= i < |t.tasks| ==> !IsOpen(t.tasks[i].status)
  {
    TimedGraph();
    TimedHangs();
    t := SweepTimer(TimedTask(), TimedStart(), 0, true).state;
    HangLeaves(TimedTask(), TimedStart(), 0, true);
  }

  /** A run of one call. */
  lemma OneCall(env: Env, ctx: Context, s: State, op: Op, fuel: nat, t: State)
    requires Begin(env, ctx, fuel) == Some(s)
    requires Step(env, s, op, fuel).Some? && Step(env, s, op, fuel).value.state == t
    ensures Exec(env, ctx, [op], fuel) == Some(t)
  {
    var ops := [op];
    assert ops[..|ops| - 1] == [];
    assert Replay(env, s, [], fuel) == Some(s);
    assert Replay(env, s, ops, fuel) == Some(t);
  }

  /** No open task anywhere, and a task node is active. */
  lemma NotLive(env: Env, t: State, id: string)
    requires Alive(t) && id in t.active && TaskNode(env, id)
    requires forall i :: 0 <= i < |t.tasks| ==> !IsOpen(t.tasks[i].status)
    ensures !Live(env, t)
  {
    assert !Served(env, t, id);
  }

  /** One sweep of a started instance strands its only task: the node stays active with nothing
      left to complete, and a run reaches this. */
  lemma AutoCompleteStrands() returns (env: Env, t: State)
    ensures Exec(env, map[], [DoSweepTimer(0, true)], 2) == Some(t)
    ensures t.status == Running && t.active == ["t"] && !Live(env, t)
    ensures forall i :: 0 <= i < |t.tasks| ==> !IsOpen(t.tasks[i].status)
  {
    TimedBegins();
    env := TimedTask();
    t := TimedSweep();
    OneCall(env, map[], TimedStart(), DoSweepTimer(0, true), 2, t);
    NotLive(env, t, "t");
  }
}
