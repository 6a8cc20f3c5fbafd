/** Control is not multiplied: a node is never activated more often than control was handed to it. */
module EngineFlow {
  // One activation per edge out of a node that passed control on or was completed, one per send-back, and
  // one for the start.

  import opened Prelude
  import opened JsonTree
  import opened WorkflowGraph
  import opened Worklist
  import opened Engine
  import opened EngineInduction
  import opened EngineBooks
  import opened EngineCauses
  import opened EngineJoins
  import opened EngineMarking

  // --- What one event hands out ---

  /** Edges below index `hi` from `y` to `x`. */
  function EdgesBelow(env: Env, y: string, x: string, hi: nat): nat
    requires hi <= |env.version.edges|
  {
    if hi == 0 then 0
    else
      var e := env.version.edges[hi - 1];
      EdgesBelow(env, y, x, hi - 1) + if e.source == y && e.target == x then 1 else 0
  }

  function Edges(env: Env, y: string, x: string): nat {
    EdgesBelow(env, y, x, |env.version.edges|)
  }

  /** The decision gate `y` has a default edge to `x`. */
  predicate DefaultsTo(env: Env, y: string, x: string) {
    Lookup(env, y).Some? && IsGateTo(env, Lookup(env, y).value, y, x)
  }

  function AtLeast(a: nat, b: nat): nat {
    if a > b then a else b
  }

  /** How often event `e`, the last of the log, hands control to `x`. */
  ghost function Gives(env: Env, log: seq<Event>, e: Event, x: string): nat {
    match e
    case InstanceStarted => if StartId(env, x) then 1 else 0
    case NodeActivated(y, b) =>
      if b in {Start, ParallelFork, Notification} then Edges(env, y, x)
      else if b == DecisionGate then AtLeast(Edges(env, y, x), if DefaultsTo(env, y, x) then 1 else 0)
      else if b == ParallelJoin && Enough(env, log, y) then Edges(env, y, x)
      else 0
    case NodeCompleted(y) => Edges(env, y, x)
    case TaskSentBack(_, t) => if t == x then 1 else 0
    case ApprovalSentBack(_, t) => if t == x then 1 else 0
    case _ => 0
  }

  ghost function Supply(env: Env, log: seq<Event>, x: string): nat {
    if log == [] then 0 else Supply(env, log[..|log| - 1], x) + Gives(env, log, log[|log| - 1], x)
  }

  function Activations(log: seq<Event>, x: string): nat {
    if log == [] then 0
    else
      var e := log[|log| - 1];
      Activations(log[..|log| - 1], x) + if e.NodeActivated? && e.node == x then 1 else 0
  }

  /** Every activation of `x` in the log used control handed to `x` before, and not used yet. */
  ghost predicate Funded(env: Env, log: seq<Event>, x: string) {
    forall i :: 0 <= i < |log| && log[i].NodeActivated? && log[i].node == x ==>
      Activations(log[..i], x) < Supply(env, log[..i], x)
  }

  function Outstanding(work: seq<Node>, x: string): nat {
    if work == [] then 0 else (if work[0].id == x then 1 else 0) + Outstanding(work[1..], x)
  }

  /** Activations so far and those still due are covered. */
  ghost predicate Funds(env: Env, s: State, work: seq<Node>, x: string) {
    Funded(env, s.log, x) && Activations(s.log, x) + Outstanding(work, x) <= Supply(env, s.log, x)
  }

  // --- Logs that grow ---

  lemma OneMore(env: Env, log: seq<Event>, e: Event, x: string)
    ensures Supply(env, log + [e], x) == Supply(env, log, x) + Gives(env, log + [e], e, x)
    ensures Activations(log + [e], x) == Activations(log, x) + if e.NodeActivated? && e.node == x then 1 else 0
  {
    assert (log + [e])[..|log|] == log;
  }

  lemma OneFunded(env: Env, log: seq<Event>, e: Event, x: string)
    requires Funded(env, log, x)
    requires e.NodeActivated? && e.node == x ==> Activations(log, x) < Supply(env, log, x)
    ensures Funded(env, log + [e], x)
  {
    var all := log + [e];
    forall i | 0 <= i < |all| && all[i].NodeActivated? && all[i].node == x
      ensures Activations(all[..i], x) < Supply(env, all[..i], x)
    {
      assert all[..i] == log[..i];
      assert i == |log| ==> log[..i] == log;
    }
  }

  /** Events that activate nothing only add to what is handed out. */
  lemma {:induction false} QuietFunds(env: Env, log: seq<Event>, more: seq<Event>, x: string)
    requires Funded(env, log, x) && forall e :: e in more ==> !e.NodeActivated?
    ensures Funded(env, log + more, x)
    ensures Activations(log + more, x) == Activations(log, x)
    ensures Supply(env, log + more, x) >= Supply(env, log, x)
    decreases |more|
  {
    if more == [] {
      assert log + more == log;
    } else {
      var less, e := more[..|more| - 1], more[|more| - 1];
      assert e in more;
      assert log + more == (log + less) + [e];
      QuietFunds(env, log, less, x);
      OneMore(env, log + less, e, x);
      OneFunded(env, log + less, e, x);
    }
  }

  // --- Lists of targets ---

  lemma {:induction false} OutstandingConcat(a: seq<Node>, b: seq<Node>, x: string)
    ensures Outstanding(a + b, x) == Outstanding(a, x) + Outstanding(b, x)
  {
    if a == [] {
      assert a + b == b;
    } else {
      assert (a + b)[0] == a[0] && (a + b)[1..] == a[1..] + b;
      OutstandingConcat(a[1..], b, x);
    }
  }

  lemma {:induction false} TargetsConcat(env: Env, ks: seq<nat>, js: seq<nat>)
    requires (forall k :: k in ks ==> HasTarget(env, k)) && (forall k :: k in js ==> HasTarget(env, k))
    ensures TargetsOf(env, ks + js) == TargetsOf(env, ks) + TargetsOf(env, js)
  {
    var all := ks + js;
    forall i | 0 <= i < |all| ensures TargetsOf(env, all)[i] == (TargetsOf(env, ks) + TargetsOf(env, js))[i] {}
  }

  lemma OneOutstanding(n: Node, x: string)
    ensures Outstanding([n], x) == if n.id == x then 1 else 0
  {
    assert [n][1..] == [];
  }

  /** The targets of the enabled edges below `hi`. */
  function Reached(env: Env, ctx: Context, y: string, hi: nat): seq<Node>
    requires hi <= |env.version.edges|
  {
    TargetsOf(env, EnabledBelow(env, ctx, y, hi))
  }

  lemma ReachedNext(env: Env, ctx: Context, y: string, k: nat)
    requires k < |env.version.edges|
    ensures Reached(env, ctx, y, k + 1)
            == Reached(env, ctx, y, k) + if Enabled(env, ctx, y, k) then [TargetOf(env, k)] else []
  {
    var below, last := EnabledBelow(env, ctx, y, k), [k];
    if Enabled(env, ctx, y, k) {
      assert EnabledBelow(env, ctx, y, k + 1) == below + last;
      TargetsConcat(env, below, last);
      assert TargetsOf(env, last) == [TargetOf(env, k)];
    }
  }

  lemma {:induction false} EnabledGive(env: Env, ctx: Context, y: string, x: string, hi: nat)
    requires hi <= |env.version.edges|
    ensures Outstanding(Reached(env, ctx, y, hi), x) <= EdgesBelow(env, y, x, hi)
  {
    if hi == 0 {
      assert Reached(env, ctx, y, hi) == [];
    } else {
      EnabledGive(env, ctx, y, x, hi - 1);
      OneEdgeGives(env, ctx, y, x, hi - 1);
    }
  }

  lemma OneEdgeGives(env: Env, ctx: Context, y: string, x: string, k: nat)
    requires k < |env.version.edges|
    ensures Outstanding(Reached(env, ctx, y, k + 1), x) - Outstanding(Reached(env, ctx, y, k), x)
            <= EdgesBelow(env, y, x, k + 1) - EdgesBelow(env, y, x, k)
  {
    var before := Reached(env, ctx, y, k);
    ReachedNext(env, ctx, y, k);
    if Enabled(env, ctx, y, k) {
      OutstandingConcat(before, [TargetOf(env, k)], x);
      OneOutstanding(TargetOf(env, k), x);
    } else {
      assert before + [] == before;
    }
  }

  lemma PickedGive(env: Env, ctx: Context, y: string, x: string)
    ensures Outstanding(PickTargets(env, ctx, y), x) <= Edges(env, y, x)
  {
    EnabledGive(env, ctx, y, x, |env.version.edges|);
  }

  /** A gate falls back to its default edge at most. */
  lemma GateGives(env: Env, s: State, n: Node, x: string)
    requires Found(env, n) && BaseOf(env, n) == DecisionGate
    ensures Outstanding(Next(env, s, n), x) <= AtLeast(Edges(env, n.id, x), if DefaultsTo(env, n.id, x) then 1 else 0)
  {
    PickedGive(env, s.context, n.id, x);
    if EnabledEdges(env, s.context, n.id) == [] && DefaultEdge(env, n).Some? {
      var k := DefaultEdge(env, n).value;
      assert [k][1..] == [];
      assert Next(env, s, n) == [TargetOf(env, k)];
      OneOutstanding(TargetOf(env, k), x);
      assert Lookup(env, n.id) == Some(n);
    }
  }

  lemma JoinGives(env: Env, s: State, n: Node, x: string)
    requires MetaOk(env, s) && Found(env, n) && BaseOf(env, n) == ParallelJoin
    ensures Outstanding(Next(env, s, n), x)
            <= if Enough(env, s.log + [NodeActivated(n.id, ParallelJoin)], n.id) then Edges(env, n.id, x) else 0
  {
    ForwardsExactly(env, s, n);
    if Forwards(env, s.metadata, n.id) {
      assert Next(env, s, n) == PickTargets(env, s.context, n.id);
      PickedGive(env, s.context, n.id, x);
    } else {
      assert Next(env, s, n) == [];
    }
  }

  lemma PlainGives(env: Env, s: State, n: Node, x: string)
    requires BaseOf(env, n) !in {DecisionGate, ParallelJoin}
    ensures Outstanding(Next(env, s, n), x)
            <= if BaseOf(env, n) in {Start, ParallelFork, Notification} then Edges(env, n.id, x) else 0
  {
    if BaseOf(env, n) in {Start, ParallelFork, Notification} {
      assert Next(env, s, n) == PickTargets(env, s.context, n.id);
      PickedGive(env, s.context, n.id, x);
    } else {
      assert Next(env, s, n) == [];
    }
  }

  lemma GivesByBase(env: Env, log: seq<Event>, y: string, b: BaseType, x: string, c: int)
    requires b in {Start, ParallelFork, Notification} ==> c <= Edges(env, y, x)
    requires b == DecisionGate ==> c <= AtLeast(Edges(env, y, x), if DefaultsTo(env, y, x) then 1 else 0)
    requires b == ParallelJoin ==> c <= if Enough(env, log, y) then Edges(env, y, x) else 0
    requires b !in {Start, ParallelFork, Notification, DecisionGate, ParallelJoin} ==> c <= 0
    ensures c <= Gives(env, log, NodeActivated(y, b), x)
  {}

  /** What a node leads to is what its activation event hands out. */
  lemma NextGive(env: Env, s: State, n: Node, x: string)
    requires Told(env, s) && Found(env, n)
    ensures var e := NodeActivated(n.id, BaseOf(env, n));
            Outstanding(Next(env, s, n), x) <= Gives(env, s.log + [e], e, x)
  {
    var b, c := BaseOf(env, n), Outstanding(Next(env, s, n), x);
    if b == DecisionGate {
      GateGives(env, s, n, x);
    } else if b == ParallelJoin {
      JoinGives(env, s, n, x);
    } else {
      PlainGives(env, s, n, x);
    }
    GivesByBase(env, s.log + [NodeActivated(n.id, b)], n.id, b, x, c);
  }

  // --- One visit ---

  lemma EnterFunds(env: Env, s: State, n: Node, rest: seq<Node>, x: string)
    requires Told(env, s) && Found(env, n) && Funds(env, s, [n] + rest, x)
    ensures Funds(env, Enter(env, s, n), Next(env, s, n) + rest, x)
  {
    var e := NodeActivated(n.id, BaseOf(env, n));
    EnterLog(env, s, n);
    OutstandingConcat([n], rest, x);
    OneOutstanding(n, x);
    OutstandingConcat(Next(env, s, n), rest, x);
    NextGive(env, s, n, x);
    OneMore(env, s.log, e, x);
    OneFunded(env, s.log, e, x);
    TailQuiet(env, n);
    QuietFunds(env, s.log + [e], EnterTail(env, n), x);
  }

  lemma TailQuiet(env: Env, n: Node)
    ensures forall q :: q in EnterTail(env, n) ==> !q.NodeActivated?
  {
    QuietHooks(n.id, n.attachments, OnActivate);
  }

  ghost function FundsIn(env: Env, x: string): (State, seq<Node>) -> bool {
    (s, work) => Told(env, s) && Due(env, s.log, work) && Funds(env, s, work, x)
  }

  lemma VisitFunds(env: Env, s: State, w: seq<Node>, x: string)
    requires w != [] && FundsIn(env, x)(s, w)
    ensures FundsIn(env, x)(Enter(env, s, w[0]), Next(env, s, w[0]) + w[1..])
  {
    StepWork(env, s, w);
    assert w[0] in w && w == [w[0]] + w[1..];
    EnterFunds(env, s, w[0], w[1..], x);
  }

  lemma DrainFunds(env: Env, s: State, work: seq<Node>, fuel: nat, x: string)
    requires Told(env, s) && Due(env, s.log, work) && Funds(env, s, work, x) && Drain(env, s, work, fuel).Some?
    ensures Funds(env, Drain(env, s, work, fuel).value, [], x)
  {
    var inv := FundsIn(env, x);
    forall y: State, w: seq<Node> | w != [] && inv(y, w)
      ensures inv(EnterIn(env)(y, w[0]), NextIn(env)(y, w[0]) + w[1..])
    {
      VisitFunds(env, y, w, x);
    }
    KeepsWork(EnterIn(env), NextIn(env), s, work, fuel, inv);
  }

  // --- Calls ---

  lemma StillFunds(env: Env, s: State, t: State, more: seq<Event>, x: string)
    requires Funds(env, s, [], x) && t.log == s.log + more && forall e :: e in more ==> !e.NodeActivated?
    ensures Funds(env, t, [], x)
  {
    QuietFunds(env, s.log, more, x);
  }

  /** Events that hand control to the listed nodes, and activate nothing yet. */
  lemma HandOut(env: Env, s: State, t: State, e: Event, more: seq<Event>, work: seq<Node>, x: string)
    requires Funds(env, s, [], x) && !e.NodeActivated? && forall q :: q in more ==> !q.NodeActivated?
    requires t.log == s.log + [e] + more && Outstanding(work, x) <= Gives(env, s.log + [e], e, x)
    ensures Funds(env, t, work, x)
  {
    OneMore(env, s.log, e, x);
    OneFunded(env, s.log, e, x);
    QuietFunds(env, s.log + [e], more, x);
  }

  lemma DepartLog(env: Env, s: State, n: Node, output: Context)
    ensures Depart(env, s, n, output).log
            == s.log + [NodeCompleted(n.id)] + AttachmentEvents(n.id, n.attachments, OnComplete)
  {}

  lemma AdvanceFunds(env: Env, s: State, id: string, output: Context, fuel: nat, x: string)
    requires Told(env, s) && Funds(env, s, [], x) && BaseAt(env, id, {HumanTask, FormFill, ApprovalGate})
    requires Advance(env, s, id, output, fuel).Some?
    ensures Funds(env, Advance(env, s, id, output, fuel).value, [], x)
  {
    if s.status == Running {
      var n := Lookup(env, id).value;
      var s1 := Depart(env, s, n, output);
      var ns := PickTargets(env, s1.context, id);
      DepartTold(env, s, n, output);
      PickedDue(env, s, n, output);
      QuietHooks(n.id, n.attachments, OnComplete);
      PickedGive(env, s1.context, id, x);
      DepartLog(env, s, n, output);
      HandOut(env, s, s1, NodeCompleted(id), AttachmentEvents(n.id, n.attachments, OnComplete), ns, x);
      DrainFunds(env, s1, ns, fuel, x);
    }
  }

  lemma RewindFunds(env: Env, s: State, source: string, target: string, e: Event, fuel: nat, x: string)
    requires Told(env, s) && Funds(env, s, [], x) && ValidTarget(env, target) && SentBackEvent(e, source, target)
    requires Drain(env, Rewind(env, s, source, target, e), [Lookup(env, target).value], fuel).Some?
    ensures Funds(env, Drain(env, Rewind(env, s, source, target, e), [Lookup(env, target).value], fuel).value, [], x)
  {
    var s1 := Rewind(env, s, source, target, e);
    var n := Lookup(env, target).value;
    RewoundTold(env, s, source, target, e);
    assert Cause(env, s1.log, |s.log|, target);
    OneOutstanding(n, x);
    assert s1.log == s.log + [e] + [];
    HandOut(env, s, s1, e, [], [n], x);
    DrainFunds(env, s1, [n], fuel, x);
  }

  lemma CompleteFunds(env: Env, s: State, i: nat, formData: Option<Context>, output: Option<Context>, fuel: nat,
                      x: string)
    requires Told(env, s) && RowsGrounded(env, s) && Funds(env, s, [], x)
    requires CompleteTask(env, s, i, formData, output, fuel).Some?
    ensures Funds(env, CompleteTask(env, s, i, formData, output, fuel).value.state, [], x)
  {
    if i < |s.tasks| && IsOpen(s.tasks[i].status) && (IsBlockingSide(s.tasks[i]) || s.status != Paused) {
      var s1 := Finish(s, i);
      QuietTold(env, s, s1, [TaskCompleted(s.tasks[i].where)]);
      StillFunds(env, s, s1, [TaskCompleted(s.tasks[i].where)], x);
      if s.tasks[i].where.Graph? {
        AdvanceFunds(env, s1, s.tasks[i].where.id, OutputOf(formData, output), fuel, x);
      } else {
        StillFunds(env, s1, Resume(s1), if s1.status == Paused then [InstanceResumed] else [], x);
      }
    }
  }

  lemma DecideFunds(env: Env, s: State, i: nat, d: ApprovalStatus, conditions: Option<string>,
                    notes: Option<string>, fuel: nat, x: string)
    requires Told(env, s) && RowsGrounded(env, s) && Funds(env, s, [], x)
    requires Decide(env, s, i, d, conditions, notes, fuel).Some?
    ensures Funds(env, Decide(env, s, i, d, conditions, notes, fuel).value.state, [], x)
  {
    if i < |s.approvals| && s.approvals[i].status == Pending && s.status != Paused {
      var a := s.approvals[i];
      var s1 := Emit(s.(approvals := s.approvals[i := a.(status := d)]), ApprovalDecided(a.node, d));
      QuietTold(env, s, s1, [ApprovalDecided(a.node, d)]);
      StillFunds(env, s, s1, [ApprovalDecided(a.node, d)], x);
      if Settles(d) {
        AdvanceFunds(env, s1, a.node, DecisionOutput(d, conditions, notes), fuel, x);
      }
    }
  }

  lemma TaskBackFunds(env: Env, s: State, i: nat, target: string, fuel: nat, x: string)
    requires Told(env, s) && Funds(env, s, [], x) && SendBackTask(env, s, i, target, fuel).Some?
    ensures Funds(env, SendBackTask(env, s, i, target, fuel).value.state, [], x)
  {
    if i < |s.tasks| && IsOpen(s.tasks[i].status) && s.status != Paused && ValidTarget(env, target) {
      var t := s.tasks[i];
      var s1 := CloseTask(s, i, SentBack(target));
      assert s1.log == s.log + [];
      QuietTold(env, s, s1, []);
      RewindFunds(env, s1, t.where.id, target, TaskSentBack(t.where, target), fuel, x);
    }
  }

  lemma ApprovalBackFunds(env: Env, s: State, i: nat, target: string, fuel: nat, x: string)
    requires Told(env, s) && Funds(env, s, [], x) && SendBackApproval(env, s, i, target, fuel).Some?
    ensures Funds(env, SendBackApproval(env, s, i, target, fuel).value.state, [], x)
  {
    if i < |s.approvals| && s.approvals[i].status == Pending && s.status != Paused && ValidTarget(env, target) {
      var a := s.approvals[i];
      var s1 := s.(approvals := s.approvals[i := a.(status := NeedsMoreInformation, sentBackTo := Some(target))]);
      assert s1.log == s.log + [];
      QuietTold(env, s, s1, []);
      RewindFunds(env, s1, a.node, target, ApprovalSentBack(a.node, target), fuel, x);
    }
  }

  lemma MoveFunds(env: Env, s: State, op: Op, fuel: nat, x: string)
    requires Told(env, s) && RowsGrounded(env, s) && Funds(env, s, [], x) && MovesOn(op) && Step(env, s, op, fuel).Some?
    ensures Funds(env, Step(env, s, op, fuel).value.state, [], x)
  {
    match op {
      case DoComplete(i, formData, output) =>
        assert Step(env, s, op, fuel) == CompleteTask(env, s, i, formData, output, fuel);
        CompleteFunds(env, s, i, formData, output, fuel, x);
      case DoDecide(i, d, conditions, notes) =>
        assert Step(env, s, op, fuel) == Decide(env, s, i, d, conditions, notes, fuel);
        DecideFunds(env, s, i, d, conditions, notes, fuel, x);
      case DoSendBackTask(i, target) =>
        assert Step(env, s, op, fuel) == SendBackTask(env, s, i, target, fuel);
        TaskBackFunds(env, s, i, target, fuel, x);
      case DoSendBackApproval(i, target) =>
        assert Step(env, s, op, fuel) == SendBackApproval(env, s, i, target, fuel);
        ApprovalBackFunds(env, s, i, target, fuel, x);
    }
  }

  lemma StepFunds(env: Env, s: State, op: Op, fuel: nat, x: string)
    requires Told(env, s) && RowsGrounded(env, s) && Funds(env, s, [], x) && Step(env, s, op, fuel).Some?
    ensures Funds(env, Step(env, s, op, fuel).value.state, [], x)
  {
    if MovesOn(op) {
      MoveFunds(env, s, op, fuel, x);
    } else {
      var t := Step(env, s, op, fuel).value.state;
      OtherQuiet(env, s, op, fuel);
      StillFunds(env, s, t, t.log[|s.log|..], x);
    }
  }

  lemma {:induction false} ReplayFunds(env: Env, s: State, ops: seq<Op>, fuel: nat, x: string)
    requires Told(env, s) && Marking(env, s, {}) && Funds(env, s, [], x) && Replay(env, s, ops, fuel).Some?
    ensures Funds(env, Replay(env, s, ops, fuel).value, [], x)
    decreases |ops|
  {
    if ops != [] {
      var before := ops[..|ops| - 1];
      ReplayFunds(env, s, before, fuel, x);
      ReplayTold(env, s, before, fuel);
      ReplayMarking(env, s, before, fuel);
      StepFunds(env, Replay(env, s, before, fuel).value, ops[|ops| - 1], fuel, x);
    }
  }

  /** In every run, at every activation of every node, fewer activations lie before it than control was
      handed to the node before: one per edge from a node that passed control on or was completed, one per
      send-back to it, one for the start. So its activations never outnumber them. */
  lemma RunFunds(env: Env, ctx: Context, ops: seq<Op>, fuel: nat, x: string)
    requires Exec(env, ctx, ops, fuel).Some? && (env.nestedRead ==> Repaired(env))
    ensures var log := Exec(env, ctx, ops, fuel).value.log;
            Funded(env, log, x) && Activations(log, x) <= Supply(env, log, x)
  {
    var start := StartNode(env.version.nodes).value;
    var s := Fresh(ctx);
    assert AllGood(FoundIn(env), [start]);
    DrainMarking(env, s, [start], fuel, {});
    FreshTold(env, ctx);
    assert Cause(env, s.log, 0, start.id);
    FreshFunds(env, ctx, start, x);
    DrainTold(env, s, [start], fuel);
    DrainFunds(env, s, [start], fuel, x);
    ReplayFunds(env, Begin(env, ctx, fuel).value, ops, fuel, x);
  }

  lemma FreshFunds(env: Env, ctx: Context, start: Node, x: string)
    requires StartNode(env.version.nodes) == Some(start)
    ensures Funds(env, Fresh(ctx), [start], x)
  {
    var none: seq<Event> := [];
    assert Fresh(ctx).log == none + [InstanceStarted];
    OneMore(env, none, InstanceStarted, x);
    OneOutstanding(start, x);
  }
}
