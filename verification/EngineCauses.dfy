/** No node is activated out of nowhere: every NODE_ACTIVATED event has an earlier cause in the log. */
module EngineCauses {
  // In particular a node fed only by joins with two or more incoming edges never starts.

  import opened Prelude
  import opened JsonTree
  import opened WorkflowGraph
  import opened Worklist
  import opened Engine
  import opened EngineInduction
  import opened EngineBooks
  import opened EngineMarking
  import opened EngineJoins

  /** An edge leads from `y` to `x`. */
  ghost predicate EdgeTo(env: Env, y: string, x: string) {
    exists k: nat :: k < |env.version.edges| && env.version.edges[k].source == y && env.version.edges[k].target == x
  }

  /** A decision gate with id `y` falls back to `x`. */
  ghost predicate FallsTo(env: Env, y: string, x: string) {
    exists n: Node :: IsGateTo(env, n, y, x)
  }

  predicate IsGateTo(env: Env, n: Node, y: string, x: string) {
    && Found(env, n) && n.id == y && BaseOf(env, n) == DecisionGate
    && DefaultEdge(env, n).Some? && env.version.edges[DefaultEdge(env, n).value].target == x
  }

  predicate StartId(env: Env, y: string) {
    StartNode(env.version.nodes).Some? && StartNode(env.version.nodes).value.id == y
  }

  /** One event on the arrivals at `j`: an activation adds one, a send-back across `j` forgets all. */
  ghost function Counting(env: Env, before: nat, e: Event, j: string): nat {
    match e
    case NodeActivated(y, b) => if y == j && b == ParallelJoin then before + 1 else before
    case TaskSentBack(w, target) => if JoinBetween(env.version, target, w.id, j) then 0 else before
    case ApprovalSentBack(source, target) => if JoinBetween(env.version, target, source, j) then 0 else before
    case _ => before
  }

  /** Activations of the join `j` since the start or the last send-back across it, by the log alone. */
  ghost function ArrivalsIn(env: Env, log: seq<Event>, j: string): nat {
    if log == [] then 0
    else Counting(env, ArrivalsIn(env, log[..|log| - 1], j), log[|log| - 1], j)
  }

  lemma ArrivalsOne(env: Env, log: seq<Event>, e: Event, j: string)
    ensures ArrivalsIn(env, log + [e], j) == Counting(env, ArrivalsIn(env, log, j), e, j)
  {
    assert (log + [e])[..|log|] == log;
  }

  lemma {:induction false} ArrivalsQuiet(env: Env, log: seq<Event>, more: seq<Event>, j: string)
    requires forall e :: e in more ==> MovesNobody(e)
    ensures ArrivalsIn(env, log + more, j) == ArrivalsIn(env, log, j)
    decreases |more|
  {
    if more == [] {
      assert log + more == log;
    } else {
      var less, e := more[..|more| - 1], more[|more| - 1];
      assert e in more;
      assert log + more == (log + less) + [e];
      ArrivalsQuiet(env, log, less, j);
      ArrivalsOne(env, log + less, e, j);
    }
  }

  /** When a join forwards: as written only with at most one incoming edge, with the repaired read
      once its arrivals since the start or its last reset are as many as its incoming edges. */
  ghost predicate Enough(env: Env, log: seq<Event>, y: string) {
    if env.nestedRead then Incoming(env, y) <= ArrivalsIn(env, log, y) else Incoming(env, y) <= 1
  }

  /** Event `k` of the log explains an activation of `x` after it. */
  ghost predicate Cause(env: Env, log: seq<Event>, k: nat, x: string) {
    k < |log| &&
    match log[k]
    case InstanceStarted => StartId(env, x)
    case NodeActivated(y, b) =>
      || (b in {Start, ParallelFork, Notification, DecisionGate} && EdgeTo(env, y, x))
      || (b == DecisionGate && FallsTo(env, y, x))
      || (b == ParallelJoin && EdgeTo(env, y, x) && Enough(env, log[..k + 1], y))
    case NodeCompleted(y) => EdgeTo(env, y, x)
    case TaskSentBack(_, t) => t == x
    case ApprovalSentBack(_, t) => t == x
    case _ => false
  }

  ghost predicate Caused(env: Env, log: seq<Event>, x: string) {
    exists k :: Cause(env, log, k, x)
  }

  /** Every activation in the log was caused by then. */
  ghost predicate AllCaused(env: Env, log: seq<Event>) {
    forall i :: 0 <= i < |log| && log[i].NodeActivated? ==> Caused(env, log[..i], log[i].node)
  }

  /** Activations carry the base type of their node, and only work nodes complete. */
  ghost predicate LogGrounded(env: Env, log: seq<Event>) {
    && (forall i :: 0 <= i < |log| && log[i].NodeActivated? ==>
          (log[i].base == Start && StartId(env, log[i].node)) || BaseAt(env, log[i].node, {log[i].base}))
    && (forall i :: 0 <= i < |log| && log[i].NodeCompleted? ==>
          BaseAt(env, log[i].node, {HumanTask, FormFill, ApprovalGate}))
  }

  /** Every join counter holds the arrivals the log tells of. */
  ghost predicate CountersTrue(env: Env, s: State) {
    forall j :: PlainKey(j) ==> Arrivals(env, s.metadata, j) == ArrivalsIn(env, s.log, j)
  }

  /** The metadata supports the reading of `Enough`. */
  ghost predicate MetaOk(env: Env, s: State) {
    if env.nestedRead then Repaired(env) && CountersTrue(env, s) else OwnKeys(s)
  }

  lemma CausedLater(env: Env, log: seq<Event>, more: seq<Event>, x: string)
    requires Caused(env, log, x)
    ensures Caused(env, log + more, x)
  {
    var k :| Cause(env, log, k, x);
    assert (log + more)[..k + 1] == log[..k + 1];
    assert Cause(env, log + more, k, x);
  }

  /** Appending events that activate nothing. */
  lemma QuietCaused(env: Env, log: seq<Event>, more: seq<Event>)
    requires AllCaused(env, log) && forall e :: e in more ==> !e.NodeActivated?
    ensures AllCaused(env, log + more)
  {
    var all := log + more;
    assert forall i :: |log| <= i < |all| ==> all[i] in more;
    forall i | 0 <= i < |all| && all[i].NodeActivated? ensures Caused(env, all[..i], all[i].node) {
      assert i < |log|;
      assert all[..i] == log[..i];
    }
  }

  lemma OneCaused(env: Env, log: seq<Event>, e: Event)
    requires AllCaused(env, log) && (e.NodeActivated? ==> Caused(env, log, e.node))
    ensures AllCaused(env, log + [e])
  {
    var all := log + [e];
    forall i | 0 <= i < |all| && all[i].NodeActivated? ensures Caused(env, all[..i], all[i].node) {
      assert all[..i] == log[..i];
      if i == |log| { assert log[..i] == log; }
    }
  }

  lemma GroundedMore(env: Env, log: seq<Event>, more: seq<Event>)
    requires LogGrounded(env, log)
    requires forall e :: e in more ==>
               && (e.NodeActivated? ==> (e.base == Start && StartId(env, e.node)) || BaseAt(env, e.node, {e.base}))
               && (e.NodeCompleted? ==> BaseAt(env, e.node, {HumanTask, FormFill, ApprovalGate}))
    ensures LogGrounded(env, log + more)
  {
    var all := log + more;
    forall i | 0 <= i < |all|
      ensures all[i].NodeActivated? ==>
                (all[i].base == Start && StartId(env, all[i].node)) || BaseAt(env, all[i].node, {all[i].base})
      ensures all[i].NodeCompleted? ==> BaseAt(env, all[i].node, {HumanTask, FormFill, ApprovalGate})
    {
      if i >= |log| { assert all[i] in more; }
    }
  }

  ghost predicate Told(env: Env, s: State) {
    AllCaused(env, s.log) && LogGrounded(env, s.log) && MetaOk(env, s)
  }

  ghost predicate Due(env: Env, log: seq<Event>, work: seq<Node>) {
    forall n :: n in work ==> Found(env, n) && Caused(env, log, n.id)
  }

  lemma EnterArrivals(env: Env, s: State, n: Node, j: string)
    ensures ArrivalsIn(env, Enter(env, s, n).log, j)
            == ArrivalsIn(env, s.log, j) + (if BaseOf(env, n) == ParallelJoin && n.id == j then 1 else 0)
  {
    var e := NodeActivated(n.id, BaseOf(env, n));
    EnterLog(env, s, n);
    QuietHooks(n.id, n.attachments, OnActivate);
    assert forall q :: q in EnterTail(env, n) ==> MovesNobody(q);
    ArrivalsOne(env, s.log, e, j);
    ArrivalsQuiet(env, s.log + [e], EnterTail(env, n), j);
  }

  lemma EnterMetaOk(env: Env, s: State, n: Node)
    requires MetaOk(env, s) && Found(env, n)
    ensures MetaOk(env, Enter(env, s, n))
  {
    if env.nestedRead {
      forall j | PlainKey(j)
        ensures Arrivals(env, Enter(env, s, n).metadata, j) == ArrivalsIn(env, Enter(env, s, n).log, j)
      {
        EnterCounts(env, s, n, j);
        JoinEventsAfter(env, s, n, j);
        EnterArrivals(env, s, n, j);
      }
    } else {
      EnterKeys(env, s, n);
    }
  }

  lemma EnterTold(env: Env, s: State, n: Node)
    requires Told(env, s) && Found(env, n) && Caused(env, s.log, n.id)
    ensures Told(env, Enter(env, s, n))
  {
    var e := NodeActivated(n.id, BaseOf(env, n));
    EnterLog(env, s, n);
    QuietHooks(n.id, n.attachments, OnActivate);
    OneCaused(env, s.log, e);
    var tail := EnterTail(env, n);
    assert forall q :: q in tail ==> Quiet(q) && !q.NodeCompleted? by {
      NoCompletions(n.id, n.attachments, OnActivate);
      QuietAttachments(n.id, n.attachments, OnActivate);
    }
    QuietCaused(env, s.log + [e], tail);
    GroundedMore(env, s.log, [e]);
    GroundedMore(env, s.log + [e], tail);
    EnterMetaOk(env, s, n);
  }

  lemma {:induction false} NoCompletions(id: string, atts: seq<Attachment>, trigger: Trigger)
    ensures forall e :: e in AttachmentEvents(id, atts, trigger) ==> !e.NodeCompleted?
  {
    if atts != [] {
      NoCompletions(id, atts[1..], trigger);
    }
  }

  /** A join forwards exactly when it has been activated often enough, this time included. */
  lemma ForwardsExactly(env: Env, s: State, n: Node)
    requires MetaOk(env, s) && Found(env, n) && BaseOf(env, n) == ParallelJoin
    ensures Forwards(env, s.metadata, n.id) <==> Enough(env, s.log + [NodeActivated(n.id, ParallelJoin)], n.id)
    ensures Forwards(env, s.metadata, n.id)
            <==> |set k: nat | k < |env.version.edges| && env.version.edges[k].target == n.id|
                 <= if env.nestedRead then ArrivalsIn(env, s.log, n.id) + 1 else 1
  {
    IncomingCounts(env, n.id);
    if env.nestedRead {
      ArrivalsOne(env, s.log, NodeActivated(n.id, ParallelJoin), n.id);
      assert PlainKey(n.id);
    } else {
      FlatReadMisses(env, s, n.id);
    }
  }

  lemma HopCause(env: Env, s: State, n: Node, k: nat)
    requires Told(env, s) && Found(env, n) && k in Hops(env, s, n)
    ensures Cause(env, Enter(env, s, n).log, |s.log|, env.version.edges[k].target)
  {
    var b := BaseOf(env, n);
    var x := env.version.edges[k].target;
    EnterLog(env, s, n);
    var log' := Enter(env, s, n).log;
    assert log'[|s.log|] == NodeActivated(n.id, b);
    assert log'[..|s.log| + 1] == s.log + [NodeActivated(n.id, b)];
    if k in EnabledEdges(env, s.context, n.id) {
      assert EdgeTo(env, n.id, x);
      if b == ParallelJoin {
        ForwardsExactly(env, s, n);
      }
    } else {
      assert IsGateTo(env, n, n.id, x);
    }
  }

  /** What a node leads to is caused by its activation event. */
  lemma NextDue(env: Env, s: State, n: Node)
    requires Told(env, s) && Found(env, n)
    ensures Due(env, Enter(env, s, n).log, Next(env, s, n))
  {
    var ks := Hops(env, s, n);
    var ns := Next(env, s, n);
    forall m | m in ns ensures Found(env, m) && Caused(env, Enter(env, s, n).log, m.id) {
      var i :| 0 <= i < |ns| && ns[i] == m;
      assert ks[i] in ks;
      assert m == TargetOf(env, ks[i]);
      HopCause(env, s, n, ks[i]);
    }
  }

  ghost function ToldIn(env: Env): (State, seq<Node>) -> bool {
    (s, work) => Told(env, s) && Due(env, s.log, work)
  }

  lemma DrainTold(env: Env, s: State, work: seq<Node>, fuel: nat)
    requires Told(env, s) && Due(env, s.log, work) && Drain(env, s, work, fuel).Some?
    ensures Told(env, Drain(env, s, work, fuel).value)
  {
    var inv := ToldIn(env);
    forall x: State, w: seq<Node> | w != [] && inv(x, w)
      ensures inv(EnterIn(env)(x, w[0]), NextIn(env)(x, w[0]) + w[1..])
    {
      StepWork(env, x, w);
    }
    KeepsWork(EnterIn(env), NextIn(env), s, work, fuel, inv);
  }

  lemma StillDue(env: Env, x: State, n: Node, rest: seq<Node>)
    requires Due(env, x.log, rest)
    ensures Due(env, Enter(env, x, n).log, rest)
  {
    EnterLog(env, x, n);
    var more := [NodeActivated(n.id, BaseOf(env, n))] + EnterTail(env, n);
    assert Enter(env, x, n).log == x.log + more;
    forall m | m in rest ensures Found(env, m) && Caused(env, x.log + more, m.id) {
      CausedLater(env, x.log, more, m.id);
    }
  }

  lemma StepWork(env: Env, x: State, w: seq<Node>)
    requires w != [] && Told(env, x) && Due(env, x.log, w)
    ensures Told(env, Enter(env, x, w[0])) && Due(env, Enter(env, x, w[0]).log, Next(env, x, w[0]) + w[1..])
  {
    assert w[0] in w;
    EnterTold(env, x, w[0]);
    NextDue(env, x, w[0]);
    assert Due(env, x.log, w[1..]);
    StillDue(env, x, w[0], w[1..]);
  }

  // --- Calls ---

  /** Events that are neither activations nor completions, over unchanged metadata. */
  lemma QuietTold(env: Env, a: State, b: State, more: seq<Event>)
    requires Told(env, a) && b.log == a.log + more && b.metadata == a.metadata
    requires forall e :: e in more ==> MovesNobody(e)
    requires forall e :: e in more && e.NodeCompleted? ==> BaseAt(env, e.node, {HumanTask, FormFill, ApprovalGate})
    ensures Told(env, b)
  {
    QuietCaused(env, a.log, more);
    GroundedMore(env, a.log, more);
    if env.nestedRead {
      forall j | PlainKey(j) ensures Arrivals(env, b.metadata, j) == ArrivalsIn(env, b.log, j) {
        ArrivalsQuiet(env, a.log, more, j);
      }
    }
  }

  lemma DepartTold(env: Env, s: State, n: Node, output: Context)
    requires Told(env, s) && BaseAt(env, n.id, {HumanTask, FormFill, ApprovalGate})
    ensures Told(env, Depart(env, s, n, output))
  {
    QuietHooks(n.id, n.attachments, OnComplete);
    NoCompletions(n.id, n.attachments, OnComplete);
    QuietTold(env, s, Depart(env, s, n, output), DepartEvents(n));
  }

  /** What completed work leads to is caused by its completion. */
  lemma PickedDue(env: Env, s: State, n: Node, output: Context)
    ensures var s1 := Depart(env, s, n, output);
            Due(env, s1.log, PickTargets(env, s1.context, n.id))
  {
    var s1 := Depart(env, s, n, output);
    var ks := EnabledEdges(env, s1.context, n.id);
    var ns := PickTargets(env, s1.context, n.id);
    PickedFound(env, s1.context, n.id);
    forall m | m in ns ensures Found(env, m) && Caused(env, s1.log, m.id) {
      var i :| 0 <= i < |ns| && ns[i] == m;
      assert FoundIn(env)(m);
      assert ks[i] in ks;
      assert EdgeTo(env, n.id, m.id);
      assert s1.log[|s.log|] == NodeCompleted(n.id);
      assert Cause(env, s1.log, |s.log|, m.id);
    }
  }

  lemma AdvanceTold(env: Env, s: State, id: string, output: Context, fuel: nat)
    requires Told(env, s) && BaseAt(env, id, {HumanTask, FormFill, ApprovalGate})
    requires Advance(env, s, id, output, fuel).Some?
    ensures Told(env, Advance(env, s, id, output, fuel).value)
  {
    if s.status == Running {
      var n := Lookup(env, id).value;
      var s1 := Depart(env, s, n, output);
      DepartTold(env, s, n, output);
      PickedDue(env, s, n, output);
      DrainTold(env, s1, PickTargets(env, s1.context, id), fuel);
    }
  }

  /** The event of a send-back from `source` to `target`. */
  predicate SentBackEvent(e: Event, source: string, target: string) {
    || (e.TaskSentBack? && e.where.id == source && e.target == target)
    || (e.ApprovalSentBack? && e.node == source && e.target == target)
  }

  /** The state between the reset and the activation of the target. */
  lemma RewoundTold(env: Env, s: State, source: string, target: string, e: Event)
    requires Told(env, s) && SentBackEvent(e, source, target)
    ensures Told(env, Rewind(env, s, source, target, e))
  {
    var s1 := Rewind(env, s, source, target, e);
    assert s1.log == s.log + [e];
    QuietCaused(env, s.log, [e]);
    GroundedMore(env, s.log, [e]);
    if env.nestedRead {
      RewoundCounters(env, s, source, target, e);
    }
  }

  lemma RewoundCounters(env: Env, s: State, source: string, target: string, e: Event)
    requires Repaired(env) && CountersTrue(env, s) && SentBackEvent(e, source, target)
    ensures CountersTrue(env, Rewind(env, s, source, target, e))
  {
    var s1 := Rewind(env, s, source, target, e);
    forall j | PlainKey(j) ensures Arrivals(env, s1.metadata, j) == ArrivalsIn(env, s1.log, j) {
      ResetCounter(env, s.metadata, target, source, j);
      ArrivalsOne(env, s.log, e, j);
    }
  }

  lemma RewindTold(env: Env, s: State, source: string, target: string, e: Event, fuel: nat)
    requires Told(env, s) && ValidTarget(env, target) && SentBackEvent(e, source, target)
    requires Drain(env, Rewind(env, s, source, target, e), [Lookup(env, target).value], fuel).Some?
    ensures Told(env, Drain(env, Rewind(env, s, source, target, e), [Lookup(env, target).value], fuel).value)
  {
    var s1 := Rewind(env, s, source, target, e);
    RewoundTold(env, s, source, target, e);
    assert Cause(env, s1.log, |s.log|, target);
    DrainTold(env, s1, [Lookup(env, target).value], fuel);
  }

  lemma TimerTold(env: Env, s: State, i: nat)
    requires Told(env, s) && RowsGrounded(env, s) && i < |s.tasks|
    ensures Told(env, CompleteByTimer(env, s, i).state)
  {
    var t := CompleteByTimer(env, s, i).state;
    var w := s.tasks[i].where;
    if CompleteByTimer(env, s, i).reply == Blocked {
      var n := Lookup(env, w.id).value;
      QuietHooks(n.id, n.attachments, OnComplete);
      NoCompletions(n.id, n.attachments, OnComplete);
      QuietTold(env, s, t, [TaskCompleted(w), NodeCompleted(w.id)] + AttachmentEvents(n.id, n.attachments, OnComplete));
    } else if t != s {
      if t.log == s.log + [TaskCompleted(w)] { QuietTold(env, s, t, [TaskCompleted(w)]); }
      else { QuietTold(env, s, t, [TaskCompleted(w), InstanceResumed]); }
    }
  }

  lemma FireTold(env: Env, s: State, k: nat, delivered: bool)
    requires Told(env, s) && RowsGrounded(env, s) && k < |s.timers|
    ensures Told(env, FireOne(env, s, k, delivered).state)
  {
    var row := s.timers[k];
    var s1 := Emit(s, AttachedTimerFired(row.node, k));
    QuietTold(env, s, s1, [AttachedTimerFired(row.node, k)]);
    var open := LatestOpen(s.tasks, row.node);
    if row.action == AutoComplete && open.Some? {
      TimerTold(env, s1, open.value);
    } else if row.action == Escalate && open.Some? && row.escalateTo.Some? {
      QuietTold(env, s1, FireOne(env, s, k, delivered).state, [TaskReassigned(s.tasks[open.value].where)]);
    }
  }

  lemma SweepTold(env: Env, s: State, k: nat, delivered: bool)
    requires Told(env, s) && RowsGrounded(env, s)
    ensures Told(env, SweepTimer(env, s, k, delivered).state)
  {
    if k < |s.timers| && Armed(s.timers[k]) {
      FireTold(env, s, k, delivered);
      var t := FireOne(env, s, k, delivered).state;
      assert t.log + [] == t.log;
      QuietTold(env, t, SweepTimer(env, s, k, delivered).state, []);
    }
  }

  lemma OtherTold(env: Env, s: State, op: Op, fuel: nat)
    requires Told(env, s) && Step(env, s, op, fuel).Some?
    requires !(op.DoComplete? || op.DoDecide? || op.DoSendBackTask? || op.DoSendBackApproval? || op.DoSweepTimer?)
    ensures Told(env, Step(env, s, op, fuel).value.state)
  {
    var t := Step(env, s, op, fuel).value.state;
    OtherQuiet(env, s, op, fuel);
    OtherCompletes(env, s, op, fuel);
    QuietTold(env, s, t, t.log[|s.log|..]);
  }

  lemma OtherCompletes(env: Env, s: State, op: Op, fuel: nat)
    requires !MovesOn(op) && !op.DoSweepTimer? && Step(env, s, op, fuel).Some?
    requires QuietAfter(s, Step(env, s, op, fuel).value.state)
    ensures var t := Step(env, s, op, fuel).value.state;
            forall e :: e in t.log[|s.log|..] ==> !e.NodeCompleted?
  {
    if op.DoSweepOverdue? && op.task < |s.tasks| && Lookup(env, s.tasks[op.task].where.id).Some? {
      var n := Lookup(env, s.tasks[op.task].where.id).value;
      NoCompletions(n.id, n.attachments, OnOverdue);
    }
  }

  lemma CompleteTold(env: Env, s: State, i: nat, formData: Option<Context>, output: Option<Context>, fuel: nat)
    requires Told(env, s) && RowsGrounded(env, s) && CompleteTask(env, s, i, formData, output, fuel).Some?
    ensures Told(env, CompleteTask(env, s, i, formData, output, fuel).value.state)
  {
    if i < |s.tasks| && IsOpen(s.tasks[i].status) && (IsBlockingSide(s.tasks[i]) || s.status != Paused) {
      var s1 := Finish(s, i);
      QuietTold(env, s, s1, [TaskCompleted(s.tasks[i].where)]);
      if s.tasks[i].where.Graph? {
        AdvanceTold(env, s1, s.tasks[i].where.id, OutputOf(formData, output), fuel);
      } else {
        QuietTold(env, s1, Resume(s1), if s1.status == Paused then [InstanceResumed] else []);
      }
    }
  }

  lemma DecideTold(env: Env, s: State, i: nat, d: ApprovalStatus, conditions: Option<string>,
                   notes: Option<string>, fuel: nat)
    requires Told(env, s) && RowsGrounded(env, s) && Decide(env, s, i, d, conditions, notes, fuel).Some?
    ensures Told(env, Decide(env, s, i, d, conditions, notes, fuel).value.state)
  {
    if i < |s.approvals| && s.approvals[i].status == Pending && s.status != Paused {
      var a := s.approvals[i];
      var s1 := Emit(s.(approvals := s.approvals[i := a.(status := d)]), ApprovalDecided(a.node, d));
      QuietTold(env, s, s1, [ApprovalDecided(a.node, d)]);
      if Settles(d) {
        AdvanceTold(env, s1, a.node, DecisionOutput(d, conditions, notes), fuel);
      }
    }
  }

  lemma TaskBackTold(env: Env, s: State, i: nat, target: string, fuel: nat)
    requires Told(env, s) && SendBackTask(env, s, i, target, fuel).Some?
    ensures Told(env, SendBackTask(env, s, i, target, fuel).value.state)
  {
    if i < |s.tasks| && IsOpen(s.tasks[i].status) && s.status != Paused && ValidTarget(env, target) {
      var t := s.tasks[i];
      var s1 := CloseTask(s, i, SentBack(target));
      assert s1.log == s.log + [];
      QuietTold(env, s, s1, []);
      RewindTold(env, s1, t.where.id, target, TaskSentBack(t.where, target), fuel);
    }
  }

  lemma ApprovalBackTold(env: Env, s: State, i: nat, target: string, fuel: nat)
    requires Told(env, s) && SendBackApproval(env, s, i, target, fuel).Some?
    ensures Told(env, SendBackApproval(env, s, i, target, fuel).value.state)
  {
    if i < |s.approvals| && s.approvals[i].status == Pending && s.status != Paused && ValidTarget(env, target) {
      var a := s.approvals[i];
      var s1 := s.(approvals := s.approvals[i := a.(status := NeedsMoreInformation, sentBackTo := Some(target))]);
      assert s1.log == s.log + [];
      QuietTold(env, s, s1, []);
      RewindTold(env, s1, a.node, target, ApprovalSentBack(a.node, target), fuel);
    }
  }

  lemma MoveTold(env: Env, s: State, op: Op, fuel: nat)
    requires Told(env, s) && RowsGrounded(env, s) && MovesOn(op) && Step(env, s, op, fuel).Some?
    ensures Told(env, Step(env, s, op, fuel).value.state)
  {
    match op {
      case DoComplete(i, formData, output) =>
        assert Step(env, s, op, fuel) == CompleteTask(env, s, i, formData, output, fuel);
        CompleteTold(env, s, i, formData, output, fuel);
      case DoDecide(i, d, conditions, notes) =>
        assert Step(env, s, op, fuel) == Decide(env, s, i, d, conditions, notes, fuel);
        DecideTold(env, s, i, d, conditions, notes, fuel);
      case DoSendBackTask(i, target) =>
        assert Step(env, s, op, fuel) == SendBackTask(env, s, i, target, fuel);
        TaskBackTold(env, s, i, target, fuel);
      case DoSendBackApproval(i, target) =>
        assert Step(env, s, op, fuel) == SendBackApproval(env, s, i, target, fuel);
        ApprovalBackTold(env, s, i, target, fuel);
    }
  }

  lemma StepTold(env: Env, s: State, op: Op, fuel: nat)
    requires Told(env, s) && RowsGrounded(env, s) && Step(env, s, op, fuel).Some?
    ensures Told(env, Step(env, s, op, fuel).value.state)
  {
    if MovesOn(op) {
      MoveTold(env, s, op, fuel);
    } else if op.DoSweepTimer? {
      SweepTold(env, s, op.timer, op.delivered);
    } else {
      OtherTold(env, s, op, fuel);
    }
  }

  lemma {:induction false} ReplayTold(env: Env, s: State, ops: seq<Op>, fuel: nat)
    requires Told(env, s) && Marking(env, s, {}) && Replay(env, s, ops, fuel).Some?
    ensures Told(env, Replay(env, s, ops, fuel).value)
    decreases |ops|
  {
    if ops != [] {
      var before := ops[..|ops| - 1];
      ReplayTold(env, s, before, fuel);
      ReplayMarking(env, s, before, fuel);
      StepTold(env, Replay(env, s, before, fuel).value, ops[|ops| - 1], fuel);
    }
  }

  lemma FreshTold(env: Env, ctx: Context)
    requires env.nestedRead ==> Repaired(env)
    ensures Told(env, Fresh(ctx))
  {
    if env.nestedRead {
      forall j | PlainKey(j) ensures Arrivals(env, Fresh(ctx).metadata, j) == ArrivalsIn(env, Fresh(ctx).log, j) {
        CounterPath(j);
        ArrivalsOne(env, [], InstanceStarted, j);
      }
    }
  }

  /** In every run, every activation in the log is explained by an earlier event: the start, a
      predecessor that passed control on, completed work, or a send-back to that node. With the repaired
      read, a join passes control on only once its activations since the start or its last reset reach its
      incoming edges, and its counter always holds their number. */
  lemma RunCauses(env: Env, ctx: Context, ops: seq<Op>, fuel: nat)
    requires Exec(env, ctx, ops, fuel).Some? && (env.nestedRead ==> Repaired(env))
    ensures AllCaused(env, Exec(env, ctx, ops, fuel).value.log)
    ensures LogGrounded(env, Exec(env, ctx, ops, fuel).value.log)
    ensures env.nestedRead ==> CountersTrue(env, Exec(env, ctx, ops, fuel).value)
  {
    var start := StartNode(env.version.nodes).value;
    assert AllGood(FoundIn(env), [start]);
    DrainMarking(env, Fresh(ctx), [start], fuel, {});
    FreshTold(env, ctx);
    assert Cause(env, Fresh(ctx).log, 0, start.id);
    DrainTold(env, Fresh(ctx), [start], fuel);
    ReplayTold(env, Begin(env, ctx, fuel).value, ops, fuel);
  }

  /** Only joins with at least two incoming edges lead to `x`. */
  ghost predicate BehindJoins(env: Env, x: string) {
    && !StartId(env, x)
    && (forall k: nat :: k < |env.version.edges| && env.version.edges[k].target == x ==>
          var y := env.version.edges[k].source;
          BaseAt(env, y, {ParallelJoin}) && Incoming(env, y) >= 2 && !StartId(env, y))
    && (forall n: Node, y :: !IsGateTo(env, n, y, x))
  }

  /** As written, whatever happens in a run, a node behind such joins is never activated unless
      work is sent back to it. */
  lemma BehindJoinsNeverStarts(env: Env, ctx: Context, ops: seq<Op>, fuel: nat, x: string)
    requires Exec(env, ctx, ops, fuel).Some? && !env.nestedRead && BehindJoins(env, x)
    requires forall e :: e in Exec(env, ctx, ops, fuel).value.log && (e.TaskSentBack? || e.ApprovalSentBack?) ==>
               e.target != x
    ensures forall e :: e in Exec(env, ctx, ops, fuel).value.log && e.NodeActivated? ==> e.node != x
  {
    var log := Exec(env, ctx, ops, fuel).value.log;
    RunCauses(env, ctx, ops, fuel);
    forall e | e in log && e.NodeActivated? ensures e.node != x {
      var i :| 0 <= i < |log| && log[i] == e;
      if e.node == x {
        assert Caused(env, log[..i], x);
        var k :| Cause(env, log[..i], k, x);
        NotACause(env, log, i, k, x);
        assert false;
      }
    }
  }

  lemma NotACause(env: Env, log: seq<Event>, i: nat, k: nat, x: string)
    requires i <= |log| && !env.nestedRead && BehindJoins(env, x) && LogGrounded(env, log)
    requires forall e :: e in log && (e.TaskSentBack? || e.ApprovalSentBack?) ==> e.target != x
    ensures !Cause(env, log[..i], k, x)
  {
    if k < i {
      assert log[..i][k] == log[k] && log[k] in log;
      if log[k].NodeActivated? || log[k].NodeCompleted? {
        var y := log[k].node;
        if EdgeTo(env, y, x) {
          var q: nat :| q < |env.version.edges| && env.version.edges[q].source == y && env.version.edges[q].target == x;
          assert BaseAt(env, y, {ParallelJoin}) && Incoming(env, y) >= 2;
        }
      }
    }
  }
}
