/** Induction over activation: what every single node entry keeps, a whole activation keeps. */
module EngineInduction {
  import opened Prelude
  import opened JsonTree
  import opened WorkflowGraph
  import opened Worklist
  import opened Engine

  /** Nodes control can reach: the first START node, or a node found by its id. */
  predicate Found(env: Env, n: Node) {
    Lookup(env, n.id) == Some(n) || StartNode(env.version.nodes) == Some(n)
  }

  function FoundIn(env: Env): Node -> bool {
    n => Found(env, n)
  }

  /** Every entry of a found node keeps `inv`. */
  ghost predicate EntryKeeps(env: Env, inv: State -> bool) {
    forall s: State, n: Node {:trigger Enter(env, s, n)} :: inv(s) && Found(env, n) ==> inv(Enter(env, s, n))
  }

  lemma NextFound(env: Env, s: State, n: Node)
    ensures AllGood(FoundIn(env), NextIn(env)(s, n))
  {
    var ks := Hops(env, s, n);
    var ns := TargetsOf(env, ks);
    forall m | m in ns ensures FoundIn(env)(m) {
      var i :| 0 <= i < |ns| && ns[i] == m;
      assert ks[i] in ks;
    }
  }

  lemma DrainKeeps(env: Env, s: State, work: seq<Node>, fuel: nat, inv: State -> bool)
    requires inv(s) && EntryKeeps(env, inv) && AllGood(FoundIn(env), work)
    requires Drain(env, s, work, fuel).Some?
    ensures inv(Drain(env, s, work, fuel).value)
  {
    forall x, n ensures AllGood(FoundIn(env), NextIn(env)(x, n)) {
      NextFound(env, x, n);
    }
    forall x: State, n: Node | inv(x) && FoundIn(env)(n) ensures inv(EnterIn(env)(x, n)) {
      assert Found(env, n);
      assert EnterIn(env)(x, n) == Enter(env, x, n);
    }
    Keeps(EnterIn(env), NextIn(env), s, work, fuel, inv, FoundIn(env));
  }

  /** Every call that returns keeps `inv`. */
  ghost predicate StepKeeps(env: Env, fuel: nat, inv: State -> bool) {
    forall s: State, op: Op {:trigger Step(env, s, op, fuel)} ::
      inv(s) && Step(env, s, op, fuel).Some? ==> inv(Step(env, s, op, fuel).value.state)
  }

  lemma {:induction false} ReplayKeeps(env: Env, s: State, ops: seq<Op>, fuel: nat, inv: State -> bool)
    requires inv(s) && StepKeeps(env, fuel, inv) && Replay(env, s, ops, fuel).Some?
    ensures inv(Replay(env, s, ops, fuel).value)
    decreases |ops|
  {
    if ops != [] {
      ReplayKeeps(env, s, ops[..|ops| - 1], fuel, inv);
      var before := Replay(env, s, ops[..|ops| - 1], fuel).value;
      assert Step(env, before, ops[|ops| - 1], fuel).Some?;
    }
  }

  /** The invariant rule for whole runs. */
  lemma RunKeeps(env: Env, ctx: Context, ops: seq<Op>, fuel: nat, inv: State -> bool)
    requires Exec(env, ctx, ops, fuel).Some?
    requires inv(Fresh(ctx)) && EntryKeeps(env, inv) && StepKeeps(env, fuel, inv)
    ensures inv(Exec(env, ctx, ops, fuel).value)
  {
    var start := StartNode(env.version.nodes).value;
    assert AllGood(FoundIn(env), [start]);
    DrainKeeps(env, Fresh(ctx), [start], fuel, inv);
    ReplayKeeps(env, Begin(env, ctx, fuel).value, ops, fuel, inv);
  }

  /** Targets picked for activation are found nodes. */
  lemma PickedFound(env: Env, ctx: Context, id: string)
    ensures AllGood(FoundIn(env), PickTargets(env, ctx, id))
  {
    var ks := EnabledEdges(env, ctx, id);
    var ns := TargetsOf(env, ks);
    forall m | m in ns ensures FoundIn(env)(m) {
      var i :| 0 <= i < |ns| && ns[i] == m;
      assert ks[i] in ks;
    }
  }

  /** What entering a node logs after its activation event. */
  function EnterTail(env: Env, n: Node): seq<Event> {
    AttachmentEvents(n.id, n.attachments, OnActivate)
    + match BaseOf(env, n)
      case End => [InstanceCompleted(n.id)]
      case AgentTask => [AgentDelegated(n.id)]
      case Notification => [NotificationSent(n.id)]
      case _ => []
  }

  lemma EnterLog(env: Env, s: State, n: Node)
    ensures Enter(env, s, n).log == s.log + [NodeActivated(n.id, BaseOf(env, n))] + EnterTail(env, n)
  {
    var first := s.log + [NodeActivated(n.id, BaseOf(env, n))];
    var events := AttachmentEvents(n.id, n.attachments, OnActivate);
    match BaseOf(env, n) {
      case End => LogInThree(first, events, [InstanceCompleted(n.id)]);
      case AgentTask => LogInThree(first, events, [AgentDelegated(n.id)]);
      case Notification => LogInThree(first, events, [NotificationSent(n.id)]);
      case _ => LogInThree(first, events, []);
    }
  }

  lemma LogInThree(a: seq<Event>, b: seq<Event>, c: seq<Event>)
    ensures a + b + c == a + (b + c)
  {}

  /** The calls that can reach activation. */
  predicate MovesOn(op: Op) {
    op.DoComplete? || op.DoDecide? || op.DoSendBackTask? || op.DoSendBackApproval?
  }
}
