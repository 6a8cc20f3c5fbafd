/** The flat read of the join counter in a run: both branches arrive and the join lets nothing through. */
module EngineJoinStall {
  // server/businessWorkflows.ts:951-966.

  import opened Prelude
  import opened JsonTree
  import opened WorkflowGraph
  import opened Worklist
  import opened Engine
  import opened EngineInduction
  import opened EngineBooks
  import opened EngineJoins

  const FORK_NODE := Node("s", Builtin(Start), None, [], [])
  const JOIN_NODE := Node("j", Builtin(ParallelJoin), None, [], [])
  const AFTER_NODE := Node("t", Builtin(HumanTask), None, [], [])

  /** Two edges from START into a join, and one from there to a task. */
  function TwoIntoJoin(): Env {
    Env(Version([FORK_NODE, JOIN_NODE, AFTER_NODE],
                [Edge("a", "s", "j", None), Edge("b", "s", "j", None), Edge("c", "j", "t", None)]),
        map[], (c, x) => false, false)
  }

  lemma JoinGraph()
    ensures Lookup(TwoIntoJoin(), "j") == Some(JOIN_NODE) && Incoming(TwoIntoJoin(), "j") == 2
    ensures PickTargets(TwoIntoJoin(), map[], "s") == [JOIN_NODE, JOIN_NODE]
  {
    var env := TwoIntoJoin();
    assert env.version.nodes[1..][0] == JOIN_NODE;
    var es := env.version.edges;
    assert es[..2] == [Edge("a", "s", "j", None), Edge("b", "s", "j", None)];
    assert es[..2][..1] == [Edge("a", "s", "j", None)];
    assert es[..2][..1][..0] == [];
    assert IncomingBelow(es[..2][..1], "j") == 1;
    assert IncomingBelow(es[..2], "j") == 2;
    TwoEdges(env);
    var ks := EnabledEdges(env, map[], "s");
    var none: seq<nat> := [];
    assert ks[1..] == [1] && ks[1..][1..] == none;
    assert TargetsOf(env, ks[1..]) == [JOIN_NODE];
  }

  lemma NextEnabled(env: Env, ctx: Context, source: string, k: nat)
    requires k < |env.version.edges|
    ensures EnabledBelow(env, ctx, source, k + 1)
            == EnabledBelow(env, ctx, source, k) + if Enabled(env, ctx, source, k) then [k] else []
    ensures EnabledBelow(env, ctx, source, 0) == []
  {}

  lemma TwoEdges(env: Env)
    requires env == TwoIntoJoin() && Lookup(env, "j") == Some(JOIN_NODE)
    ensures EnabledEdges(env, map[], "s") == [0, 1]
  {
    assert Enabled(env, map[], "s", 0) && Enabled(env, map[], "s", 1) && !Enabled(env, map[], "s", 2);
    NextEnabled(env, map[], "s", 0);
    NextEnabled(env, map[], "s", 1);
    NextEnabled(env, map[], "s", 2);
  }

  /** What entering START or the join of that graph does. */
  lemma PlainEntry(env: Env, s: State, n: Node)
    requires env == TwoIntoJoin() && n in {FORK_NODE, JOIN_NODE} && OwnKeys(s)
    ensures var t := Enter(env, s, n);
            && OwnKeys(t) && t.status == s.status && t.context == s.context && t.tasks == s.tasks
            && t.log == s.log + [NodeActivated(n.id, BaseOf(env, n))]
  {
    EnterKeys(env, s, n);
    EnterLog(env, s, n);
  }

  lemma JoinStops(env: Env, s: State)
    requires !env.nestedRead && Incoming(env, "j") >= 2 && OwnKeys(s)
    ensures Next(env, s, JOIN_NODE) == []
  {
    FlatReadMisses(env, s, "j");
    assert Hops(env, s, JOIN_NODE) == [];
  }

  lemma TwoArrivals(env: Env, s: State) returns (t: State)
    requires env == TwoIntoJoin() && Incoming(env, "j") == 2 && OwnKeys(s)
    ensures Drain(env, s, [JOIN_NODE, JOIN_NODE], 2) == Some(t)
    ensures t.status == s.status && t.tasks == s.tasks
    ensures t.log == s.log + [NodeActivated("j", ParallelJoin), NodeActivated("j", ParallelJoin)]
  {
    var none: seq<Node> := [];
    assert [JOIN_NODE] + [JOIN_NODE] == [JOIN_NODE, JOIN_NODE] && [JOIN_NODE] + none == [JOIN_NODE];
    var s1 := OneArrival(env, s, [JOIN_NODE], 1);
    t := OneArrival(env, s1, none, 0);
  }

  lemma OneArrival(env: Env, s: State, rest: seq<Node>, fuel: nat) returns (t: State)
    requires env == TwoIntoJoin() && Incoming(env, "j") == 2 && OwnKeys(s)
    ensures Drain(env, s, [JOIN_NODE] + rest, fuel + 1) == Drain(env, t, rest, fuel)
    ensures OwnKeys(t) && t.status == s.status && t.tasks == s.tasks
    ensures t.log == s.log + [NodeActivated("j", ParallelJoin)]
  {
    t := Enter(env, s, JOIN_NODE);
    PlainEntry(env, s, JOIN_NODE);
    JoinStops(env, s);
    FirstVisit(env, s, JOIN_NODE, [], rest, fuel);
  }

  lemma FirstVisit(env: Env, s: State, n: Node, after: seq<Node>, rest: seq<Node>, fuel: nat)
    requires Next(env, s, n) == after
    ensures Drain(env, s, [n] + rest, fuel + 1) == Drain(env, Enter(env, s, n), after + rest, fuel)
    ensures [n] + [] == [n] && [] + rest == rest && after + [] == after
  {
    assert EnterIn(env)(s, n) == Enter(env, s, n) && NextIn(env)(s, n) == after;
    assert ([n] + rest)[1..] == rest && ([n] + rest)[0] == n;
  }

  /** The walk from START. */
  lemma WalkFromStart(env: Env, s: State) returns (t: State)
    requires env == TwoIntoJoin() && OwnKeys(s) && s.context == map[]
    ensures Drain(env, s, [FORK_NODE], 3) == Some(t)
    ensures t.status == s.status && t.tasks == s.tasks
    ensures t.log == s.log + [NodeActivated("s", Start)]
                     + [NodeActivated("j", ParallelJoin), NodeActivated("j", ParallelJoin)]
  {
    JoinGraph();
    var s1 := Enter(env, s, FORK_NODE);
    PlainEntry(env, s, FORK_NODE);
    t := TwoArrivals(env, s1);
    assert Next(env, s, FORK_NODE) == [JOIN_NODE, JOIN_NODE];
    FirstVisit(env, s, FORK_NODE, [JOIN_NODE, JOIN_NODE], [], 2);
  }

  lemma TwiceInLog(log: seq<Event>)
    requires log == [InstanceStarted] + [NodeActivated("s", Start)]
                    + [NodeActivated("j", ParallelJoin), NodeActivated("j", ParallelJoin)]
    ensures Seen(log, NodeActivated("j", ParallelJoin)) == 2
    ensures forall e :: e in log && e.NodeActivated? ==> e.node != "t"
  {}

  /** A run activates a join with two incoming edges twice, and the task behind it never starts: there is
      no task row at all, and the instance stays RUNNING. */
  lemma JoinNeverForwards() returns (env: Env, t: State)
    ensures Exec(env, map[], [], 3) == Some(t) && !env.nestedRead
    ensures Incoming(env, "j") == 2 && Seen(t.log, NodeActivated("j", ParallelJoin)) == 2
    ensures t.status == Running && t.tasks == [] && forall e :: e in t.log && e.NodeActivated? ==> e.node != "t"
  {
    env := TwoIntoJoin();
    JoinGraph();
    t := WalkFromStart(env, Fresh(map[]));
    TwiceInLog(t.log);
    assert StartNode(env.version.nodes) == Some(FORK_NODE);
    assert Begin(env, map[], 3) == Some(t);
  }
}
