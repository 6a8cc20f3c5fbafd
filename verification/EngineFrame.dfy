/** Activation only appends: the context and every row that is there stay as they are. */
module EngineFrame {
  import opened Prelude
  import opened JsonTree
  import opened WorkflowGraph
  import opened Worklist
  import opened Engine
  import opened EngineGrowth
  import opened EngineInduction

  lemma EnterExtends(env: Env, s: State, n: Node)
    ensures Enter(env, s, n).context == s.context
    ensures s.tasks <= Enter(env, s, n).tasks && s.approvals <= Enter(env, s, n).approvals
    ensures s.timers <= Enter(env, s, n).timers && s.log <= Enter(env, s, n).log
  {
    EnterTables(env, s, n);
    EnterLog(env, s, n);
  }

  /** `t` has the context of `s`, its rows in their places and its log, and perhaps more behind them. */
  ghost predicate Extends(s: State, t: State) {
    && t.context == s.context
    && s.tasks <= t.tasks && s.approvals <= t.approvals && s.timers <= t.timers && s.log <= t.log
  }

  ghost function ExtendedFrom(s: State): State -> bool {
    (t: State) => Extends(s, t)
  }

  lemma DrainExtends(env: Env, s: State, work: seq<Node>, fuel: nat)
    requires AllGood(FoundIn(env), work) && Drain(env, s, work, fuel).Some?
    ensures Extends(s, Drain(env, s, work, fuel).value)
  {
    forall x: State, n: Node | ExtendedFrom(s)(x) && Found(env, n) ensures ExtendedFrom(s)(Enter(env, x, n)) {
      EnterExtends(env, x, n);
    }
    DrainKeeps(env, s, work, fuel, ExtendedFrom(s));
  }

  lemma OneVisit(env: Env, s: State, n: Node, fuel: nat)
    requires Drain(env, s, [n], fuel).Some?
    ensures fuel > 0 && Drain(env, Enter(env, s, n), Next(env, s, n), fuel - 1) == Drain(env, s, [n], fuel)
  {
    assert Next(env, s, n) + [n][1..] == Next(env, s, n);
    assert EnterIn(env)(s, n) == Enter(env, s, n) && NextIn(env)(s, n) == Next(env, s, n);
  }

  /** A node's own activation comes first in the log of what activating it adds. */
  lemma EnteredFirst(env: Env, s: State, n: Node, fuel: nat)
    requires Drain(env, s, [n], fuel).Some?
    ensures s.log + [NodeActivated(n.id, BaseOf(env, n))] <= Drain(env, s, [n], fuel).value.log
  {
    var s1 := Enter(env, s, n);
    OneVisit(env, s, n, fuel);
    NextFound(env, s, n);
    DrainExtends(env, s1, Next(env, s, n), fuel - 1);
    EnterLog(env, s, n);
    StillFirst(s.log, NodeActivated(n.id, BaseOf(env, n)), EnterTail(env, n), Drain(env, s, [n], fuel).value.log);
  }

  lemma StillFirst(log: seq<Event>, e: Event, tail: seq<Event>, all: seq<Event>)
    requires log + [e] + tail <= all
    ensures log + [e] <= all
  {}
}
