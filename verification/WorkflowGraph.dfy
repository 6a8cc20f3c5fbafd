/** The pinned graph of a workflow instance, its edge conditions, and the search for joins. */
module WorkflowGraph {
  // server/businessWorkflows.ts:559-580, 990-1005; src/lib/businessWorkflowRuntime.ts:200-237.

  import opened Prelude
  import opened JsonTree

  datatype BaseType =
    | Start | End | HumanTask | ApprovalGate | FormFill | DecisionGate | ParallelFork | ParallelJoin
    | TimerWait | Notification | AgentTask | ToolRequest | CallWorkflow | Unrecognized

  /** A node names a built-in type, or a custom type that is looked up at activation. */
  datatype NodeType = Builtin(base: BaseType) | Custom(name: string)

  datatype Trigger = OnActivate | OnComplete | OnOverdue
  datatype TimerAction = Notify | Escalate | AutoComplete | OtherAction

  datatype Attachment =
    | Notice(id: string, enabled: bool, trigger: Trigger)
    | Alarm(id: string, enabled: bool, minutes: int, action: TimerAction, escalateTo: Option<string>)

  datatype Node = Node(id: string, kind: NodeType, defaultEdge: Option<string>,
                       attachments: seq<Attachment>, bindings: seq<Binding>)

  datatype Clause = Clause(left: string, op: string, right: Json)
  datatype Condition = Test(clause: Clause) | Group(any: bool, parts: seq<Condition>)

  datatype Edge = Edge(id: string, source: string, target: string, condition: Option<Condition>)

  datatype Version = Version(nodes: seq<Node>, edges: seq<Edge>)

  /** What stays fixed during a run: the pinned version, the custom-type table, the comparison of
      one clause, and how a join reads its arrival counter (`nestedRead` is false in the source). */
  datatype Env = Env(version: Version, customs: map<string, BaseType>, test: (Clause, Context) -> bool,
                     nestedRead: bool)

  function BaseOf(env: Env, n: Node): BaseType {
    match n.kind
    case Builtin(b) => b
    case Custom(name) => if name in env.customs then env.customs[name] else HumanTask
  }

  /** `nodes.find(n => n.id === id)`: the first node with the id. */
  function FindNode(nodes: seq<Node>, id: string): (r: Option<Node>)
    ensures r.Some? ==> r.value in nodes && r.value.id == id
    ensures r.None? ==> forall n :: n in nodes ==> n.id != id
  {
    if nodes == [] then None
    else if nodes[0].id == id then Some(nodes[0])
    else FindNode(nodes[1..], id)
  }

  function Lookup(env: Env, id: string): Option<Node> {
    FindNode(env.version.nodes, id)
  }

  /** `edges.find(e => e.id === id)`, as an index. */
  function FindEdge(edges: seq<Edge>, id: string): (r: Option<nat>)
    ensures r.Some? ==> r.value < |edges| && edges[r.value].id == id
    ensures r.Some? ==> forall k :: 0 <= k < r.value ==> edges[k].id != id
    ensures r.None? ==> forall k :: 0 <= k < |edges| ==> edges[k].id != id
  {
    if edges == [] then None
    else if edges[0].id == id then Some(0)
    else match FindEdge(edges[1..], id)
      case None => None
      case Some(k) => Some(k + 1)
  }

  /** `evaluateGroup` (src/lib/businessWorkflowConditions.ts:135-148): an empty group holds, even an OR
      group. */
  predicate Holds(env: Env, c: Condition, ctx: Context) {
    match c
    case Test(clause) => env.test(clause, ctx)
    case Group(any, parts) =>
      parts == [] ||
      if any then exists i :: 0 <= i < |parts| && Holds(env, parts[i], ctx)
      else forall i :: 0 <= i < |parts| ==> Holds(env, parts[i], ctx)
  }

  /** `evaluateEdgeCondition` (154-160): a missing condition always holds. */
  predicate EdgeOpen(env: Env, e: Edge, ctx: Context) {
    e.condition.None? || Holds(env, e.condition.value, ctx)
  }

  /** Edge `k` leaves `source`, its condition holds and its target exists. */
  predicate Enabled(env: Env, ctx: Context, source: string, k: nat) {
    && k < |env.version.edges|
    && env.version.edges[k].source == source
    && EdgeOpen(env, env.version.edges[k], ctx)
    && Lookup(env, env.version.edges[k].target).Some?
  }

  /** Indices below `hi` of the enabled edges out of `source`, in edge order. */
  function EnabledBelow(env: Env, ctx: Context, source: string, hi: nat): (r: seq<nat>)
    requires hi <= |env.version.edges|
    ensures forall k: nat :: k in r <==> k < hi && Enabled(env, ctx, source, k)
    ensures forall i, j :: 0 <= i < j < |r| ==> r[i] < r[j]
  {
    if hi == 0 then []
    else
      var below := EnabledBelow(env, ctx, source, hi - 1);
      assert forall i :: 0 <= i < |below| ==> below[i] in below;
      if Enabled(env, ctx, source, hi - 1) then below + [hi - 1] else below
  }

  function EnabledEdges(env: Env, ctx: Context, source: string): (r: seq<nat>)
    ensures forall k: nat :: k in r <==> Enabled(env, ctx, source, k)
    ensures forall i, j :: 0 <= i < j < |r| ==> r[i] < r[j]
  {
    EnabledBelow(env, ctx, source, |env.version.edges|)
  }

  predicate HasTarget(env: Env, k: nat) {
    k < |env.version.edges| && Lookup(env, env.version.edges[k].target).Some?
  }

  function TargetOf(env: Env, k: nat): Node
    requires HasTarget(env, k)
  {
    Lookup(env, env.version.edges[k].target).value
  }

  /** The nodes at the far end of the listed edges. */
  function TargetsOf(env: Env, ks: seq<nat>): (r: seq<Node>)
    requires forall k :: k in ks ==> HasTarget(env, k)
    ensures |r| == |ks| && forall i :: 0 <= i < |r| ==> r[i] == TargetOf(env, ks[i])
  {
    if ks == [] then [] else [TargetOf(env, ks[0])] + TargetsOf(env, ks[1..])
  }

  /** `pickActivatableTargets` */
  function PickTargets(env: Env, ctx: Context, source: string): seq<Node> {
    TargetsOf(env, EnabledEdges(env, ctx, source))
  }

  /** The default edge of a decision gate: the first edge with the configured id, wherever it
      starts, provided its target exists. */
  function DefaultEdge(env: Env, n: Node): (r: Option<nat>)
    ensures r.Some? ==> HasTarget(env, r.value)
  {
    if n.defaultEdge.None? then None
    else match FindEdge(env.version.edges, n.defaultEdge.value)
      case None => None
      case Some(k) => if Lookup(env, env.version.edges[k].target).Some? then Some(k) else None
  }

  function IncomingBelow(edges: seq<Edge>, id: string): nat {
    if edges == [] then 0
    else IncomingBelow(edges[..|edges| - 1], id) + if edges[|edges| - 1].target == id then 1 else 0
  }

  /** Number of edges into a node, enabled or not. */
  function Incoming(env: Env, id: string): nat {
    IncomingBelow(env.version.edges, id)
  }

  function StartNode(nodes: seq<Node>): (r: Option<Node>)
    ensures r.Some? ==> r.value in nodes && r.value.kind == Builtin(Start)
  {
    if nodes == [] then None
    else if nodes[0].kind == Builtin(Start) then Some(nodes[0])
    else StartNode(nodes[1..])
  }

  lemma OneMoreInto(edges: seq<Edge>, id: string, n: nat, less: set<nat>, all: set<nat>)
    requires |edges| == n + 1
    requires forall k: nat :: k in less <==> k < n && edges[k].target == id
    requires forall k: nat :: k in all <==> k < n + 1 && edges[k].target == id
    ensures |all| == |less| + if edges[n].target == id then 1 else 0
  {
    if edges[n].target == id {
      assert all == less + {n};
    } else {
      assert all == less;
    }
  }

  lemma {:induction false} IncomingBelowCounts(edges: seq<Edge>, id: string)
    ensures IncomingBelow(edges, id) == |set k: nat | k < |edges| && edges[k].target == id|
  {
    var all := set k: nat | k < |edges| && edges[k].target == id;
    if edges == [] {
      assert all == {};
    } else {
      var n := |edges| - 1;
      var before := edges[..n];
      IncomingBelowCounts(before, id);
      var less := set k: nat | k < |before| && before[k].target == id;
      OneMoreInto(edges, id, n, less, all);
    }
  }

  /** It is the number of all edges that end at the node: conditions and sources play no part. */
  lemma IncomingCounts(env: Env, id: string)
    ensures Incoming(env, id) == |set k: nat | k < |env.version.edges| && env.version.edges[k].target == id|
  {
    IncomingBelowCounts(env.version.edges, id);
  }

  /** A lookup by id finds the first node with the id. */
  lemma {:induction false} FirstById(nodes: seq<Node>, id: string)
    requires FindNode(nodes, id).Some?
    ensures exists i :: 0 <= i < |nodes| && nodes[i] == FindNode(nodes, id).value
                        && forall j :: 0 <= j < i ==> nodes[j].id != id
  {
    if nodes[0].id == id {
      assert nodes[0] == FindNode(nodes, id).value;
    } else {
      var rest := nodes[1..];
      FirstById(rest, id);
      var i :| 0 <= i < |rest| && rest[i] == FindNode(rest, id).value && forall j :: 0 <= j < i ==> rest[j].id != id;
      assert nodes[i + 1] == rest[i] && forall j :: 1 <= j < i + 1 ==> nodes[j] == rest[j - 1];
    }
  }

  /** A run starts at the first node of the built-in START type, and at none only if there is none. */
  lemma {:induction false} FirstStart(nodes: seq<Node>)
    ensures StartNode(nodes).None? ==> forall n :: n in nodes ==> n.kind != Builtin(Start)
    ensures StartNode(nodes).Some? ==>
              exists i :: 0 <= i < |nodes| && nodes[i] == StartNode(nodes).value
                          && forall j :: 0 <= j < i ==> nodes[j].kind != Builtin(Start)
  {
    if nodes != [] && nodes[0].kind == Builtin(Start) {
      assert nodes[0] == StartNode(nodes).value;
    } else if nodes != [] {
      var rest := nodes[1..];
      FirstStart(rest);
      if StartNode(rest).Some? {
        var i :| 0 <= i < |rest| && rest[i] == StartNode(rest).value
                 && forall j :: 0 <= j < i ==> rest[j].kind != Builtin(Start);
        assert nodes[i + 1] == rest[i] && forall j :: 1 <= j < i + 1 ==> nodes[j] == rest[j - 1];
      }
    }
  }

  // --- Groups of conditions ---

  /** An AND group holds when both halves do, an OR group of two non-empty halves when one does; a group of
      one is its part, and an empty group holds. */
  lemma GroupsSplit(env: Env, any: bool, a: seq<Condition>, b: seq<Condition>, c: Condition, ctx: Context)
    requires a != [] && b != []
    ensures Holds(env, Group(any, a + b), ctx)
            <==> if any then Holds(env, Group(any, a), ctx) || Holds(env, Group(any, b), ctx)
                 else Holds(env, Group(any, a), ctx) && Holds(env, Group(any, b), ctx)
    ensures Holds(env, Group(any, [c]), ctx) <==> Holds(env, c, ctx)
    ensures Holds(env, Group(any, []), ctx)
  {
    var all := a + b;
    assert forall i :: 0 <= i < |a| ==> all[i] == a[i];
    assert forall i :: 0 <= i < |b| ==> all[|a| + i] == b[i];
    assert [c][0] == c;
    if any {
      if i :| 0 <= i < |all| && Holds(env, all[i], ctx) {
        assert if i < |a| then Holds(env, a[i], ctx) else Holds(env, b[i - |a|], ctx);
      }
      if i :| 0 <= i < |a| && Holds(env, a[i], ctx) { assert Holds(env, all[i], ctx); }
      if i :| 0 <= i < |b| && Holds(env, b[i], ctx) { assert Holds(env, all[|a| + i], ctx); }
    } else {
      if Holds(env, Group(any, all), ctx) {
        forall i | 0 <= i < |b| ensures Holds(env, b[i], ctx) { assert Holds(env, all[|a| + i], ctx); }
      }
    }
  }

  // --- Joins crossed by a send-back ---

  /** The node a `Map` built from the list holds for the id: the last one. */
  function LastNode(nodes: seq<Node>, id: string): Option<Node> {
    if nodes == [] then None
    else if nodes[|nodes| - 1].id == id then Some(nodes[|nodes| - 1])
    else LastNode(nodes[..|nodes| - 1], id)
  }

  predicate Linked(edges: seq<Edge>, a: string, b: string) {
    exists k :: 0 <= k < |edges| && edges[k].source == a && edges[k].target == b
  }

  /** A walk along edges from `from` to `to` that does not continue past `stop`. */
  ghost predicate Walk(edges: seq<Edge>, stop: string, ids: seq<string>, from: string, to: string) {
    && |ids| >= 1 && ids[0] == from && ids[|ids| - 1] == to
    && (forall i :: 0 <= i < |ids| - 1 ==> ids[i] != stop && Linked(edges, ids[i], ids[i + 1]))
  }

  ghost predicate Reaches(edges: seq<Edge>, stop: string, from: string, to: string) {
    exists ids :: Walk(edges, stop, ids, from, to)
  }

  predicate IsJoinId(nodes: seq<Node>, id: string) {
    LastNode(nodes, id).Some? && LastNode(nodes, id).value.kind == Builtin(ParallelJoin)
  }

  /** The joins a send-back to `from` resets when the work came from `to`. */
  ghost predicate JoinBetween(v: Version, from: string, to: string, id: string) {
    id != from && id != to && IsJoinId(v.nodes, id) && Reaches(v.edges, to, from, id)
  }

  lemma WalkStep(edges: seq<Edge>, stop: string, ids: seq<string>, from: string, mid: string, to: string)
    requires Walk(edges, stop, ids, from, mid) && mid != stop && Linked(edges, mid, to)
    ensures Walk(edges, stop, ids + [to], from, to)
  {
    var w := ids + [to];
    forall i | 0 <= i < |w| - 1 ensures w[i] != stop && Linked(edges, w[i], w[i + 1]) {
      assert w[i] == ids[i];
      if i < |ids| - 1 {
        assert w[i + 1] == ids[i + 1];
      }
    }
  }

  /** A set that holds `from` and is closed under edges out of its members (except `stop`)
      holds everything reachable. */
  lemma {:induction false} ClosedReach(edges: seq<Edge>, stop: string, s: set<string>, ids: seq<string>,
                                       from: string, to: string)
    requires from in s
    requires forall a, b :: a in s && a != stop && Linked(edges, a, b) ==> b in s
    requires Walk(edges, stop, ids, from, to)
    ensures to in s
    decreases |ids|
  {
    if |ids| > 1 {
      var mid := ids[|ids| - 2];
      ClosedReach(edges, stop, s, ids[..|ids| - 1], from, mid);
      assert Linked(edges, ids[|ids| - 2], ids[|ids| - 1]);
    }
  }

  predicate Handled(edges: seq<Edge>, visited: set<string>, queue: seq<string>, a: string) {
    forall k :: 0 <= k < |edges| && edges[k].source == a ==> edges[k].target in visited || edges[k].target in queue
  }

  /** `findJoinsBetween`: breadth-first search from the send-back target, not walking past the
      node being sent back from. */
  method FindJoinsBetween(v: Version, from: string, to: string) returns (joins: seq<string>)
    ensures forall id :: id in joins <==> JoinBetween(v, from, to, id)
    ensures forall i, j :: 0 <= i < j < |joins| ==> joins[i] != joins[j]
  {
    joins := [];
    var visited: set<string> := {};
    var queue := [from];
    ghost var universe := {from} + set k | 0 <= k < |v.edges| :: v.edges[k].target;
    assert Walk(v.edges, to, [from], from, from);
    while queue != []
      invariant visited <= universe && forall q :: q in queue ==> q in universe
      invariant from in visited || from in queue
      invariant forall q :: q in queue ==> Reaches(v.edges, to, from, q)
      invariant forall q :: q in visited ==> Reaches(v.edges, to, from, q)
      invariant forall a :: a in visited && a != to ==> Handled(v.edges, visited, queue, a)
      invariant forall id :: id in joins <==>
                  id in visited && id != from && id != to && IsJoinId(v.nodes, id)
      invariant forall i, j :: 0 <= i < j < |joins| ==> joins[i] != joins[j]
      decreases universe - visited, |queue|
    {
      var cur := queue[0];
      ghost var before := queue;
      queue := queue[1..];
      assert forall q :: q in before <==> q == cur || q in queue;
      if cur in visited {
        forall a | a in visited && a != to ensures Handled(v.edges, visited, queue, a) {
          assert Handled(v.edges, visited, before, a);
        }
        continue;
      }
      ghost var was := visited;
      assert cur in universe - visited;
      visited := visited + {cur};
      if cur == to {
        forall a | a in visited && a != to ensures Handled(v.edges, visited, queue, a) {
          assert Handled(v.edges, was, before, a);
        }
        continue;
      }
      if IsJoinId(v.nodes, cur) && cur != from {
        joins := joins + [cur];
      }
      ghost var base := queue;
      var k := 0;
      while k < |v.edges|
        invariant 0 <= k <= |v.edges|
        invariant |base| <= |queue| && queue[..|base|] == base
        invariant forall q :: q in queue ==> q in universe && Reaches(v.edges, to, from, q)
        invariant forall j :: 0 <= j < k && v.edges[j].source == cur ==>
                    v.edges[j].target in visited || v.edges[j].target in queue
      {
        var e := v.edges[k];
        if e.source == cur && e.target !in visited {
          assert Linked(v.edges, cur, e.target);
          ghost var ids :| Walk(v.edges, to, ids, from, cur);
          WalkStep(v.edges, to, ids, from, cur, e.target);
          queue := queue + [e.target];
        }
        k := k + 1;
      }
      forall a | a in visited && a != to ensures Handled(v.edges, visited, queue, a) {
        if a != cur {
          assert Handled(v.edges, was, before, a);
          assert forall q :: q in base ==> q in queue by {
            assert forall i :: 0 <= i < |base| ==> queue[i] == base[i];
          }
        }
      }
    }
    forall id | JoinBetween(v, from, to, id) ensures id in visited {
      ghost var ids :| Walk(v.edges, to, ids, from, id);
      forall a, b | a in visited && a != to && Linked(v.edges, a, b) ensures b in visited {
        assert Handled(v.edges, visited, queue, a);
      }
      ClosedReach(v.edges, to, visited, ids, from, id);
    }
  }
}
