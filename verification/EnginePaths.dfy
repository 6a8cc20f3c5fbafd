/** Activation follows paths: one row per trail of edges from the node to a work node, and it comes
    back exactly when trails are bounded. */
module EnginePaths {
  // A trail is a sequence of edges control can follow without stopping. Joins are read as written: only
  // one with at most one incoming edge lets control through.

  import opened Prelude
  import opened JsonTree
  import opened WorkflowGraph
  import opened Worklist
  import opened Engine
  import opened EngineGrowth
  import opened EngineInduction
  import opened EngineJoins

  // --- Trails ---

  /** Control does not stop at the node. */
  predicate PassesOn(env: Env, n: Node) {
    var b := BaseOf(env, n);
    b in {Start, ParallelFork, Notification, DecisionGate} || (b == ParallelJoin && Incoming(env, n.id) <= 1)
  }

  /** Control leaves the node along edge `k`: an enabled edge, or a gate's default edge when no
      edge is enabled. */
  ghost predicate Hop(env: Env, ctx: Context, n: Node, k: nat) {
    && PassesOn(env, n) && HasTarget(env, k)
    && (Enabled(env, ctx, n.id, k)
        || (BaseOf(env, n) == DecisionGate && DefaultEdge(env, n) == Some(k)
            && forall j: nat :: !Enabled(env, ctx, n.id, j)))
  }

  /** Where a sequence of edges leads, if control can follow it. */
  ghost function EndOf(env: Env, ctx: Context, n: Node, p: seq<nat>): Option<Node>
    decreases |p|
  {
    if p == [] then Some(n)
    else if Hop(env, ctx, n, p[0]) then EndOf(env, ctx, TargetOf(env, p[0]), p[1..])
    else None
  }

  predicate IsWork(env: Env, n: Node) {
    BaseOf(env, n) in {HumanTask, FormFill, ApprovalGate}
  }

  ghost predicate WorkTrail(env: Env, ctx: Context, n: Node, p: seq<nat>) {
    EndOf(env, ctx, n, p).Some? && IsWork(env, EndOf(env, ctx, n, p).value)
  }

  predicate LexLess(p: seq<nat>, q: seq<nat>) {
    q != [] && (p == [] || p[0] < q[0] || (p[0] == q[0] && LexLess(p[1..], q[1..])))
  }

  predicate Ascending(ps: seq<seq<nat>>) {
    forall i, j :: 0 <= i < j < |ps| ==> LexLess(ps[i], ps[j])
  }

  lemma {:induction false} LexIrreflexive(p: seq<nat>)
    ensures !LexLess(p, p)
  {
    if p != [] {
      LexIrreflexive(p[1..]);
    }
  }

  /** The list holds each trail from `n` to a work node once, in lexicographic order. */
  ghost predicate Enumerates(env: Env, ctx: Context, n: Node, ps: seq<seq<nat>>) {
    Ascending(ps) && forall p :: p in ps <==> WorkTrail(env, ctx, n, p)
  }

  // --- The engine's hops are the trails' hops ---

  lemma NoneEnabled(env: Env, ctx: Context, id: string)
    ensures (forall j: nat :: !Enabled(env, ctx, id, j)) <==> EnabledEdges(env, ctx, id) == []
  {
    var out := EnabledEdges(env, ctx, id);
    if out != [] { assert out[0] in out; }
  }

  lemma IsHop(env: Env, s: State, n: Node, k: nat)
    requires !env.nestedRead && OwnKeys(s)
    ensures k in Hops(env, s, n) <==> Hop(env, s.context, n, k)
  {
    FlatReadMisses(env, s, n.id);
    NoneEnabled(env, s.context, n.id);
    assert Enabled(env, s.context, n.id, k) ==> HasTarget(env, k);
  }

  lemma HopsAreHops(env: Env, s: State, n: Node)
    requires !env.nestedRead && OwnKeys(s)
    ensures forall k: nat :: k in Hops(env, s, n) <==> Hop(env, s.context, n, k)
    ensures forall i, j :: 0 <= i < j < |Hops(env, s, n)| ==> Hops(env, s, n)[i] < Hops(env, s, n)[j]
  {
    forall k: nat ensures k in Hops(env, s, n) <==> Hop(env, s.context, n, k) {
      IsHop(env, s, n, k);
    }
  }

  /** Activation edits neither the context nor the shape of the metadata. */
  lemma EnterKeepsContext(env: Env, s: State, n: Node)
    requires OwnKeys(s)
    ensures OwnKeys(Enter(env, s, n)) && Enter(env, s, n).context == s.context
  {
    EnterKeys(env, s, n);
  }

  ghost function Steady(ctx: Context): State -> bool {
    (s: State) => OwnKeys(s) && s.context == ctx
  }

  lemma RunSteady(env: Env, s: State, work: seq<Node>, fuel: nat)
    requires OwnKeys(s) && Drain(env, s, work, fuel).Some?
    ensures OwnKeys(Drain(env, s, work, fuel).value) && Drain(env, s, work, fuel).value.context == s.context
  {
    var any := (n: Node) => true;
    forall x: State, n: Node | Steady(s.context)(x) ensures Steady(s.context)(EnterIn(env)(x, n)) {
      EnterKeepsContext(env, x, n);
    }
    Keeps(EnterIn(env), NextIn(env), s, work, fuel, Steady(s.context), any);
  }

  // --- Rows ---

  function TaskRows(env: Env, ends: seq<Node>): seq<Task> {
    if ends == [] then []
    else (if BaseOf(env, ends[0]) in {HumanTask, FormFill}
          then [Task(Graph(ends[0].id), Open, None, "", false, false)] else []) + TaskRows(env, ends[1..])
  }

  function ApprovalRows(env: Env, ends: seq<Node>): seq<Approval> {
    if ends == [] then []
    else (if BaseOf(env, ends[0]) == ApprovalGate
          then [Approval(ends[0].id, Pending, None, "")] else []) + ApprovalRows(env, ends[1..])
  }

  /** The nodes the listed trails from `n` end at. */
  ghost function Ends(env: Env, ctx: Context, n: Node, ps: seq<seq<nat>>): seq<Node>
    requires forall p :: p in ps ==> EndOf(env, ctx, n, p).Some?
  {
    if ps == [] then [] else [EndOf(env, ctx, n, ps[0]).value] + Ends(env, ctx, n, ps[1..])
  }

  ghost predicate Followable(env: Env, ctx: Context, ns: seq<Node>, pss: seq<seq<seq<nat>>>) {
    |ns| == |pss| && forall i :: 0 <= i < |ns| ==> Enumerates(env, ctx, ns[i], pss[i])
  }

  ghost function AllEnds(env: Env, ctx: Context, ns: seq<Node>, pss: seq<seq<seq<nat>>>): seq<Node>
    requires Followable(env, ctx, ns, pss)
  {
    if ns == [] then []
    else
      assert Enumerates(env, ctx, ns[0], pss[0]);
      assert Followable(env, ctx, ns[1..], pss[1..]);
      Ends(env, ctx, ns[0], pss[0]) + AllEnds(env, ctx, ns[1..], pss[1..])
  }

  lemma FollowableConcat(env: Env, ctx: Context, ns: seq<Node>, pss: seq<seq<seq<nat>>>, ms: seq<Node>,
                         qss: seq<seq<seq<nat>>>)
    requires Followable(env, ctx, ns, pss) && Followable(env, ctx, ms, qss)
    ensures Followable(env, ctx, ns + ms, pss + qss)
  {
    var all, lists := ns + ms, pss + qss;
    forall i | 0 <= i < |all| ensures Enumerates(env, ctx, all[i], lists[i]) {
      if i < |ns| {
        assert Enumerates(env, ctx, ns[i], pss[i]);
      } else {
        assert Enumerates(env, ctx, ms[i - |ns|], qss[i - |ns|]);
      }
    }
  }

  lemma FollowableRest(env: Env, ctx: Context, ns: seq<Node>, pss: seq<seq<seq<nat>>>)
    requires ns != [] && Followable(env, ctx, ns, pss)
    ensures Enumerates(env, ctx, ns[0], pss[0]) && Followable(env, ctx, ns[1..], pss[1..])
  {
    forall i | 0 <= i < |ns[1..]| ensures Enumerates(env, ctx, ns[1..][i], pss[1..][i]) {
      assert Enumerates(env, ctx, ns[i + 1], pss[i + 1]);
    }
  }

  lemma {:induction false} AllEndsConcat(env: Env, ctx: Context, ns: seq<Node>, pss: seq<seq<seq<nat>>>,
                                         ms: seq<Node>, qss: seq<seq<seq<nat>>>)
    requires Followable(env, ctx, ns, pss) && Followable(env, ctx, ms, qss)
    ensures Followable(env, ctx, ns + ms, pss + qss)
    ensures AllEnds(env, ctx, ns + ms, pss + qss) == AllEnds(env, ctx, ns, pss) + AllEnds(env, ctx, ms, qss)
    decreases |ns|
  {
    FollowableConcat(env, ctx, ns, pss, ms, qss);
    if ns == [] {
      assert ns + ms == ms && pss + qss == qss;
    } else {
      assert (ns + ms)[1..] == ns[1..] + ms && (pss + qss)[1..] == pss[1..] + qss;
      assert (ns + ms)[0] == ns[0] && (pss + qss)[0] == pss[0];
      FollowableRest(env, ctx, ns, pss);
      AllEndsConcat(env, ctx, ns[1..], pss[1..], ms, qss);
    }
  }

  lemma {:induction false} RowsConcat(env: Env, a: seq<Node>, b: seq<Node>)
    ensures TaskRows(env, a + b) == TaskRows(env, a) + TaskRows(env, b)
    ensures ApprovalRows(env, a + b) == ApprovalRows(env, a) + ApprovalRows(env, b)
  {
    if a == [] {
      assert a + b == b;
    } else {
      assert (a + b)[1..] == a[1..] + b;
      RowsConcat(env, a[1..], b);
    }
  }

  // --- Trails through a passing node ---

  /** Each trail of each successor, prefixed by the edge to that successor. */
  function Headed(k: nat, ps: seq<seq<nat>>): seq<seq<nat>> {
    if ps == [] then [] else [[k] + ps[0]] + Headed(k, ps[1..])
  }

  lemma {:induction false} HeadedIs(k: nat, ps: seq<seq<nat>>)
    ensures |Headed(k, ps)| == |ps| && forall i :: 0 <= i < |ps| ==> Headed(k, ps)[i] == [k] + ps[i]
    ensures forall p :: p in Headed(k, ps) <==> p != [] && p[0] == k && p[1..] in ps
  {
    if ps != [] {
      HeadedIs(k, ps[1..]);
      assert ps == [ps[0]] + ps[1..];
      assert forall p: seq<nat> :: p != [] && p[0] == k && p[1..] == ps[0] ==> p == [k] + ps[0];
      assert ([k] + ps[0])[1..] == ps[0];
    }
  }

  lemma HeadedAscending(k: nat, ps: seq<seq<nat>>)
    requires Ascending(ps)
    ensures Ascending(Headed(k, ps))
  {
    HeadedIs(k, ps);
    var hs := Headed(k, ps);
    forall i, j | 0 <= i < j < |hs| ensures LexLess(hs[i], hs[j]) {
      assert hs[i][1..] == ps[i] && hs[j][1..] == ps[j];
    }
  }

  function Spread(ks: seq<nat>, qss: seq<seq<seq<nat>>>): seq<seq<nat>>
    requires |ks| == |qss|
  {
    if ks == [] then [] else Headed(ks[0], qss[0]) + Spread(ks[1..], qss[1..])
  }

  lemma {:induction false} SpreadIs(ks: seq<nat>, qss: seq<seq<seq<nat>>>)
    requires |ks| == |qss|
    ensures forall p :: p in Spread(ks, qss) <==>
              p != [] && exists i :: 0 <= i < |ks| && ks[i] == p[0] && p[1..] in qss[i]
    decreases |ks|
  {
    if ks != [] {
      HeadedIs(ks[0], qss[0]);
      SpreadIs(ks[1..], qss[1..]);
      forall p
        ensures p in Spread(ks, qss) <==> p != [] && exists i :: 0 <= i < |ks| && ks[i] == p[0] && p[1..] in qss[i]
      {
        if p in Spread(ks[1..], qss[1..]) {
          var i :| 0 <= i < |ks[1..]| && ks[1..][i] == p[0] && p[1..] in qss[1..][i];
          assert ks[i + 1] == p[0] && p[1..] in qss[i + 1];
        }
        if p != [] && exists i :: 0 <= i < |ks| && ks[i] == p[0] && p[1..] in qss[i] {
          var i :| 0 <= i < |ks| && ks[i] == p[0] && p[1..] in qss[i];
          if i > 0 {
            assert ks[1..][i - 1] == p[0] && p[1..] in qss[1..][i - 1];
          }
        }
      }
    }
  }

  lemma {:induction false} SpreadAscending(ks: seq<nat>, qss: seq<seq<seq<nat>>>)
    requires |ks| == |qss| && (forall i :: 0 <= i < |qss| ==> Ascending(qss[i]))
    requires forall i, j :: 0 <= i < j < |ks| ==> ks[i] < ks[j]
    ensures Ascending(Spread(ks, qss))
    decreases |ks|
  {
    if ks != [] {
      var a, b := Headed(ks[0], qss[0]), Spread(ks[1..], qss[1..]);
      HeadedAscending(ks[0], qss[0]);
      SpreadAscending(ks[1..], qss[1..]);
      HeadedIs(ks[0], qss[0]);
      SpreadIs(ks[1..], qss[1..]);
      forall i, j | 0 <= i < j < |a + b| ensures LexLess((a + b)[i], (a + b)[j]) {
        if i < |a| <= j {
          var q := (a + b)[j];
          assert q == b[j - |a|] && q in b;
          var m :| 0 <= m < |ks[1..]| && ks[1..][m] == q[0] && q[1..] in qss[1..][m];
          assert (a + b)[i] == a[i] && a[i][0] == ks[0];
          assert ks[0] < ks[m + 1];
        }
      }
    }
  }

  /** The trails of a passing node are its successors' trails with the edge in front. */
  lemma SpreadEnumerates(env: Env, ctx: Context, n: Node, ks: seq<nat>, qss: seq<seq<seq<nat>>>)
    requires !IsWork(env, n) && (forall k: nat :: k in ks <==> Hop(env, ctx, n, k))
    requires forall k: nat :: k in ks ==> HasTarget(env, k)
    requires forall i, j :: 0 <= i < j < |ks| ==> ks[i] < ks[j]
    requires Followable(env, ctx, TargetsOf(env, ks), qss)
    ensures Enumerates(env, ctx, n, Spread(ks, qss))
  {
    var ns := TargetsOf(env, ks);
    forall i | 0 <= i < |qss| ensures Ascending(qss[i]) {
      assert Enumerates(env, ctx, ns[i], qss[i]);
    }
    SpreadAscending(ks, qss);
    SpreadIs(ks, qss);
    forall p ensures p in Spread(ks, qss) <==> WorkTrail(env, ctx, n, p) {
      if p in Spread(ks, qss) {
        var i :| 0 <= i < |ks| && ks[i] == p[0] && p[1..] in qss[i];
        assert ks[i] in ks;
        assert Enumerates(env, ctx, ns[i], qss[i]);
        assert WorkTrail(env, ctx, ns[i], p[1..]);
      }
      if WorkTrail(env, ctx, n, p) {
        assert p != [];
        assert p[0] in ks;
        var i :| 0 <= i < |ks| && ks[i] == p[0];
        assert Enumerates(env, ctx, ns[i], qss[i]);
        assert WorkTrail(env, ctx, ns[i], p[1..]);
      }
    }
  }

  lemma {:induction false} EndsConcat(env: Env, ctx: Context, n: Node, ps: seq<seq<nat>>, qs: seq<seq<nat>>)
    requires forall p :: p in ps ==> EndOf(env, ctx, n, p).Some?
    requires forall p :: p in qs ==> EndOf(env, ctx, n, p).Some?
    ensures forall p :: p in ps + qs ==> EndOf(env, ctx, n, p).Some?
    ensures Ends(env, ctx, n, ps + qs) == Ends(env, ctx, n, ps) + Ends(env, ctx, n, qs)
  {
    if ps == [] {
      assert ps + qs == qs;
    } else {
      assert (ps + qs)[1..] == ps[1..] + qs;
      EndsConcat(env, ctx, n, ps[1..], qs);
    }
  }

  lemma {:induction false} HeadedEnds(env: Env, ctx: Context, n: Node, k: nat, ps: seq<seq<nat>>)
    requires Hop(env, ctx, n, k) && forall p :: p in ps ==> EndOf(env, ctx, TargetOf(env, k), p).Some?
    ensures forall p :: p in Headed(k, ps) ==> EndOf(env, ctx, n, p).Some?
    ensures Ends(env, ctx, n, Headed(k, ps)) == Ends(env, ctx, TargetOf(env, k), ps)
  {
    if ps != [] {
      HeadedEnds(env, ctx, n, k, ps[1..]);
      assert ([k] + ps[0])[1..] == ps[0];
      assert EndOf(env, ctx, n, [k] + ps[0]) == EndOf(env, ctx, TargetOf(env, k), ps[0]);
    }
  }

  lemma {:induction false} SpreadEnds(env: Env, ctx: Context, n: Node, ks: seq<nat>, qss: seq<seq<seq<nat>>>)
    requires forall k: nat :: k in ks ==> Hop(env, ctx, n, k)
    requires forall k: nat :: k in ks ==> HasTarget(env, k)
    requires Followable(env, ctx, TargetsOf(env, ks), qss)
    ensures forall p :: p in Spread(ks, qss) ==> EndOf(env, ctx, n, p).Some?
    ensures Ends(env, ctx, n, Spread(ks, qss)) == AllEnds(env, ctx, TargetsOf(env, ks), qss)
    decreases |ks|
  {
    if ks != [] {
      var ns := TargetsOf(env, ks);
      assert Enumerates(env, ctx, ns[0], qss[0]);
      assert ks[0] in ks;
      assert ns[1..] == TargetsOf(env, ks[1..]);
      forall i | 0 <= i < |ns[1..]| ensures Enumerates(env, ctx, ns[1..][i], qss[1..][i]) {
        assert Enumerates(env, ctx, ns[i + 1], qss[i + 1]);
      }
      HeadedEnds(env, ctx, n, ks[0], qss[0]);
      SpreadEnds(env, ctx, n, ks[1..], qss[1..]);
      EndsConcat(env, ctx, n, Headed(ks[0], qss[0]), Spread(ks[1..], qss[1..]));
    }
  }

  /** At a work node only the empty trail remains. */
  lemma WorkStops(env: Env, ctx: Context, n: Node)
    requires IsWork(env, n)
    ensures Enumerates(env, ctx, n, [[]])
    ensures Ends(env, ctx, n, [[]]) == [n]
  {
    forall p ensures p in [[]] <==> WorkTrail(env, ctx, n, p) {}
    var once: seq<seq<nat>> := [[]];
    assert once[1..] == [];
  }

  /** Entering a work node adds its one row; entering any other node adds none. */
  lemma EnterRows(env: Env, s: State, n: Node)
    ensures Enter(env, s, n).tasks == s.tasks + (if IsWork(env, n) then TaskRows(env, [n]) else [])
    ensures Enter(env, s, n).approvals == s.approvals + (if IsWork(env, n) then ApprovalRows(env, [n]) else [])
    ensures IsWork(env, n) ==> Next(env, s, n) == []
  {
    EnterTables(env, s, n);
    assert [n][1..] == [];
    assert TaskRows(env, []) == [] && ApprovalRows(env, []) == [];
    assert TaskRows(env, [n]) == EnterTasks(env, n) && ApprovalRows(env, [n]) == EnterApprovals(env, n);
  }

  ghost predicate RowsAdded(env: Env, s: State, t: State, ends: seq<Node>) {
    t.tasks == s.tasks + TaskRows(env, ends) && t.approvals == s.approvals + ApprovalRows(env, ends)
  }

  lemma DrainStep(env: Env, s: State, work: seq<Node>, fuel: nat)
    requires work != [] && Drain(env, s, work, fuel).Some?
    ensures fuel > 0
    ensures Drain(env, s, work, fuel) == Drain(env, Enter(env, s, work[0]), Next(env, s, work[0]) + work[1..], fuel - 1)
  {
    assert EnterIn(env)(s, work[0]) == Enter(env, s, work[0]) && NextIn(env)(s, work[0]) == Next(env, s, work[0]);
  }

  lemma {:induction false} DrainRows(env: Env, s: State, work: seq<Node>, fuel: nat)
    returns (pss: seq<seq<seq<nat>>>)
    requires !env.nestedRead && OwnKeys(s) && Drain(env, s, work, fuel).Some?
    ensures Followable(env, s.context, work, pss)
    ensures RowsAdded(env, s, Drain(env, s, work, fuel).value, AllEnds(env, s.context, work, pss))
    decreases fuel
  {
    if work == [] {
      pss := [];
    } else {
      DrainStep(env, s, work, fuel);
      EnterKeepsContext(env, s, work[0]);
      var qss := DrainRows(env, Enter(env, s, work[0]), Next(env, s, work[0]) + work[1..], fuel - 1);
      pss := RowsStep(env, s, work, qss, Drain(env, s, work, fuel).value);
    }
  }

  /** Splitting the trail lists of a concatenation. */
  lemma SplitFollowable(env: Env, ctx: Context, ns: seq<Node>, rest: seq<Node>, qss: seq<seq<seq<nat>>>)
    requires Followable(env, ctx, ns + rest, qss)
    ensures Followable(env, ctx, ns, qss[..|ns|]) && Followable(env, ctx, rest, qss[|ns|..])
    ensures AllEnds(env, ctx, ns + rest, qss)
            == AllEnds(env, ctx, ns, qss[..|ns|]) + AllEnds(env, ctx, rest, qss[|ns|..])
  {
    var head, tail := qss[..|ns|], qss[|ns|..];
    assert qss == head + tail;
    forall i | 0 <= i < |ns| ensures Enumerates(env, ctx, ns[i], head[i]) {
      assert Enumerates(env, ctx, (ns + rest)[i], qss[i]);
    }
    forall i | 0 <= i < |rest| ensures Enumerates(env, ctx, rest[i], tail[i]) {
      assert Enumerates(env, ctx, (ns + rest)[|ns| + i], qss[|ns| + i]);
    }
    AllEndsConcat(env, ctx, ns, head, rest, tail);
  }

  lemma ConsFollowable(env: Env, ctx: Context, n: Node, first: seq<seq<nat>>, rest: seq<Node>, tail: seq<seq<seq<nat>>>)
    requires Enumerates(env, ctx, n, first) && Followable(env, ctx, rest, tail)
    ensures Followable(env, ctx, [n] + rest, [first] + tail)
    ensures AllEnds(env, ctx, [n] + rest, [first] + tail) == Ends(env, ctx, n, first) + AllEnds(env, ctx, rest, tail)
  {
    var work, pss := [n] + rest, [first] + tail;
    forall i | 0 <= i < |work| ensures Enumerates(env, ctx, work[i], pss[i]) {
      if i > 0 { assert Enumerates(env, ctx, rest[i - 1], tail[i - 1]); }
    }
    assert work[1..] == rest && pss[1..] == tail;
  }

  lemma Regroup<T>(s: seq<T>, s1: seq<T>, t: seq<T>, a: seq<T>, b: seq<T>, c: seq<T>)
    requires t == s1 + (b + c) && s1 + b == s + a
    ensures t == s + (a + c)
  {
    assert t == (s1 + b) + c;
  }

  /** Rows of `b + c` on top of the node's own are rows of `a + c`. */
  lemma RowsRegroup(env: Env, s: State, s1: State, t: State, a: seq<Node>, b: seq<Node>, c: seq<Node>)
    requires RowsAdded(env, s1, t, b + c)
    requires s1.tasks + TaskRows(env, b) == s.tasks + TaskRows(env, a)
    requires s1.approvals + ApprovalRows(env, b) == s.approvals + ApprovalRows(env, a)
    ensures RowsAdded(env, s, t, a + c)
  {
    RowsConcat(env, b, c);
    RowsConcat(env, a, c);
    Regroup(s.tasks, s1.tasks, t.tasks, TaskRows(env, a), TaskRows(env, b), TaskRows(env, c));
    Regroup(s.approvals, s1.approvals, t.approvals, ApprovalRows(env, a), ApprovalRows(env, b), ApprovalRows(env, c));
  }

  /** One visit: the rows of the whole list from the rows of what is left after it. */
  lemma RowsStep(env: Env, s: State, work: seq<Node>, qss: seq<seq<seq<nat>>>, t: State)
    returns (pss: seq<seq<seq<nat>>>)
    requires !env.nestedRead && OwnKeys(s) && work != []
    requires Followable(env, s.context, Next(env, s, work[0]) + work[1..], qss)
    requires RowsAdded(env, Enter(env, s, work[0]), t, AllEnds(env, s.context, Next(env, s, work[0]) + work[1..], qss))
    ensures Followable(env, s.context, work, pss)
    ensures RowsAdded(env, s, t, AllEnds(env, s.context, work, pss))
  {
    var n, rest, ctx := work[0], work[1..], s.context;
    var ns := Next(env, s, n);
    var head, tail := qss[..|ns|], qss[|ns|..];
    SplitFollowable(env, ctx, ns, rest, qss);
    var first := NodeRows(env, s, n, head);
    pss := [first] + tail;
    ConsFollowable(env, ctx, n, first, rest, tail);
    assert work == [n] + rest;
    RowsRegroup(env, s, Enter(env, s, n), t, Ends(env, ctx, n, first), AllEnds(env, ctx, ns, head),
                AllEnds(env, ctx, rest, tail));
  }

  /** The trails of one node and the rows it adds by itself, given those of its successors. */
  lemma NodeRows(env: Env, s: State, n: Node, head: seq<seq<seq<nat>>>) returns (first: seq<seq<nat>>)
    requires !env.nestedRead && OwnKeys(s)
    requires Followable(env, s.context, TargetsOf(env, Hops(env, s, n)), head)
    ensures Enumerates(env, s.context, n, first)
    ensures var b := AllEnds(env, s.context, TargetsOf(env, Hops(env, s, n)), head);
            && Enter(env, s, n).tasks + TaskRows(env, b) == s.tasks + TaskRows(env, Ends(env, s.context, n, first))
            && Enter(env, s, n).approvals + ApprovalRows(env, b)
               == s.approvals + ApprovalRows(env, Ends(env, s.context, n, first))
  {
    var ctx, ks := s.context, Hops(env, s, n);
    EnterRows(env, s, n);
    if IsWork(env, n) {
      WorkStops(env, ctx, n);
      first := [[]];
    } else {
      HopsAreHops(env, s, n);
      SpreadEnumerates(env, ctx, n, ks, head);
      SpreadEnds(env, ctx, n, ks, head);
      first := Spread(ks, head);
    }
  }

  /** Activating a node makes exactly one row per trail from it to a work node, in lexicographic
      order of the trails, and leaves the context alone. */
  lemma ActivationCountsTrails(env: Env, s: State, n: Node, fuel: nat) returns (ps: seq<seq<nat>>)
    requires !env.nestedRead && OwnKeys(s) && Drain(env, s, [n], fuel).Some?
    ensures Enumerates(env, s.context, n, ps)
    ensures RowsAdded(env, s, Drain(env, s, [n], fuel).value, Ends(env, s.context, n, ps))
    ensures Drain(env, s, [n], fuel).value.context == s.context
  {
    var pss := DrainRows(env, s, [n], fuel);
    RunSteady(env, s, [n], fuel);
    assert Enumerates(env, s.context, [n][0], pss[0]);
    ps := pss[0];
    assert AllEnds(env, s.context, [n][1..], pss[1..]) == [];
    assert AllEnds(env, s.context, [n], pss) == Ends(env, s.context, n, ps);
  }

  // --- When activation comes back ---

  /** Every trail from `n` is shorter than `b`. */
  ghost predicate Bounded(env: Env, ctx: Context, n: Node, b: nat) {
    forall p :: EndOf(env, ctx, n, p).Some? ==> |p| < b
  }

  lemma SteadyEntries(env: Env, ctx: Context)
    ensures forall x, n {:trigger EnterIn(env)(x, n)} :: Steady(ctx)(x) ==> Steady(ctx)(EnterIn(env)(x, n))
  {
    forall x: State, n: Node | Steady(ctx)(x) ensures Steady(ctx)(EnterIn(env)(x, n)) {
      EnterKeepsContext(env, x, n);
    }
  }

  /** A walk of the engine that comes back has bounded every trail. */
  lemma {:induction false} ReturnsBound(env: Env, s: State, n: Node, fuel: nat, p: seq<nat>)
    requires !env.nestedRead && OwnKeys(s) && Drain(env, s, [n], fuel).Some?
    requires EndOf(env, s.context, n, p).Some?
    ensures |p| < fuel
    decreases |p|
  {
    if p != [] {
      var ks := Hops(env, s, n);
      HopsAreHops(env, s, n);
      assert p[0] in ks;
      var i :| 0 <= i < |ks| && ks[i] == p[0];
      assert NextIn(env)(s, n) == TargetsOf(env, ks);
      SteadyEntries(env, s.context);
      var t, less := Descend(EnterIn(env), NextIn(env), s, n, i, fuel, Steady(s.context));
      assert NextIn(env)(s, n)[i] == TargetOf(env, p[0]);
      ReturnsBound(env, t, TargetOf(env, p[0]), less, p[1..]);
    } else {
      DrainStep(env, s, [n], fuel);
    }
  }

  lemma BoundedNext(env: Env, ctx: Context, n: Node, k: nat, b: nat)
    requires Bounded(env, ctx, n, b) && Hop(env, ctx, n, k)
    ensures b > 0 && Bounded(env, ctx, TargetOf(env, k), b - 1)
  {
    assert EndOf(env, ctx, n, []).Some?;
    forall p | EndOf(env, ctx, TargetOf(env, k), p).Some? ensures |p| < b - 1 {
      assert ([k] + p)[1..] == p;
      assert EndOf(env, ctx, n, [k] + p).Some?;
    }
  }

  ghost function BoundedIn(env: Env, ctx: Context): (Node, nat) -> bool {
    (n: Node, b: nat) => Bounded(env, ctx, n, b)
  }

  lemma BoundedVisit(env: Env, s: State, n: Node, b: nat)
    requires !env.nestedRead && OwnKeys(s) && Bounded(env, s.context, n, b)
    ensures b > 0 && AllSized(BoundedIn(env, s.context), NextIn(env)(s, n), b - 1)
  {
    var ks := Hops(env, s, n);
    var ms := Next(env, s, n);
    HopsAreHops(env, s, n);
    assert EndOf(env, s.context, n, []).Some?;
    forall m | m in ms ensures Bounded(env, s.context, m, b - 1) {
      var i :| 0 <= i < |ms| && ms[i] == m;
      assert ks[i] in ks;
      BoundedNext(env, s.context, n, ks[i], b);
    }
  }

  /** Bounded trails: some allowance is enough. */
  lemma BoundReturns(env: Env, s: State, n: Node, b: nat) returns (fuel: nat)
    requires !env.nestedRead && OwnKeys(s) && Bounded(env, s.context, n, b)
    ensures Drain(env, s, [n], fuel).Some?
  {
    var ctx := s.context;
    SteadyEntries(env, ctx);
    forall x: State, m: Node, c: nat | Steady(ctx)(x) && BoundedIn(env, ctx)(m, c)
      ensures c > 0 && AllSized(BoundedIn(env, ctx), NextIn(env)(x, m), c - 1)
    {
      BoundedVisit(env, x, m, c);
    }
    assert Drops(NextIn(env), Steady(ctx), BoundedIn(env, ctx));
    fuel := Finishes(EnterIn(env), NextIn(env), s, [n], b, Steady(ctx), BoundedIn(env, ctx));
  }

  /** Activation of a node comes back if and only if the trails from it are bounded. */
  lemma ReturnsIffBounded(env: Env, s: State, n: Node)
    requires !env.nestedRead && OwnKeys(s)
    ensures (exists fuel :: Drain(env, s, [n], fuel).Some?) <==> (exists b :: Bounded(env, s.context, n, b))
  {
    if fuel :| Drain(env, s, [n], fuel).Some? {
      forall p | EndOf(env, s.context, n, p).Some? ensures |p| < fuel { ReturnsBound(env, s, n, fuel, p); }
      assert Bounded(env, s.context, n, fuel);
    }
    if b :| Bounded(env, s.context, n, b) {
      var fuel := BoundReturns(env, s, n, b);
    }
  }

  /** A rank that drops along every hop bounds the trails. */
  lemma {:induction false} RankBounds(env: Env, ctx: Context, rank: Node -> nat, n: Node, p: seq<nat>)
    requires forall m: Node, k: nat {:trigger Hop(env, ctx, m, k)} ::
               Hop(env, ctx, m, k) ==> rank(TargetOf(env, k)) < rank(m)
    requires EndOf(env, ctx, n, p).Some?
    ensures |p| <= rank(n)
    decreases |p|
  {
    if p != [] {
      RankBounds(env, ctx, rank, TargetOf(env, p[0]), p[1..]);
    }
  }

  function Times(p: seq<nat>, k: nat): seq<nat> {
    if k == 0 then [] else p + Times(p, k - 1)
  }

  lemma {:induction false} EndOfConcat(env: Env, ctx: Context, n: Node, p: seq<nat>, q: seq<nat>)
    requires EndOf(env, ctx, n, p).Some?
    ensures EndOf(env, ctx, n, p + q) == EndOf(env, ctx, EndOf(env, ctx, n, p).value, q)
    decreases |p|
  {
    if p == [] {
      assert p + q == q;
    } else {
      assert (p + q)[1..] == p[1..] + q;
      EndOfConcat(env, ctx, TargetOf(env, p[0]), p[1..], q);
    }
  }

  lemma {:induction false} Around(env: Env, ctx: Context, n: Node, p: seq<nat>, k: nat)
    requires p != [] && EndOf(env, ctx, n, p) == Some(n)
    ensures EndOf(env, ctx, n, Times(p, k)) == Some(n) && |Times(p, k)| >= k
  {
    if k > 0 {
      Around(env, ctx, n, p, k - 1);
      EndOfConcat(env, ctx, n, p, Times(p, k - 1));
    }
  }

  /** On a cycle of hops the call never comes back, whatever the allowance. */
  lemma CycleNeverReturns(env: Env, s: State, n: Node, p: seq<nat>, fuel: nat)
    requires !env.nestedRead && OwnKeys(s)
    requires p != [] && EndOf(env, s.context, n, p) == Some(n)
    ensures Drain(env, s, [n], fuel) == None
  {
    if Drain(env, s, [n], fuel).Some? {
      Around(env, s.context, n, p, fuel);
      ReturnsBound(env, s, n, fuel, Times(p, fuel));
    }
  }

  // --- Cycles ---

  /** Trail `p` leads from `n` to a node that trail `q` leads back to. */
  ghost predicate CycleVia(env: Env, ctx: Context, n: Node, p: seq<nat>, q: seq<nat>) {
    && q != [] && EndOf(env, ctx, n, p).Some?
    && EndOf(env, ctx, EndOf(env, ctx, n, p).value, q) == EndOf(env, ctx, n, p)
  }

  /** Control entering `n` can run into a cycle of hops, through `n` or further on. */
  ghost predicate CycleReachable(env: Env, ctx: Context, n: Node) {
    exists p, q :: CycleVia(env, ctx, n, p, q)
  }

  /** More entries than values: one value occurs twice. */
  lemma {:induction false} Pigeonhole(s: seq<nat>, b: nat) returns (i: nat, j: nat)
    requires |s| > b && forall k :: 0 <= k < |s| ==> s[k] < b
    ensures i < j < |s| && s[i] == s[j]
    decreases b
  {
    assert s[0] < b;
    if k: nat :| k < |s| && s[k] == b - 1 {
      if l: nat :| l < |s| && l != k && s[l] == b - 1 {
        i, j := if k < l then k else l, if k < l then l else k;
      } else {
        var rest := s[..k] + s[k + 1..];
        assert forall m :: 0 <= m < |rest| ==> rest[m] == s[if m < k then m else m + 1];
        i, j := Pigeonhole(rest, b - 1);
        i, j := if i < k then i else i + 1, if j < k then j else j + 1;
      }
    } else {
      i, j := Pigeonhole(s, b - 1);
    }
  }

  /** The node a trail stands at after each of its edges. */
  lemma {:induction false} TrailAt(env: Env, ctx: Context, n: Node, p: seq<nat>, i: nat)
    requires EndOf(env, ctx, n, p).Some? && i < |p|
    ensures HasTarget(env, p[i]) && EndOf(env, ctx, n, p[..i + 1]) == Some(TargetOf(env, p[i]))
    decreases |p|
  {
    if i == 0 {
      assert p[..1][1..] == [];
    } else {
      assert p[..i + 1][1..] == p[1..][..i];
      TrailAt(env, ctx, TargetOf(env, p[0]), p[1..], i - 1);
    }
  }

  /** A trail that uses one edge twice has gone around a cycle. */
  lemma TwiceIsCycle(env: Env, ctx: Context, n: Node, p: seq<nat>, i: nat, j: nat)
    requires EndOf(env, ctx, n, p).Some? && i < j < |p| && p[i] == p[j]
    ensures CycleVia(env, ctx, n, p[..i + 1], p[i + 1..j + 1])
  {
    TrailAt(env, ctx, n, p, i);
    TrailAt(env, ctx, n, p, j);
    assert p[..j + 1] == p[..i + 1] + p[i + 1..j + 1];
    EndOfConcat(env, ctx, n, p[..i + 1], p[i + 1..j + 1]);
  }

  /** Without a reachable cycle no trail is longer than there are edges. */
  lemma AcyclicBounded(env: Env, ctx: Context, n: Node)
    requires !CycleReachable(env, ctx, n)
    ensures Bounded(env, ctx, n, |env.version.edges| + 1)
  {
    forall p | EndOf(env, ctx, n, p).Some? ensures |p| < |env.version.edges| + 1 {
      if |p| > |env.version.edges| {
        forall k | 0 <= k < |p| ensures p[k] < |env.version.edges| {
          TrailAt(env, ctx, n, p, k);
        }
        var i, j := Pigeonhole(p, |env.version.edges|);
        TwiceIsCycle(env, ctx, n, p, i, j);
      }
    }
  }

  /** Around a reachable cycle there are trails of any length. */
  lemma CycleUnbounded(env: Env, ctx: Context, n: Node, p: seq<nat>, q: seq<nat>, b: nat)
    requires CycleVia(env, ctx, n, p, q)
    ensures !Bounded(env, ctx, n, b)
  {
    var m := EndOf(env, ctx, n, p).value;
    Around(env, ctx, m, q, b);
    EndOfConcat(env, ctx, n, p, Times(q, b));
    assert EndOf(env, ctx, n, p + Times(q, b)).Some?;
  }

  /** Activation of a node comes back if and only if no cycle of hops can be reached from it. */
  lemma ReturnsIffAcyclic(env: Env, s: State, n: Node)
    requires !env.nestedRead && OwnKeys(s)
    ensures (exists fuel :: Drain(env, s, [n], fuel).Some?) <==> !CycleReachable(env, s.context, n)
  {
    ReturnsIffBounded(env, s, n);
    if !CycleReachable(env, s.context, n) {
      AcyclicBounded(env, s.context, n);
    }
    if p, q :| CycleVia(env, s.context, n, p, q) {
      forall b ensures !Bounded(env, s.context, n, b) {
        CycleUnbounded(env, s.context, n, p, q, b);
      }
    }
  }

  /** A rank that drops along every hop: activation comes back. */
  lemma RankReturns(env: Env, s: State, n: Node, rank: Node -> nat)
    requires !env.nestedRead && OwnKeys(s)
    requires forall m: Node, k: nat {:trigger Hop(env, s.context, m, k)} ::
               Hop(env, s.context, m, k) ==> rank(TargetOf(env, k)) < rank(m)
    ensures exists fuel :: Drain(env, s, [n], fuel).Some?
  {
    forall p | EndOf(env, s.context, n, p).Some? ensures |p| < rank(n) + 1 {
      RankBounds(env, s.context, rank, n, p);
    }
    assert Bounded(env, s.context, n, rank(n) + 1);
    ReturnsIffBounded(env, s, n);
  }
}
