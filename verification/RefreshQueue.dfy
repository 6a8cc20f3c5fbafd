/** The coalescing refresh queue, one worker at a time per capability. */
module RefreshQueue {
  // The event loop runs one piece at a time (server/desktopRepoSync.ts:379-425, 857-868).

  import opened Prelude

  /** Repository id to checkout root. */
  type Roots = map<string, string>

  /** One started async loop. `roots` is what its pending refresh works on; None once the loop has
      exited and only its `finally` is outstanding. */
  datatype Worker = Worker(cap: string, roots: Option<Roots>)

  datatype Refresh = Refresh(cap: string, roots: Roots)

  /** `handed` lists the refreshes begun so far. */
  datatype State = State(queued: map<string, Roots>, registered: set<string>, running: seq<Worker>,
                         handed: seq<Refresh>)

  datatype Move =
    | Enqueue(cap: string, roots: Roots)
    | Resume(w: nat)
    | Settle(w: nat)
    | Cancel(cap: string)

  function Merged(s: State, cap: string, roots: Roots): Roots {
    (if cap in s.queued then s.queued[cap] else map[]) + roots
  }

  function Start(s: State, cap: string): State
    requires cap in s.queued
  {
    State(s.queued - {cap}, s.registered + {cap}, s.running + [Worker(cap, Some(s.queued[cap]))],
          s.handed + [Refresh(cap, s.queued[cap])])
  }

  predicate Enabled(s: State, m: Move) {
    match m
    case Enqueue(_, _) => true
    case Cancel(_) => true
    case Resume(w) => w < |s.running| && s.running[w].roots.Some?
    case Settle(w) => w < |s.running| && s.running[w].roots.None?
  }

  function Next(s: State, m: Move): State
    requires Enabled(s, m)
  {
    match m
    case Enqueue(cap, roots) =>
      if roots == map[] then s
      else
        var s1 := s.(queued := s.queued[cap := Merged(s, cap, roots)]);
        if cap in s.registered then s1 else Start(s1, cap)
    case Resume(w) =>
      var cap := s.running[w].cap;
      var s1 := s.(queued := s.queued - {cap});
      if cap in s.queued && s.queued[cap] != map[] then
        s1.(running := s.running[w := Worker(cap, Some(s.queued[cap]))],
            handed := s.handed + [Refresh(cap, s.queued[cap])])
      else s1.(running := s.running[w := Worker(cap, None)])
    case Settle(w) =>
      s.(registered := s.registered - {s.running[w].cap}, running := s.running[..w] + s.running[w + 1..])
    case Cancel(cap) => s.(queued := s.queued - {cap})
  }

  predicate IsRun(s: State, moves: seq<Move>)
    decreases |moves|, 0
  {
    moves == []
    || (IsRun(s, moves[..|moves| - 1]) && Enabled(After(s, moves[..|moves| - 1]), moves[|moves| - 1]))
  }

  function After(s: State, moves: seq<Move>): State
    requires IsRun(s, moves)
    decreases |moves|, 1
  {
    if moves == [] then s else Next(After(s, moves[..|moves| - 1]), moves[|moves| - 1])
  }

  // --- The object ---

  class Queue {
    var queued: map<string, Roots>
    var registered: set<string>
    var running: seq<Worker>
    ghost var handed: seq<Refresh>

    ghost function Now(): State
      reads this
    {
      State(queued, registered, running, handed)
    }

    constructor ()
      ensures Now() == State(map[], {}, [], [])
    {
      queued, registered, running, handed := map[], {}, [], [];
    }

    /** `queueCapabilityCodeIndexRefresh`: the new worker runs up to its first await at once. */
    method Add(cap: string, roots: Roots)
      modifies this
      ensures Now() == Next(old(Now()), Enqueue(cap, roots))
    {
      if roots == map[] {
        return;
      }
      var waiting := if cap in queued then queued[cap] else map[];
      queued := queued[cap := waiting + roots];
      if cap in registered {
        return;
      }
      var nextRoots := queued[cap];
      queued := queued - {cap};
      handed := handed + [Refresh(cap, nextRoots)];
      running := running + [Worker(cap, Some(nextRoots))];
      registered := registered + {cap};
    }

    /** The refresh of worker `w` has settled, well or not: once around its loop. */
    method Continue(w: nat)
      requires w < |running| && running[w].roots.Some?
      modifies this
      ensures Now() == Next(old(Now()), Resume(w))
    {
      var cap := running[w].cap;
      var nextRoots := if cap in queued then queued[cap] else map[];
      queued := queued - {cap};
      if nextRoots == map[] {
        running := running[w := Worker(cap, None)];
        return;
      }
      handed := handed + [Refresh(cap, nextRoots)];
      running := running[w := Worker(cap, Some(nextRoots))];
    }

    /** The `finally` callback of worker `w`. */
    method Finally(w: nat)
      requires w < |running| && running[w].roots.None?
      modifies this
      ensures Now() == Next(old(Now()), Settle(w))
    {
      registered := registered - {running[w].cap};
      running := running[..w] + running[w + 1..];
    }

    /** The queue's part of `cancelPeriodicAstRefresh`. */
    method CancelPeriodicRefresh(cap: string)
      modifies this
      ensures Now() == Next(old(Now()), Cancel(cap))
    {
      queued := queued - {cap};
    }
  }

  // --- One worker per capability ---

  predicate Has(s: State, cap: string) {
    exists w :: 0 <= w < |s.running| && s.running[w].cap == cap
  }

  predicate OneEach(s: State) {
    forall v, w :: 0 <= v < w < |s.running| ==> s.running[v].cap != s.running[w].cap
  }

  ghost predicate Inv(s: State) {
    && OneEach(s)
    && (forall cap :: cap in s.registered <==> Has(s, cap))
    && (forall cap :: cap in s.queued ==> s.queued[cap] != map[])
  }

  /** Where worker `v` after the move stood before it; the last place of a longer list is new. */
  function From(m: Move, v: int): int {
    if m.Settle? && v >= m.w then v + 1 else v
  }

  lemma SameWorkers(s: State, m: Move)
    requires Enabled(s, m)
    ensures forall v {:trigger Next(s, m).running[v]} :: 0 <= v < |Next(s, m).running| ==>
              if From(m, v) < |s.running| then
                && Next(s, m).running[v].cap == s.running[From(m, v)].cap
                && (m != Resume(v) ==> Next(s, m).running[v] == s.running[From(m, v)])
              else m.Enqueue? && m.cap !in s.registered && v == |s.running| && Next(s, m).running[v].cap == m.cap
                   && Next(s, m).running[v].roots.Some?
    ensures forall v {:trigger s.running[v]} :: 0 <= v < |s.running| && m != Settle(v) ==>
              (m.Settle? && v > m.w && Next(s, m).running[v - 1] == s.running[v])
              || ((m.Settle? ==> v < m.w) && Next(s, m).running[v].cap == s.running[v].cap)
    ensures m.Settle? ==> s.running[m.w] == Worker(s.running[m.w].cap, None)
  {
    var t := Next(s, m);
    forall v | 0 <= v < |t.running|
      ensures if From(m, v) < |s.running| then
                && t.running[v].cap == s.running[From(m, v)].cap
                && (m != Resume(v) ==> t.running[v] == s.running[From(m, v)])
              else m.Enqueue? && m.cap !in s.registered && v == |s.running| && t.running[v].cap == m.cap
                   && t.running[v].roots.Some?
    {
      match m {
        case Settle(w) => assert t.running[v] == s.running[From(m, v)];
        case _ =>
      }
    }
  }

  lemma StepInv(s: State, m: Move)
    requires Inv(s) && Enabled(s, m)
    ensures Inv(Next(s, m))
  {
    var t := Next(s, m);
    forall cap ensures cap in t.registered <==> Has(t, cap) {
      StepRegistry(s, m, cap);
    }
    StepOneEach(s, m);
  }

  lemma StepRegistry(s: State, m: Move, cap: string)
    requires Inv(s) && Enabled(s, m)
    ensures cap in Next(s, m).registered <==> Has(Next(s, m), cap)
  {
    SameWorkers(s, m);
    assert cap in s.registered <==> Has(s, cap);
    if m.Enqueue? && m.cap == cap && cap in Next(s, m).registered && cap !in s.registered {
      assert Next(s, m).running[|s.running|].cap == cap;
    }
  }

  lemma StepOneEach(s: State, m: Move)
    requires Inv(s) && Enabled(s, m)
    ensures OneEach(Next(s, m))
  {
    SameWorkers(s, m);
  }

  lemma {:induction false} RunInv(s: State, moves: seq<Move>)
    requires Inv(s) && IsRun(s, moves)
    ensures Inv(After(s, moves))
    decreases |moves|
  {
    if moves != [] {
      RunInv(s, moves[..|moves| - 1]);
      StepInv(After(s, moves[..|moves| - 1]), moves[|moves| - 1]);
    }
  }

  /** In every run, started loops of one capability never overlap, and the registry knows exactly the
      loops whose `finally` has not run. */
  lemma OneWorkerEach(moves: seq<Move>)
    requires IsRun(State(map[], {}, [], []), moves)
    ensures OneEach(After(State(map[], {}, [], []), moves))
    ensures forall cap :: cap in After(State(map[], {}, [], []), moves).registered
                          <==> Has(After(State(map[], {}, [], []), moves), cap)
  {
    RunInv(State(map[], {}, [], []), moves);
  }

  /** The last refresh begun for a capability. */
  function LastHanded(handed: seq<Refresh>, cap: string): Option<Roots> {
    if handed == [] then None
    else if handed[|handed| - 1].cap == cap then Some(handed[|handed| - 1].roots)
    else LastHanded(handed[..|handed| - 1], cap)
  }

  lemma HandedOneMore(handed: seq<Refresh>, r: Refresh, cap: string)
    ensures LastHanded(handed + [r], cap) == if r.cap == cap then Some(r.roots) else LastHanded(handed, cap)
  {
    assert (handed + [r])[..|handed|] == handed;
  }

  ghost predicate WorksOnHanded(s: State) {
    forall w :: 0 <= w < |s.running| && s.running[w].roots.Some? ==>
      LastHanded(s.handed, s.running[w].cap) == s.running[w].roots
  }

  lemma StepWorksOnHanded(s: State, m: Move)
    requires Inv(s) && WorksOnHanded(s) && Enabled(s, m)
    ensures WorksOnHanded(Next(s, m))
  {
    var t := Next(s, m);
    SameWorkers(s, m);
    if t.handed != s.handed {
      assert t.handed == s.handed + [t.handed[|s.handed|]];
    }
    forall v | 0 <= v < |t.running| && t.running[v].roots.Some?
      ensures LastHanded(t.handed, t.running[v].cap) == t.running[v].roots
    {
      if t.handed != s.handed {
        HandedOneMore(s.handed, t.handed[|s.handed|], t.running[v].cap);
      }
      if From(m, v) < |s.running| && m != Resume(v) {
        assert t.running[v] == s.running[From(m, v)];
        assert m.Resume? ==> s.running[m.w].cap != s.running[v].cap;
        assert m.Enqueue? && m.cap == s.running[v].cap ==> Has(s, m.cap);
      }
    }
  }

  lemma {:induction false} RunWorksOnHanded(s: State, moves: seq<Move>)
    requires Inv(s) && WorksOnHanded(s) && IsRun(s, moves)
    ensures WorksOnHanded(After(s, moves))
    decreases |moves|
  {
    if moves != [] {
      RunWorksOnHanded(s, moves[..|moves| - 1]);
      RunInv(s, moves[..|moves| - 1]);
      StepWorksOnHanded(After(s, moves[..|moves| - 1]), moves[|moves| - 1]);
    }
  }

  /** In every run, what a worker is refreshing is what was handed last for its capability. */
  lemma WorkersWorkOnHanded(moves: seq<Move>)
    requires IsRun(State(map[], {}, [], []), moves)
    ensures WorksOnHanded(After(State(map[], {}, [], []), moves))
  {
    RunWorksOnHanded(State(map[], {}, [], []), moves);
  }

  // --- What becomes of an enqueued root ---

  predicate Waiting(s: State, cap: string, repo: string, root: string) {
    cap in s.queued && repo in s.queued[cap] && s.queued[cap][repo] == root
  }

  /** `m` asks for the same repository again. */
  predicate Overwrites(m: Move, cap: string, repo: string) {
    m.Enqueue? && m.cap == cap && repo in m.roots
  }

  predicate Carries(r: Refresh, cap: string, repo: string, root: string) {
    r.cap == cap && repo in r.roots && r.roots[repo] == root
  }

  predicate HandedSince(s: State, t: State, cap: string, repo: string, root: string) {
    exists i :: |s.handed| <= i < |t.handed| && Carries(t.handed[i], cap, repo, root)
  }

  predicate Superseded(moves: seq<Move>, cap: string, repo: string) {
    exists i :: 0 <= i < |moves| && (Overwrites(moves[i], cap, repo) || moves[i] == Cancel(cap))
  }

  lemma {:induction false} HandedGrows(s: State, moves: seq<Move>)
    requires IsRun(s, moves)
    ensures s.handed <= After(s, moves).handed
    decreases |moves|
  {
    if moves != [] {
      HandedGrows(s, moves[..|moves| - 1]);
    }
  }

  lemma {:induction false} WaitingRootsFate(s: State, moves: seq<Move>, cap: string, repo: string, root: string)
    requires IsRun(s, moves) && Waiting(s, cap, repo, root)
    ensures Waiting(After(s, moves), cap, repo, root) || HandedSince(s, After(s, moves), cap, repo, root)
            || Superseded(moves, cap, repo)
    decreases |moves|
  {
    if moves != [] {
      var before, m := moves[..|moves| - 1], moves[|moves| - 1];
      WaitingRootsFate(s, before, cap, repo, root);
      HandedGrows(s, before);
      var u, t := After(s, before), After(s, moves);
      if Superseded(before, cap, repo) {
        var i :| 0 <= i < |before| && (Overwrites(before[i], cap, repo) || before[i] == Cancel(cap));
        assert moves[i] == before[i];
      } else if HandedSince(s, u, cap, repo, root) {
        var i :| |s.handed| <= i < |u.handed| && Carries(u.handed[i], cap, repo, root);
        assert t.handed[i] == u.handed[i];
      } else if Overwrites(m, cap, repo) || m == Cancel(cap) {
        assert moves[|moves| - 1] == m;
      } else if !Waiting(t, cap, repo, root) {
        assert Carries(t.handed[|u.handed|], cap, repo, root);
      }
    }
  }

  /** No root gets lost: after an enqueue, whatever follows, each of its roots is still queued, or was
      handed to a refresh, or was asked for again, or was cancelled. */
  lemma EveryRootIsAccountedFor(s: State, cap: string, roots: Roots, moves: seq<Move>, repo: string)
    requires repo in roots && IsRun(Next(s, Enqueue(cap, roots)), moves)
    ensures var t := After(Next(s, Enqueue(cap, roots)), moves);
            || Waiting(t, cap, repo, roots[repo])
            || HandedSince(s, t, cap, repo, roots[repo])
            || Superseded(moves, cap, repo)
  {
    var u := Next(s, Enqueue(cap, roots));
    var t := After(u, moves);
    HandedGrows(u, moves);
    if cap in s.registered {
      WaitingRootsFate(u, moves, cap, repo, roots[repo]);
      if HandedSince(u, t, cap, repo, roots[repo]) {
        var i :| |u.handed| <= i < |t.handed| && Carries(t.handed[i], cap, repo, roots[repo]);
      }
    } else {
      assert Carries(u.handed[|s.handed|], cap, repo, roots[repo]);
      assert t.handed[|s.handed|] == u.handed[|s.handed|];
    }
  }

  // --- The stall ---

  /** Work is queued and nobody is registered to take it. */
  predicate Stalled(s: State, cap: string) {
    cap in s.queued && cap !in s.registered
  }

  /** The capability's loop has exited but its `finally` has not run. */
  predicate Leaving(s: State, cap: string) {
    exists w :: 0 <= w < |s.running| && s.running[w] == Worker(cap, None)
  }

  /** Move `i` enqueues work for `cap` between a loop exit and its `finally`. */
  predicate LateEnqueue(s: State, moves: seq<Move>, i: nat, cap: string)
    requires IsRun(s, moves) && i < |moves|
  {
    && moves[i].Enqueue? && moves[i].cap == cap && moves[i].roots != map[]
    && IsRun(s, moves[..i]) && Leaving(After(s, moves[..i]), cap)
  }

  /** A worker of the capability is still refreshing and will look at the queue again. */
  predicate Refreshing(s: State, cap: string) {
    exists w :: 0 <= w < |s.running| && s.running[w].cap == cap && s.running[w].roots.Some?
  }

  /** Work is queued and no worker will look at it. */
  predicate Orphaned(s: State, cap: string) {
    cap in s.queued && !Refreshing(s, cap)
  }

  /** What ends it: a cancel, or an enqueue that finds nobody registered and starts a worker. */
  predicate Rescues(s: State, m: Move, cap: string) {
    m == Cancel(cap) || (m.Enqueue? && m.cap == cap && m.roots != map[] && cap !in s.registered)
  }

  predicate RescueAt(s: State, moves: seq<Move>, j: nat, cap: string)
    requires IsRun(s, moves) && j < |moves|
  {
    IsRun(s, moves[..j]) && Rescues(After(s, moves[..j]), moves[j], cap)
  }

  predicate Unrescued(s: State, moves: seq<Move>, i: nat, cap: string)
    requires IsRun(s, moves)
  {
    forall j: nat :: i < j < |moves| ==> !RescueAt(s, moves, j, cap)
  }

  /** Move `i` is a late enqueue that nothing later makes up for. */
  predicate Abandoned(s: State, moves: seq<Move>, i: nat, cap: string)
    requires IsRun(s, moves) && i < |moves|
  {
    LateEnqueue(s, moves, i, cap) && Unrescued(s, moves, i, cap)
  }

  predicate SomeAbandoned(s: State, moves: seq<Move>, cap: string)
    requires IsRun(s, moves)
  {
    exists i: nat :: i < |moves| && Abandoned(s, moves, i, cap)
  }

  /** Move `j` is the `finally` of the worker of `cap`. */
  predicate SettleAt(s: State, moves: seq<Move>, j: nat, cap: string)
    requires IsRun(s, moves) && j < |moves|
  {
    && moves[j].Settle? && IsRun(s, moves[..j]) && moves[j].w < |After(s, moves[..j]).running|
    && After(s, moves[..j]).running[moves[j].w].cap == cap
  }

  /** One move on queued work: it is orphaned by a late enqueue, and stays so until it is rescued. */
  lemma OrphanStep(u: State, m: Move, cap: string)
    requires Inv(u) && Enabled(u, m)
    ensures Orphaned(Next(u, m), cap)
            <==> (Orphaned(u, cap) && !Rescues(u, m, cap))
                 || (m.Enqueue? && m.cap == cap && m.roots != map[] && Leaving(u, cap))
  {
    SameWorkers(u, m);
  }

  lemma {:induction false} RunPrefix(s: State, moves: seq<Move>, k: nat)
    requires IsRun(s, moves) && k <= |moves|
    ensures IsRun(s, moves[..k])
    decreases |moves|
  {
    if k < |moves| {
      assert moves[..|moves| - 1][..k] == moves[..k];
      RunPrefix(s, moves[..|moves| - 1], k);
    } else {
      assert moves[..k] == moves;
    }
  }

  /** What is said of a move speaks only of the run up to it. */
  lemma SameMoves(s: State, moves: seq<Move>, more: seq<Move>, i: nat, cap: string)
    requires IsRun(s, moves) && IsRun(s, more) && i < |moves| <= |more| && more[..|moves|] == moves
    ensures LateEnqueue(s, more, i, cap) <==> LateEnqueue(s, moves, i, cap)
    ensures RescueAt(s, more, i, cap) <==> RescueAt(s, moves, i, cap)
    ensures SettleAt(s, more, i, cap) <==> SettleAt(s, moves, i, cap)
  {
    assert more[..i] == moves[..i] && more[i] == moves[i];
  }

  lemma RescueLonger(s: State, before: seq<Move>, moves: seq<Move>, i: nat, j: nat, cap: string)
    requires IsRun(s, before) && IsRun(s, moves) && |moves| == |before| + 1 && moves[..|before|] == before
    requires Unrescued(s, before, i, cap) && !RescueAt(s, moves, |before|, cap) && i < j < |moves|
    ensures !RescueAt(s, moves, j, cap)
  {
    if j < |before| {
      assert !RescueAt(s, before, j, cap);
      SameMoves(s, before, moves, j, cap);
    } else {
      assert j == |before|;
    }
  }

  lemma UnrescuedLonger(s: State, before: seq<Move>, moves: seq<Move>, i: nat, cap: string)
    requires IsRun(s, before) && IsRun(s, moves) && |moves| == |before| + 1 && moves[..|before|] == before
    requires Unrescued(s, before, i, cap) && !RescueAt(s, moves, |before|, cap)
    ensures Unrescued(s, moves, i, cap)
  {
    forall j: nat | i < j < |moves| ensures !RescueAt(s, moves, j, cap) {
      RescueLonger(s, before, moves, i, j, cap);
    }
  }

  lemma UnrescuedShorter(s: State, before: seq<Move>, moves: seq<Move>, i: nat, cap: string)
    requires IsRun(s, before) && IsRun(s, moves) && |moves| == |before| + 1 && moves[..|before|] == before
    requires i < |before| && Unrescued(s, moves, i, cap)
    ensures Unrescued(s, before, i, cap) && !RescueAt(s, moves, |before|, cap)
  {
    forall j: nat | i < j < |before| ensures !RescueAt(s, before, j, cap) {
      assert !RescueAt(s, moves, j, cap);
      SameMoves(s, before, moves, j, cap);
    }
  }

  lemma AbandonedLonger(s: State, moves: seq<Move>, i: nat, cap: string)
    requires IsRun(s, moves) && i + 1 < |moves|
    ensures IsRun(s, moves[..|moves| - 1])
    ensures Abandoned(s, moves, i, cap)
            <==> Abandoned(s, moves[..|moves| - 1], i, cap) && !RescueAt(s, moves, |moves| - 1, cap)
  {
    var before := moves[..|moves| - 1];
    SameMoves(s, before, moves, i, cap);
    if Unrescued(s, moves, i, cap) {
      UnrescuedShorter(s, before, moves, i, cap);
    } else if Unrescued(s, before, i, cap) && !RescueAt(s, moves, |moves| - 1, cap) {
      UnrescuedLonger(s, before, moves, i, cap);
    }
  }

  /** Whenever nothing was orphaned at first: queued work is without a worker if and only if the run has
      a late enqueue that no later cancel and no later worker start made up for. */
  lemma {:induction false} OrphanedExactly(s: State, moves: seq<Move>, cap: string)
    requires Inv(s) && !Orphaned(s, cap) && IsRun(s, moves)
    ensures Orphaned(After(s, moves), cap) <==> SomeAbandoned(s, moves, cap)
    decreases |moves|
  {
    if moves != [] {
      var before, m, last := moves[..|moves| - 1], moves[|moves| - 1], |moves| - 1;
      RunInv(s, before);
      OrphanedExactly(s, before, cap);
      OrphanStep(After(s, before), m, cap);
      if LateEnqueue(s, moves, last, cap) {
        assert Abandoned(s, moves, last, cap);
      }
      if Orphaned(After(s, before), cap) && !Rescues(After(s, before), m, cap) {
        var i: nat :| i < |before| && Abandoned(s, before, i, cap);
        AbandonedLonger(s, moves, i, cap);
      }
      if i: nat :| i < |moves| && Abandoned(s, moves, i, cap) {
        if i < last {
          AbandonedLonger(s, moves, i, cap);
        }
      }
    }
  }

  lemma StallStep(u: State, m: Move, cap: string)
    requires Inv(u) && Enabled(u, m)
    ensures Stalled(Next(u, m), cap)
            <==> (Stalled(u, cap) && !Rescues(u, m, cap))
                 || (Orphaned(u, cap) && m.Settle? && u.running[m.w].cap == cap)
    ensures Stalled(u, cap) ==> Orphaned(u, cap)
  {
    SameWorkers(u, m);
    assert cap in u.registered <==> Has(u, cap);
  }

  /** A late enqueue nothing made up for, and the `finally` of the worker it had found. */
  predicate StallHistory(s: State, moves: seq<Move>, i: nat, j: nat, cap: string)
    requires IsRun(s, moves)
  {
    i < j < |moves| && Abandoned(s, moves, i, cap) && SettleAt(s, moves, j, cap)
  }

  lemma HistoryLonger(s: State, moves: seq<Move>, i: nat, j: nat, cap: string)
    requires IsRun(s, moves) && i < j < |moves| - 1
    ensures IsRun(s, moves[..|moves| - 1])
    ensures StallHistory(s, moves, i, j, cap)
            <==> StallHistory(s, moves[..|moves| - 1], i, j, cap) && !RescueAt(s, moves, |moves| - 1, cap)
  {
    AbandonedLonger(s, moves, i, cap);
    SameMoves(s, moves[..|moves| - 1], moves, j, cap);
  }

  lemma {:induction false} HistoryStalls(s: State, moves: seq<Move>, i: nat, j: nat, cap: string)
    requires Inv(s) && !Orphaned(s, cap) && IsRun(s, moves) && StallHistory(s, moves, i, j, cap)
    ensures Stalled(After(s, moves), cap)
    decreases |moves|
  {
    var before, m, last := moves[..|moves| - 1], moves[|moves| - 1], |moves| - 1;
    RunInv(s, before);
    StallStep(After(s, before), m, cap);
    if j < last {
      HistoryLonger(s, moves, i, j, cap);
      HistoryStalls(s, before, i, j, cap);
    } else {
      AbandonedLonger(s, moves, i, cap);
      OrphanedExactly(s, before, cap);
    }
  }

  lemma {:induction false} StallHasHistory(s: State, moves: seq<Move>, cap: string) returns (i: nat, j: nat)
    requires Inv(s) && !Orphaned(s, cap) && IsRun(s, moves) && Stalled(After(s, moves), cap)
    ensures StallHistory(s, moves, i, j, cap)
    decreases |moves|
  {
    RunInv(s, moves);
    var before, m := moves[..|moves| - 1], moves[|moves| - 1];
    var u := After(s, before);
    RunInv(s, before);
    StallStep(u, m, cap);
    if Stalled(u, cap) {
      i, j := StallHasHistory(s, before, cap);
      HistoryLonger(s, moves, i, j, cap);
    } else {
      OrphanedExactly(s, before, cap);
      i :| i < |before| && Abandoned(s, before, i, cap);
      j := |before|;
      AbandonedLonger(s, moves, i, cap);
    }
  }

  /** The stall, exactly: work is queued and nobody is registered if and only if a late enqueue was
      followed by the `finally` of the worker it had found, and by nothing that made up for it. */
  lemma StalledExactly(s: State, moves: seq<Move>, cap: string)
    requires Inv(s) && !Orphaned(s, cap) && IsRun(s, moves)
    ensures Stalled(After(s, moves), cap) <==> exists i: nat, j: nat :: StallHistory(s, moves, i, j, cap)
  {
    if Stalled(After(s, moves), cap) {
      var i, j := StallHasHistory(s, moves, cap);
    }
    if i: nat, j: nat :| StallHistory(s, moves, i, j, cap) {
      HistoryStalls(s, moves, i, j, cap);
    }
  }

  /** In any state a run can reach: once work is enqueued for a leaving worker, its `finally` stalls the
      work, unless a cancel comes in between. */
  lemma LateEnqueueThenSettle(u: State, cap: string, roots: Roots, moves: seq<Move>, w: nat)
    requires Inv(u) && Leaving(u, cap) && roots != map[]
    requires IsRun(Next(u, Enqueue(cap, roots)), moves) && Cancel(cap) !in moves
    requires forall j: nat :: j < |moves| ==> !SettleAt(Next(u, Enqueue(cap, roots)), moves, j, cap)
    ensures var t := After(Next(u, Enqueue(cap, roots)), moves);
            && Orphaned(t, cap)
            && (Enabled(t, Settle(w)) && t.running[w].cap == cap ==> Stalled(Next(t, Settle(w)), cap))
  {
    var s := Next(u, Enqueue(cap, roots));
    StepInv(u, Enqueue(cap, roots));
    OrphanStep(u, Enqueue(cap, roots), cap);
    StaysRegistered(s, moves, cap);
    var t := After(s, moves);
    RunInv(s, moves);
    if Enabled(t, Settle(w)) && t.running[w].cap == cap {
      StallStep(t, Settle(w), cap);
    }
  }

  /** Without a cancel and without its worker's `finally`, orphaned work stays queued and registered. */
  lemma {:induction false} StaysRegistered(s: State, moves: seq<Move>, cap: string)
    requires Inv(s) && IsRun(s, moves) && Orphaned(s, cap) && cap in s.registered
    requires Cancel(cap) !in moves && forall j: nat :: j < |moves| ==> !SettleAt(s, moves, j, cap)
    ensures Orphaned(After(s, moves), cap) && cap in After(s, moves).registered
    decreases |moves|
  {
    if moves != [] {
      var before, m, last := moves[..|moves| - 1], moves[|moves| - 1], |moves| - 1;
      assert m in moves;
      forall j: nat | j < |before| ensures !SettleAt(s, before, j, cap) { SameMoves(s, before, moves, j, cap); }
      StaysRegistered(s, before, cap);
      RunInv(s, before);
      assert !SettleAt(s, moves, last, cap);
      OrphanStep(After(s, before), m, cap);
    }
  }

  /** Queued work has a worker that is still refreshing and takes all of it when it resumes, if and only
      if no late enqueue was abandoned. */
  lemma QueuedWorkHasAWorker(moves: seq<Move>, cap: string)
    requires IsRun(State(map[], {}, [], []), moves)
    ensures var s := State(map[], {}, [], []);
            var t := After(s, moves);
            cap in t.queued ==>
              (!SomeAbandoned(s, moves, cap)
               <==> exists w :: 0 <= w < |t.running| && t.running[w].cap == cap && Enabled(t, Resume(w))
                                && cap !in Next(t, Resume(w)).queued
                                && Next(t, Resume(w)).handed == t.handed + [Refresh(cap, t.queued[cap])])
  {
    var s := State(map[], {}, [], []);
    var t := After(s, moves);
    RunInv(s, moves);
    OrphanedExactly(s, moves, cap);
    if cap in t.queued && Refreshing(t, cap) {
      var w :| 0 <= w < |t.running| && t.running[w].cap == cap && t.running[w].roots.Some?;
      assert Enabled(t, Resume(w));
    }
  }

  /** The stall is real, for any capability and any roots: the second enqueue finds the leaving worker
      registered and starts none. */
  lemma LateEnqueueStalls(cap: string, a: Roots, b: Roots)
    requires a != map[] && b != map[]
    ensures var s := State(map[], {}, [], []);
            var moves := [Enqueue(cap, a), Resume(0), Enqueue(cap, b), Settle(0)];
            IsRun(s, moves) && After(s, moves) == State(map[cap := b], {}, [], [Refresh(cap, a)])
  {
    var s := State(map[], {}, [], []);
    var none: Roots := map[];
    assert none + a == a && none + b == b;
    var m1, s1 := Push(s, [], Enqueue(cap, a));
    assert Merged(s, cap, a) == a;
    assert s1 == State(map[], {cap}, [Worker(cap, Some(a))], [Refresh(cap, a)]);
    var m2, s2 := Push(s, m1, Resume(0));
    assert s2 == State(map[], {cap}, [Worker(cap, None)], [Refresh(cap, a)]);
    var m3, s3 := Push(s, m2, Enqueue(cap, b));
    assert Merged(s2, cap, b) == b;
    assert s3 == State(map[cap := b], {cap}, [Worker(cap, None)], [Refresh(cap, a)]);
    var m4, s4 := Push(s, m3, Settle(0));
    assert s4 == State(map[cap := b], {}, [], [Refresh(cap, a)]);
    assert m4 == [Enqueue(cap, a), Resume(0), Enqueue(cap, b), Settle(0)];
  }

  lemma Push(s: State, moves: seq<Move>, m: Move) returns (more: seq<Move>, t: State)
    requires IsRun(s, moves) && Enabled(After(s, moves), m)
    ensures more == moves + [m] && IsRun(s, more)
    ensures t == After(s, more) == Next(After(s, moves), m)
  {
    more := moves + [m];
    assert more[..|more| - 1] == moves;
    t := After(s, more);
  }

  /** The next enqueue for the capability ends the stall and takes the stalled roots along, except
      where it asks for the same repository itself. */
  lemma NextEnqueueHeals(s: State, cap: string, roots: Roots, repo: string, root: string)
    requires Stalled(s, cap) && Waiting(s, cap, repo, root) && roots != map[]
    ensures var t := Next(s, Enqueue(cap, roots));
            && !Stalled(t, cap)
            && HandedSince(s, t, cap, repo, if repo in roots then roots[repo] else root)
  {
    var t := Next(s, Enqueue(cap, roots));
    assert Carries(t.handed[|s.handed|], cap, repo, if repo in roots then roots[repo] else root);
  }
}
