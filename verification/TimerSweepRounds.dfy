/** What a sweep and a cancel get done: undisturbed rounds, and what every commit shows. */
module TimerSweepRounds {
  // server/businessWorkflowSweeper.ts:102-148; server/businessWorkflows.ts:768-785.

  import opened TimerSweep

  // --- What a move shows ---

  /** Flags change only when the holder of the row commits, by what it has written; nothing else about a row
      that others look at ever changes. */
  lemma FlagsShowAtCommit(s: State, m: Move, k: nat)
    requires Inv(s) && Enabled(s, m) && k < |s.rows|
    ensures var before, after := s.rows[k], Next(s, m).rows[k];
            && after.fireAt == before.fireAt
            && (after.fired <==> before.fired || (m.Commit? && m.a == before.owner && before.pending.ToFire?))
            && (after.cancelled <==> before.cancelled || (m.Commit? && m.a == before.owner && before.pending.ToCancel?))
  {
    assert RowOk(s, k);
  }

  /** Whoever commits or rolls back holds nothing afterwards and rests. */
  lemma EndFrees(s: State, m: Move, a: nat)
    requires Enabled(s, m) && Finishes(m, a)
    ensures Next(s, m).actors == s.actors[a := Resting]
    ensures forall k :: 0 <= k < |s.rows| ==> Next(s, m).rows[k].owner != a
  {}

  /** When a cancel commits, none of the rows it wanted is armed, whatever happened since it began. */
  lemma CancelIsThorough(s: State, a: nat, k: nat)
    requires Inv(s) && Enabled(s, Commit(a)) && s.actors[a].Cancelling? && k in s.actors[a].want && k < |s.rows|
    ensures !Armed(Next(s, Commit(a)).rows[k])
  {
    assert RowOk(s, k);
  }

  /** A row armed for a time can be taken by a resting sweeper from that time on, and not before. */
  lemma DueInTime(s: State, fireAt: int, d: nat, a: nat)
    requires Is(s, a) && s.actors[a].Resting?
    ensures var t := Next(Next(s, Arm(fireAt)), Tick(d));
            Enabled(t, Take(a, [|s.rows|])) <==> fireAt <= s.now + d
  {
    var t := Next(Next(s, Arm(fireAt)), Tick(d));
    assert t.rows[|s.rows|] == Row(fireAt, false, false, FREE, Nothing, 0, 0);
    assert |s.rows| in [|s.rows|];
  }

  /** Fifty rows at a time, no more. */
  lemma BatchOfFifty(s: State, a: nat, ks: seq<nat>)
    requires Is(s, a) && s.actors[a].Resting? && Distinct(ks)
    requires forall k :: k in ks ==>
               k < |s.rows| && !s.rows[k].fired && !s.rows[k].cancelled && s.rows[k].owner == FREE
               && s.rows[k].fireAt <= s.now
    ensures Enabled(s, Take(a, ks)) <==> |ks| <= 50
  {}

  // --- Every row of a batch is handled ---

  /** How many rows sweeper `a` has passed in the moves. */
  function Passed(moves: seq<Move>, a: nat): nat
    decreases |moves|
  {
    if moves == [] then 0
    else (if moves[0] == Fail(a) || moves[0] == Stamp(a) then 1 else 0) + Passed(moves[1..], a)
  }

  lemma OneMove(s: State, m: Move, a: nat)
    requires Inv(s) && Enabled(s, m) && Is(s, a) && s.actors[a].Sweeping? && !Finishes(m, a)
    ensures Is(Next(s, m), a) && Next(s, m).actors[a].Sweeping?
    ensures |s.actors[a].todo| == |Next(s, m).actors[a].todo| + if m == Fail(a) || m == Stamp(a) then 1 else 0
  {}

  lemma {:induction false} TodoShrinks(s: State, moves: seq<Move>, a: nat)
    requires Inv(s) && IsRun(s, moves) && Is(s, a) && s.actors[a].Sweeping?
    requires forall m :: m in moves ==> !Finishes(m, a)
    ensures var t := After(s, moves);
            Is(t, a) && t.actors[a].Sweeping? && |s.actors[a].todo| == |t.actors[a].todo| + Passed(moves, a)
    decreases |moves|
  {
    if moves != [] {
      assert moves[0] in moves;
      assert forall x :: x in moves[1..] ==> x in moves;
      OneMove(s, moves[0], a);
      StepInv(s, moves[0]);
      TodoShrinks(Next(s, moves[0]), moves[1..], a);
    }
  }

  /** Whatever others do in between, a sweep commits when it has passed every row it took, not before. */
  lemma EveryRowIsHandled(s: State, a: nat, ks: seq<nat>, moves: seq<Move>)
    requires Inv(s) && Enabled(s, Take(a, ks)) && IsRun(Next(s, Take(a, ks)), moves)
    requires forall m :: m in moves ==> !Finishes(m, a)
    ensures Passed(moves, a) <= |ks|
    ensures Enabled(After(Next(s, Take(a, ks)), moves), Commit(a)) ==> Passed(moves, a) == |ks|
  {
    var t := Next(s, Take(a, ks));
    StepInv(s, Take(a, ks));
    TodoShrinks(t, moves, a);
  }

  // --- An undisturbed sweep ---

  lemma First(s: State, m: Move, rest: seq<Move>)
    requires Enabled(s, m) && IsRun(Next(s, m), rest)
    ensures IsRun(s, [m] + rest) && After(s, [m] + rest) == After(Next(s, m), rest)
  {
    assert ([m] + rest)[1..] == rest;
  }

  /** One sweep over the rows `ks`, whose actions wait for nobody; those in `bad` fail. */
  function Round(a: nat, ks: seq<nat>, bad: set<nat>): seq<Move> {
    if ks == [] then [Commit(a)]
    else
      [Act(a, NOBODY)]
      + (if ks[0] in bad then [Fail(a)] + Round(a, ks[1..], bad)
         else [Succeed(a)] + ([Stamp(a)] + Round(a, ks[1..], bad)))
  }

  /** Sweeper `a` is about to handle the rows `ks`. */
  predicate About(s: State, a: nat, ks: seq<nat>) {
    Inv(s) && Is(s, a) && s.actors[a] == Sweeping(ks, Ready)
  }

  /** One row handled: the action came back and the row is stamped, or it failed and nothing is written. */
  predicate OneHandled(s: State, u: State, a: nat, k: nat, failed: bool)
    requires k < |s.rows| && Is(s, a) && s.actors[a].Sweeping? && s.actors[a].todo != []
  {
    && u.now == s.now && u.actors == s.actors[a := Sweeping(s.actors[a].todo[1..], Ready)]
    && u.rows == if failed then s.rows
                 else s.rows[k := s.rows[k].(pending := ToFire, delivered := s.rows[k].delivered + 1)]
  }

  lemma HandleOne(s: State, a: nat, ks: seq<nat>, failed: bool, rest: seq<Move>) returns (u: State, moves: seq<Move>)
    requires About(s, a, ks) && ks != []
    ensures ks[0] < |s.rows| && s.rows[ks[0]].owner == a && About(u, a, ks[1..])
    ensures OneHandled(s, u, a, ks[0], failed)
    ensures moves == [Act(a, NOBODY)] + if failed then [Fail(a)] + rest else [Succeed(a)] + ([Stamp(a)] + rest)
    ensures IsRun(u, rest) ==> IsRun(s, moves) && After(s, moves) == After(u, rest)
  {
    assert ActorOk(s, a) && ks[0] in ks;
    var s1 := Next(s, Act(a, NOBODY));
    StepInv(s, Act(a, NOBODY));
    if failed {
      u := Next(s1, Fail(a));
      StepInv(s1, Fail(a));
      moves := [Act(a, NOBODY)] + ([Fail(a)] + rest);
      if IsRun(u, rest) {
        First(s1, Fail(a), rest);
        First(s, Act(a, NOBODY), [Fail(a)] + rest);
      }
    } else {
      var s2 := Next(s1, Succeed(a));
      StepInv(s1, Succeed(a));
      u := Next(s2, Stamp(a));
      StepInv(s2, Stamp(a));
      moves := [Act(a, NOBODY)] + ([Succeed(a)] + ([Stamp(a)] + rest));
      if IsRun(u, rest) {
        First(s2, Stamp(a), rest);
        First(s1, Succeed(a), [Stamp(a)] + rest);
        First(s, Act(a, NOBODY), [Succeed(a)] + ([Stamp(a)] + rest));
      }
    }
  }

  /** What a finished round makes of row `k`. */
  function Afterwards(r: Row, a: nat, fires: bool): Row {
    if r.owner != a then r
    else if fires then r.(fired := true, owner := FREE, pending := Nothing, delivered := r.delivered + 1)
    else Committed(r)
  }

  ghost predicate RoundDone(s: State, t: State, a: nat, ks: seq<nat>, bad: set<nat>) {
    && t.now == s.now && |s.actors| > a && t.actors == s.actors[a := Resting] && |t.rows| == |s.rows|
    && forall k :: 0 <= k < |s.rows| ==> t.rows[k] == Afterwards(s.rows[k], a, k in ks && k !in bad)
  }

  lemma {:induction false} RoundRuns(s: State, a: nat, ks: seq<nat>, bad: set<nat>)
    requires About(s, a, ks)
    ensures IsRun(s, Round(a, ks, bad)) && RoundDone(s, After(s, Round(a, ks, bad)), a, ks, bad)
    decreases |ks|
  {
    if ks == [] {
      assert [Commit(a)][1..] == [];
    } else {
      var rest := Round(a, ks[1..], bad);
      var u, moves := HandleOne(s, a, ks, ks[0] in bad, rest);
      RoundRuns(u, a, ks[1..], bad);
      assert moves == Round(a, ks, bad);
      OneThenRest(s, u, After(u, rest), a, ks, bad);
    }
  }

  lemma OneThenRest(s: State, u: State, t: State, a: nat, ks: seq<nat>, bad: set<nat>)
    requires About(s, a, ks) && ks != [] && ks[0] < |s.rows| && s.rows[ks[0]].owner == a
    requires OneHandled(s, u, a, ks[0], ks[0] in bad) && RoundDone(u, t, a, ks[1..], bad)
    ensures RoundDone(s, t, a, ks, bad)
  {
    assert ActorOk(s, a);
    assert ks[0] !in ks[1..];
    assert forall k :: k in ks <==> k == ks[0] || k in ks[1..];
    assert RowOk(s, ks[0]);
  }

  /** A sweep that nobody disturbs can always run to its end. It fires exactly the rows it took whose action
      came back, each delivered once more, and leaves all others, and everybody else, as they were. */
  lemma SweepFires(s: State, a: nat, ks: seq<nat>, bad: set<nat>)
    requires Inv(s) && Enabled(s, Take(a, ks))
    ensures var moves := [Take(a, ks)] + Round(a, ks, bad);
            && IsRun(s, moves)
            && var t := After(s, moves);
               && t.now == s.now && t.actors == s.actors && |t.rows| == |s.rows|
               && forall k :: 0 <= k < |s.rows| ==>
                    t.rows[k] == if k in ks && k !in bad
                                 then s.rows[k].(fired := true, delivered := s.rows[k].delivered + 1) else s.rows[k]
  {
    var u := Next(s, Take(a, ks));
    StepInv(s, Take(a, ks));
    RoundRuns(u, a, ks, bad);
    First(s, Take(a, ks), Round(a, ks, bad));
    forall k | 0 <= k < |s.rows|
      ensures Afterwards(u.rows[k], a, k in ks && k !in bad)
              == if k in ks && k !in bad
                 then s.rows[k].(fired := true, delivered := s.rows[k].delivered + 1) else s.rows[k]
    {
      assert RowOk(s, k);
    }
  }

  // --- An undisturbed cancel ---

  function CancelRound(a: nat, ks: seq<nat>): seq<Move> {
    if ks == [] then [Commit(a)] else [CancelRow(a, ks[0])] + CancelRound(a, ks[1..])
  }

  /** Canceller `a` still has the rows `ks` to take: all armed, free and wanted. */
  predicate AboutToCancel(s: State, a: nat, want: set<nat>, ks: seq<nat>) {
    && Inv(s) && Is(s, a) && s.actors[a] == Cancelling(want) && Distinct(ks)
    && (forall k :: k in ks ==> k in want && k < |s.rows| && Armed(s.rows[k]) && s.rows[k].owner == FREE)
    && forall k :: k in want && k < |s.rows| ==> k in ks || s.rows[k].owner == a || !Armed(s.rows[k])
  }

  lemma {:induction false} CancelRoundRuns(s: State, a: nat, want: set<nat>, ks: seq<nat>)
    requires AboutToCancel(s, a, want, ks)
    ensures IsRun(s, CancelRound(a, ks))
    ensures var t := After(s, CancelRound(a, ks));
            && t.now == s.now && t.actors == s.actors[a := Resting] && |t.rows| == |s.rows|
            && forall k :: 0 <= k < |s.rows| ==>
                 t.rows[k] == if k in ks then s.rows[k].(cancelled := true)
                              else if s.rows[k].owner == a then Committed(s.rows[k]) else s.rows[k]
    decreases |ks|
  {
    if ks == [] {
      assert [Commit(a)][1..] == [];
    } else {
      var m := CancelRow(a, ks[0]);
      assert ks[0] in ks;
      var u := Next(s, m);
      StepInv(s, m);
      assert ks[0] !in ks[1..];
      assert forall k :: k in ks <==> k == ks[0] || k in ks[1..];
      CancelRoundRuns(u, a, want, ks[1..]);
      First(s, m, CancelRound(a, ks[1..]));
      assert RowOk(s, ks[0]);
    }
  }

  /** A cancel that finds the armed rows it wants free cancels exactly these. */
  lemma CancelTakesEffect(s: State, a: nat, want: set<nat>, ks: seq<nat>)
    requires Inv(s) && Is(s, a) && s.actors[a].Resting? && Distinct(ks)
    requires forall k :: k in ks <==> k in want && k < |s.rows| && Armed(s.rows[k])
    requires forall k :: k in ks ==> s.rows[k].owner == FREE
    ensures var moves := [StartCancel(a, want)] + CancelRound(a, ks);
            && IsRun(s, moves)
            && var t := After(s, moves);
               && t.now == s.now && t.actors == s.actors && |t.rows| == |s.rows|
               && forall k :: 0 <= k < |s.rows| ==>
                    t.rows[k] == if k in ks then s.rows[k].(cancelled := true) else s.rows[k]
  {
    var m := StartCancel(a, want);
    var u := Next(s, m);
    StepInv(s, m);
    CancelRoundRuns(u, a, want, ks);
    First(s, m, CancelRound(a, ks));
    forall k | 0 <= k < |s.rows| ensures s.rows[k].owner != a {
      assert RowOk(s, k);
    }
  }
}
