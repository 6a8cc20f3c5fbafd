/** Sweepers and cancels on one timers table, statement by statement, under row locks. */
module TimerSweep {
  // server/businessWorkflowSweeper.ts:102-148, 195-253; server/businessWorkflows.ts:768-785, 1126-1132.

  import WorkflowGraph
  import E = Engine

  /** What the transaction that holds the row has written but not committed. */
  datatype Pending = Nothing | ToFire | ToCancel

  /** `owner` is the actor holding the row lock. `delivered` counts actions that came back, `lost`
      those of them whose transaction was rolled back afterwards. */
  datatype Row = Row(fireAt: int, fired: bool, cancelled: bool, owner: int, pending: Pending,
                     delivered: nat, lost: nat)

  const FREE := -1
  const NOBODY := -1
  const BATCH := 50

  /** Where a sweeper is with the first row of its list: not begun, inside the action (which may wait
      for another connection), or past it and about to stamp. */
  datatype Stage = Ready | Acting(awaits: int) | Acted

  datatype Actor =
    | Resting
    | Sweeping(todo: seq<nat>, stage: Stage)
    | Cancelling(want: set<nat>)

  datatype State = State(now: int, rows: seq<Row>, actors: seq<Actor>)

  datatype Move =
    | Tick(d: nat)
    | Arm(fireAt: int)
    | Take(a: nat, ks: seq<nat>)
    | Act(a: nat, awaits: int)
    | Succeed(a: nat)
    | Fail(a: nat)
    | Stamp(a: nat)
    | StartCancel(a: nat, want: set<nat>)
    | CancelRow(a: nat, k: nat)
    | Commit(a: nat)
    | Rollback(a: nat)

  predicate Armed(r: Row) {
    !r.fired && !r.cancelled
  }

  predicate Distinct(ks: seq<nat>) {
    forall i, j :: 0 <= i < j < |ks| ==> ks[i] != ks[j]
  }

  predicate Is(s: State, a: int) {
    0 <= a < |s.actors|
  }

  /** The awaited connection has finished what it was doing. */
  predicate Answered(s: State, awaits: int) {
    !Is(s, awaits) || s.actors[awaits].Resting?
  }

  /** An UPDATE is done when it holds every row that still matches; a matching row somebody else
      holds keeps it waiting. */
  predicate CancelDone(s: State, a: nat, want: set<nat>) {
    forall k :: k in want && k < |s.rows| ==> s.rows[k].owner == a || !Armed(s.rows[k])
  }

  predicate Enabled(s: State, m: Move) {
    match m
    case Tick(_) => true
    case Arm(_) => true
    case Take(a, ks) =>
      && Is(s, a) && s.actors[a].Resting? && |ks| <= BATCH && Distinct(ks)
      && forall k :: k in ks ==>
           k < |s.rows| && Armed(s.rows[k]) && s.rows[k].owner == FREE && s.rows[k].fireAt <= s.now
    case Act(a, _) => Is(s, a) && s.actors[a].Sweeping? && s.actors[a].stage.Ready? && s.actors[a].todo != []
    case Succeed(a) =>
      && Is(s, a) && s.actors[a].Sweeping? && s.actors[a].stage.Acting? && Answered(s, s.actors[a].stage.awaits)
      && s.actors[a].todo != [] && s.actors[a].todo[0] < |s.rows|
    case Fail(a) =>
      && Is(s, a) && s.actors[a].Sweeping? && s.actors[a].stage.Acting? && Answered(s, s.actors[a].stage.awaits)
      && s.actors[a].todo != []
    case Stamp(a) =>
      && Is(s, a) && s.actors[a].Sweeping? && s.actors[a].stage.Acted?
      && s.actors[a].todo != [] && s.actors[a].todo[0] < |s.rows|
    case StartCancel(a, _) => Is(s, a) && s.actors[a].Resting?
    case CancelRow(a, k) =>
      && Is(s, a) && s.actors[a].Cancelling? && k in s.actors[a].want
      && k < |s.rows| && Armed(s.rows[k]) && s.rows[k].owner == FREE
    case Commit(a) =>
      && Is(s, a)
      && (match s.actors[a]
          case Resting => false
          case Sweeping(todo, stage) => todo == [] && stage.Ready?
          case Cancelling(want) => CancelDone(s, a, want))
    case Rollback(a) => Is(s, a) && !s.actors[a].Resting?
  }

  function Committed(r: Row): Row {
    r.(fired := r.fired || r.pending.ToFire?, cancelled := r.cancelled || r.pending.ToCancel?,
       owner := FREE, pending := Nothing)
  }

  /** `k` is the row whose action came back but is not stamped yet. */
  predicate Between(actor: Actor, k: nat) {
    actor.Sweeping? && actor.stage.Acted? && actor.todo != [] && actor.todo[0] == k
  }

  function RolledBack(r: Row, actor: Actor, k: nat): Row {
    r.(owner := FREE, pending := Nothing,
       lost := r.lost + if r.pending.ToFire? || Between(actor, k) then 1 else 0)
  }

  function Next(s: State, m: Move): State
    requires Enabled(s, m)
  {
    match m
    case Tick(d) => s.(now := s.now + d)
    case Arm(fireAt) => s.(rows := s.rows + [Row(fireAt, false, false, FREE, Nothing, 0, 0)])
    case Take(a, ks) =>
      s.(actors := s.actors[a := Sweeping(ks, Ready)],
         rows := seq(|s.rows|, k requires 0 <= k < |s.rows| => if k in ks then s.rows[k].(owner := a) else s.rows[k]))
    case Act(a, awaits) => s.(actors := s.actors[a := s.actors[a].(stage := Acting(awaits))])
    case Succeed(a) =>
      var k := s.actors[a].todo[0];
      s.(actors := s.actors[a := s.actors[a].(stage := Acted)],
         rows := s.rows[k := s.rows[k].(delivered := s.rows[k].delivered + 1)])
    case Fail(a) => s.(actors := s.actors[a := Sweeping(s.actors[a].todo[1..], Ready)])
    case Stamp(a) =>
      var k := s.actors[a].todo[0];
      s.(actors := s.actors[a := Sweeping(s.actors[a].todo[1..], Ready)],
         rows := s.rows[k := s.rows[k].(pending := ToFire)])
    case StartCancel(a, want) => s.(actors := s.actors[a := Cancelling(want)])
    case CancelRow(a, k) => s.(rows := s.rows[k := s.rows[k].(owner := a, pending := ToCancel)])
    case Commit(a) =>
      s.(actors := s.actors[a := Resting],
         rows := seq(|s.rows|, k requires 0 <= k < |s.rows| =>
           if s.rows[k].owner == a then Committed(s.rows[k]) else s.rows[k]))
    case Rollback(a) =>
      s.(actors := s.actors[a := Resting],
         rows := seq(|s.rows|, k requires 0 <= k < |s.rows| =>
           if s.rows[k].owner == a then RolledBack(s.rows[k], s.actors[a], k) else s.rows[k]))
  }

  predicate IsRun(s: State, moves: seq<Move>)
    decreases |moves|
  {
    moves == [] || (Enabled(s, moves[0]) && IsRun(Next(s, moves[0]), moves[1..]))
  }

  function After(s: State, moves: seq<Move>): State
    requires IsRun(s, moves)
    decreases |moves|
  {
    if moves == [] then s else After(Next(s, moves[0]), moves[1..])
  }

  // --- Invariant ---

  /** The actor that holds row `k`, if any, is in the middle of the work that took it. */
  predicate HolderOk(s: State, k: nat)
    requires k < |s.rows|
  {
    var r := s.rows[k];
    && Is(s, r.owner) && Armed(r)
    && match s.actors[r.owner]
       case Resting => false
       case Sweeping(todo, stage) => r.fireAt <= s.now && !r.pending.ToCancel? && (k in todo ==> r.pending.Nothing?)
       case Cancelling(want) => r.pending.ToCancel?
  }

  function InFlight(s: State, k: nat): nat
    requires k < |s.rows|
  {
    var r := s.rows[k];
    if r.pending.ToFire? || (Is(s, r.owner) && Between(s.actors[r.owner], k)) then 1 else 0
  }

  predicate RowOk(s: State, k: nat)
    requires k < |s.rows|
  {
    var r := s.rows[k];
    && !(r.fired && r.cancelled)
    && (if r.owner == FREE then r.pending.Nothing? else HolderOk(s, k))
    && r.delivered == r.lost + InFlight(s, k) + (if r.fired then 1 else 0)
    && (r.delivered > 0 ==> r.fireAt <= s.now)
  }

  predicate ActorOk(s: State, a: nat)
    requires a < |s.actors|
  {
    match s.actors[a]
    case Sweeping(todo, stage) =>
      && Distinct(todo)
      && (forall k :: k in todo ==> k < |s.rows| && s.rows[k].owner == a)
      && (!stage.Ready? ==> todo != [])
    case _ => true
  }

  predicate Inv(s: State) {
    && (forall k: nat {:trigger RowOk(s, k)} :: k < |s.rows| ==> RowOk(s, k))
    && (forall a: nat {:trigger ActorOk(s, a)} :: a < |s.actors| ==> ActorOk(s, a))
  }

  predicate Initial(s: State) {
    s.rows == [] && forall a :: 0 <= a < |s.actors| ==> s.actors[a].Resting?
  }

  lemma RowOkAfter(s: State, m: Move, k: nat)
    requires Inv(s) && Enabled(s, m) && k < |Next(s, m).rows|
    ensures RowOk(Next(s, m), k)
  {
    var t := Next(s, m);
    if k < |s.rows| {
      assert RowOk(s, k);
      var a := s.rows[k].owner;
      if Is(s, a) {
        assert ActorOk(s, a);
      }
      match m {
        case Succeed(b) => assert ActorOk(s, b);
        case Stamp(b) => assert ActorOk(s, b);
        case Fail(b) => assert ActorOk(s, b);
        case _ =>
      }
    }
  }

  lemma ActorOkAfter(s: State, m: Move, a: nat)
    requires Inv(s) && Enabled(s, m) && a < |Next(s, m).actors|
    ensures ActorOk(Next(s, m), a)
  {
    assert ActorOk(s, a);
    if s.actors[a].Sweeping? && s.actors[a].todo != [] {
      assert forall k :: k in s.actors[a].todo[1..] ==> k in s.actors[a].todo;
    }
  }

  lemma StepInv(s: State, m: Move)
    requires Inv(s) && Enabled(s, m)
    ensures Inv(Next(s, m))
  {
    var t := Next(s, m);
    forall k: nat | k < |t.rows| ensures RowOk(t, k) {
      RowOkAfter(s, m, k);
    }
    forall a: nat | a < |t.actors| ensures ActorOk(t, a) {
      ActorOkAfter(s, m, a);
    }
  }

  lemma {:induction false} RunInv(s: State, moves: seq<Move>)
    requires Inv(s) && IsRun(s, moves)
    ensures Inv(After(s, moves))
    decreases |moves|
  {
    if moves != [] {
      StepInv(s, moves[0]);
      RunInv(Next(s, moves[0]), moves[1..]);
    }
  }

  // --- Whole runs ---

  /** Sweeper `a` still has row `k` to handle. */
  predicate Lists(s: State, a: int, k: nat) {
    Is(s, a) && s.actors[a].Sweeping? && k in s.actors[a].todo
  }

  /** In every interleaving: no timer is both fired and cancelled, no row is on two sweepers' lists,
      nothing is delivered before its time, and a row somebody holds is still armed for everyone. */
  lemma SweepingIsSafe(s: State, moves: seq<Move>, k: nat)
    requires Initial(s) && IsRun(s, moves) && k < |After(s, moves).rows|
    ensures var t := After(s, moves);
            var r := t.rows[k];
            && !(r.fired && r.cancelled)
            && (r.owner != FREE ==> Armed(r))
            && (r.delivered > 0 ==> r.fireAt <= t.now)
            && (forall a, b :: Lists(t, a, k) && Lists(t, b, k) ==> a == b)
  {
    RunInv(s, moves);
    var t := After(s, moves);
    assert RowOk(t, k);
    forall a, b | Lists(t, a, k) && Lists(t, b, k) ensures a == b {
      assert ActorOk(t, a) && ActorOk(t, b);
    }
  }

  /** Conservation: every action that came back is either behind a committed stamp, still inside an
      open sweep, or was lost with a rolled-back one. */
  lemma DeliveriesAreAccounted(s: State, moves: seq<Move>, k: nat)
    requires Initial(s) && IsRun(s, moves) && k < |After(s, moves).rows|
    ensures var t := After(s, moves);
            t.rows[k].delivered == (if t.rows[k].fired then 1 else 0) + InFlight(t, k) + t.rows[k].lost
  {
    RunInv(s, moves);
    assert RowOk(After(s, moves), k);
  }

  predicate LosesNothing(moves: seq<Move>) {
    forall m :: m in moves ==> !m.Rollback?
  }

  lemma {:induction false} NothingLost(s: State, moves: seq<Move>, k: nat)
    requires Inv(s) && IsRun(s, moves) && LosesNothing(moves) && k < |After(s, moves).rows|
    ensures After(s, moves).rows[k].lost == if k < |s.rows| then s.rows[k].lost else 0
    decreases |moves|
  {
    if moves != [] {
      var m := moves[0];
      assert m in moves;
      assert forall x :: x in moves[1..] ==> x in moves;
      StepInv(s, m);
      NothingLost(Next(s, m), moves[1..], k);
      if k < |Next(s, m).rows| && k < |s.rows| {
        assert Next(s, m).rows[k].lost == s.rows[k].lost;
      }
    }
  }

  /** "Never double-fires" holds as long as no sweep is rolled back... */
  lemma AtMostOnceWithoutRollback(s: State, moves: seq<Move>, k: nat)
    requires Initial(s) && IsRun(s, moves) && LosesNothing(moves) && k < |After(s, moves).rows|
    ensures After(s, moves).rows[k].delivered <= 1
  {
    RunInv(s, moves);
    NothingLost(s, moves, k);
    var t := After(s, moves);
    assert RowOk(t, k);
    if t.rows[k].owner != FREE {
      assert HolderOk(t, k);
    }
  }

  /** Exactly then: whenever an action is about to come back, the earlier ones that did are just those that
      were rolled back. So it comes back again if and only if something was lost. */
  lemma RepeatsExactly(s: State, moves: seq<Move>, a: nat)
    requires Initial(s) && IsRun(s, moves) && Enabled(After(s, moves), Succeed(a))
    ensures var t := After(s, moves);
            var row := t.rows[t.actors[a].todo[0]];
            row.delivered == row.lost && (row.delivered > 0 <==> row.lost > 0)
            && Next(t, Succeed(a)).rows[t.actors[a].todo[0]].delivered == row.lost + 1
  {
    RunInv(s, moves);
    var t := After(s, moves);
    var k := t.actors[a].todo[0];
    assert ActorOk(t, a);
    assert k in t.actors[a].todo;
    assert RowOk(t, k);
  }

  /** ...and fails with a rollback between the action and the commit: the next sweep acts again. */
  lemma RollbackFiresAgain() returns (s: State, moves: seq<Move>)
    ensures Initial(s) && IsRun(s, moves)
    ensures |After(s, moves).rows| == 1 && After(s, moves).rows[0].delivered == 2 && After(s, moves).rows[0].fired
  {
    s := State(0, [], [Resting]);
    var armed, s1 := Push(s, [], Arm(0));
    assert s1 == State(0, [Row(0, false, false, FREE, Nothing, 0, 0)], [Resting]);
    var once, s4 := Deliver(s, armed, 0);
    var undone, s5 := Push(s, once, Rollback(0));
    assert s5 == State(0, [Row(0, false, false, FREE, Nothing, 1, 1)], [Resting]);
    var twice, s8 := Deliver(s, undone, 1);
    assert s8.actors[0].todo[1..] == [];
    var stamped, s9 := Push(s, twice, Stamp(0));
    assert s9 == State(0, [Row(0, false, false, 0, ToFire, 2, 1)], [Sweeping([], Ready)]);
    var s10;
    moves, s10 := Push(s, stamped, Commit(0));
  }

  /** A lone sweeper takes the only row and its action comes back. */
  lemma Deliver(s: State, moves: seq<Move>, n: nat) returns (more: seq<Move>, t: State)
    requires IsRun(s, moves) && After(s, moves) == State(0, [Row(0, false, false, FREE, Nothing, n, n)], [Resting])
    ensures IsRun(s, more) && t == After(s, more)
    ensures t == State(0, [Row(0, false, false, 0, Nothing, n + 1, n)], [Sweeping([0], Acted)])
  {
    var m1, s1 := Push(s, moves, Take(0, [0]));
    assert s1 == State(0, [Row(0, false, false, 0, Nothing, n, n)], [Sweeping([0], Ready)]);
    var m2, s2 := Push(s, m1, Act(0, NOBODY));
    more, t := Push(s, m2, Succeed(0));
  }

  lemma {:induction false} Push(s: State, moves: seq<Move>, m: Move) returns (more: seq<Move>, t: State)
    requires IsRun(s, moves) && Enabled(After(s, moves), m)
    ensures more == moves + [m] && IsRun(s, more)
    ensures t == After(s, more) == Next(After(s, moves), m)
    decreases |moves|
  {
    more := moves + [m];
    if moves == [] {
      assert more[1..] == [];
    } else {
      assert more[1..] == moves[1..] + [m];
      var rest, u := Push(Next(s, moves[0]), moves[1..], m);
    }
    t := After(s, more);
  }

  /** A row is closed for good: once fired or cancelled, nothing about it changes again. */
  lemma {:induction false} ClosedStaysClosed(s: State, moves: seq<Move>, k: nat)
    requires Inv(s) && IsRun(s, moves) && k < |s.rows| && !Armed(s.rows[k])
    ensures k < |After(s, moves).rows| && After(s, moves).rows[k] == s.rows[k]
    decreases |moves|
  {
    if moves != [] {
      var m := moves[0];
      assert RowOk(s, k);
      forall a: nat | a < |s.actors| && s.actors[a].Sweeping? ensures k !in s.actors[a].todo {
        assert ActorOk(s, a);
      }
      assert Next(s, m).rows[k] == s.rows[k];
      StepInv(s, m);
      ClosedStaysClosed(Next(s, m), moves[1..], k);
    }
  }

  // --- A failed action ---

  /** Sweeper `a` has passed row `k` without stamping it, and still holds it. */
  predicate Skipped(s: State, a: nat, k: nat) {
    && Is(s, a) && k < |s.rows| && s.actors[a].Sweeping? && k !in s.actors[a].todo
    && s.rows[k].owner == a && s.rows[k].pending.Nothing? && Armed(s.rows[k])
  }

  predicate Finishes(m: Move, a: nat) {
    m == Commit(a) || m == Rollback(a)
  }

  /** A failed action writes nothing, and the sweep does not come back to its row. */
  lemma FailSkips(s: State, a: nat)
    requires Inv(s) && Enabled(s, Fail(a))
    ensures Skipped(Next(s, Fail(a)), a, s.actors[a].todo[0])
    ensures Next(s, Fail(a)).rows == s.rows
  {
    assert ActorOk(s, a);
    var k := s.actors[a].todo[0];
    assert k in s.actors[a].todo;
    assert RowOk(s, k);
  }

  /** Until that sweep finishes, no move of anyone touches the row; then it is free and armed. */
  lemma SkippedStep(s: State, m: Move, a: nat, k: nat)
    requires Inv(s) && Enabled(s, m) && Skipped(s, a, k)
    ensures !Finishes(m, a) ==> Skipped(Next(s, m), a, k) && Next(s, m).rows[k] == s.rows[k]
    ensures Finishes(m, a) ==> Next(s, m).rows[k] == s.rows[k].(owner := FREE)
  {
    assert RowOk(s, k);
    forall b: nat | b < |s.actors| && s.actors[b].Sweeping? ensures k !in s.actors[b].todo {
      assert ActorOk(s, b);
    }
    if m.Fail? || m.Stamp? {
      assert forall x :: x in s.actors[m.a].todo[1..] ==> x in s.actors[m.a].todo;
    }
  }

  lemma {:induction false} SkippedRun(s: State, moves: seq<Move>, a: nat, k: nat)
    requires Inv(s) && IsRun(s, moves) && Skipped(s, a, k)
    requires forall m :: m in moves ==> !Finishes(m, a)
    ensures Skipped(After(s, moves), a, k) && After(s, moves).rows[k] == s.rows[k]
    decreases |moves|
  {
    if moves != [] {
      assert moves[0] in moves;
      assert forall x :: x in moves[1..] ==> x in moves;
      SkippedStep(s, moves[0], a, k);
      StepInv(s, moves[0]);
      SkippedRun(Next(s, moves[0]), moves[1..], a, k);
    }
  }

  /** A row whose action failed stays armed. Whatever happens until the failing sweep commits or rolls
      back, the row is held and otherwise as it was; when the sweep ends, either way, the row is as it
      was, free, armed and due, so the next sweep can take it. */
  lemma FailedStaysArmed(s: State, a: nat, moves: seq<Move>, end: Move)
    requires Inv(s) && Enabled(s, Fail(a)) && IsRun(Next(s, Fail(a)), moves)
    requires forall m :: m in moves ==> !Finishes(m, a)
    ensures var k := s.actors[a].todo[0];
            var t := After(Next(s, Fail(a)), moves);
            && Skipped(t, a, k) && k < |s.rows| && t.rows[k] == s.rows[k]
            && (Finishes(end, a) && Enabled(t, end) ==>
                  var u := Next(t, end);
                  && u.rows[k] == s.rows[k].(owner := FREE) && Armed(u.rows[k])
                  && forall b: nat :: b < |u.actors| && u.actors[b].Resting? ==> Enabled(u, Take(b, [k])))
  {
    var k := s.actors[a].todo[0];
    var failed := Next(s, Fail(a));
    FailSkips(s, a);
    StepInv(s, Fail(a));
    SkippedRun(failed, moves, a, k);
    RunInv(failed, moves);
    var t := After(failed, moves);
    assert RowOk(t, k);
    if Enabled(t, end) {
      SkippedStep(t, end, a, k);
    }
  }

  // --- The self-wait of AUTO_COMPLETE ---

  /** Sweeper `a` is inside an action that waits for connection `c`, and `c` wants the row `a` holds. */
  predicate WaitsOnItself(s: State, a: nat, c: nat, k: nat) {
    && Is(s, a) && Is(s, c) && a != c && k < |s.rows|
    && s.actors[a].Sweeping? && s.actors[a].stage == Acting(c) && s.actors[a].todo != [] && s.actors[a].todo[0] == k
    && s.actors[c].Cancelling? && k in s.actors[c].want
    && s.rows[k].owner == a && Armed(s.rows[k])
  }

  /** Nothing but killing one of the two connections ends it: the row stays locked and armed, the
      sweeper never reaches its stamp or its commit, and the cancel never finishes. */
  lemma {:induction false} SelfWaitNeverEnds(s: State, moves: seq<Move>, a: nat, c: nat, k: nat)
    requires IsRun(s, moves) && WaitsOnItself(s, a, c, k)
    requires forall m :: m in moves ==> m != Rollback(a) && m != Rollback(c)
    ensures WaitsOnItself(After(s, moves), a, c, k)
    decreases |moves|
  {
    if moves != [] {
      assert moves[0] in moves;
      assert forall x :: x in moves[1..] ==> x in moves;
      SelfWaitNeverEnds(Next(s, moves[0]), moves[1..], a, c, k);
    }
  }

  /** The self-wait happens: a sweeper takes a due row, its action asks a second connection to complete
      the task, and that connection goes on to cancel the node's timers. */
  lemma SelfWaitHappens() returns (s: State, moves: seq<Move>)
    ensures Initial(s) && IsRun(s, moves) && WaitsOnItself(After(s, moves), 0, 1, 0)
  {
    s := State(0, [], [Resting, Resting]);
    var m1, s1 := Push(s, [], Arm(0));
    assert s1 == State(0, [Row(0, false, false, FREE, Nothing, 0, 0)], [Resting, Resting]);
    var m2, s2 := Push(s, m1, Take(0, [0]));
    assert s2 == State(0, [Row(0, false, false, 0, Nothing, 0, 0)], [Sweeping([0], Ready), Resting]);
    var m3, s3 := Push(s, m2, Act(0, 1));
    var s4;
    moves, s4 := Push(s, m3, StartCancel(1, {0}));
  }

  /** The timer rows that completing work at a node sets out to cancel. */
  function Wanted(ts: seq<E.Timer>, id: string): set<nat> {
    set j: nat | j < |ts| && ts[j].node == id && E.Armed(ts[j])
  }

  /** A sweep the engine model calls `Blocked` has set out to cancel the very row it was fired by. */
  lemma BlockedWantsItsRow(env: WorkflowGraph.Env, e: E.State, k: nat, delivered: bool)
    requires E.SweepTimer(env, e, k, delivered).reply.Blocked?
    ensures k < |e.timers| && k in Wanted(E.SweepTimer(env, e, k, delivered).state.timers, e.timers[k].node)
  {
    assert E.SweepTimer(env, e, k, delivered).state.timers[k] == e.timers[k];
  }

  /** So wherever a sweeper takes such a row up, with a second connection at hand for its action, the run
      goes into the self-wait, and nothing but killing a connection ends it. */
  lemma BlockedIsSelfWait(env: WorkflowGraph.Env, e: E.State, k: nat, delivered: bool, s: State, a: nat, c: nat,
                          more: seq<Move>)
    requires E.SweepTimer(env, e, k, delivered).reply.Blocked?
    requires Inv(s) && Enabled(s, Act(a, c)) && s.actors[a].todo[0] == k && Is(s, c) && s.actors[c].Resting?
    requires var want := Wanted(E.SweepTimer(env, e, k, delivered).state.timers, e.timers[k].node);
             IsRun(s, [Act(a, c), StartCancel(c, want)] + more)
    requires forall m :: m in more ==> m != Rollback(a) && m != Rollback(c)
    ensures var want := Wanted(E.SweepTimer(env, e, k, delivered).state.timers, e.timers[k].node);
            WaitsOnItself(After(s, [Act(a, c), StartCancel(c, want)] + more), a, c, k)
  {
    BlockedWantsItsRow(env, e, k, delivered);
    var want := Wanted(E.SweepTimer(env, e, k, delivered).state.timers, e.timers[k].node);
    var moves := [Act(a, c), StartCancel(c, want)] + more;
    assert moves[1..] == [StartCancel(c, want)] + more && moves[1..][1..] == more;
    assert ActorOk(s, a) && k in s.actors[a].todo;
    assert RowOk(s, k);
    var u := Next(Next(s, Act(a, c)), StartCancel(c, want));
    assert WaitsOnItself(u, a, c, k);
    SelfWaitNeverEnds(u, more, a, c, k);
  }
}
