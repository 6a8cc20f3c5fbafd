/** The schema as declared gives the instances table no `updated_at` column, which the join reset of a
    send-back and the context edits assign (server/db.ts:3498-3512; server/businessWorkflows.ts:1981-1987,
    2098-2104, 2388-2392): these statements throw. */
module EngineSchema {
  // The other modules are about a schema that has the column.

  import opened Prelude
  import opened JsonTree
  import opened WorkflowGraph
  import opened Engine
  import opened EngineBooks
  import opened EngineInduction
  import opened EngineLifecycle
  import opened EngineLog
  import opened EngineMarking

  ghost predicate CrossesJoin(env: Env, target: string, source: string) {
    exists id :: JoinBetween(env.version, target, source, id)
  }

  predicate TaskGoesBack(env: Env, s: State, i: nat, target: string) {
    i < |s.tasks| && IsOpen(s.tasks[i].status) && s.status != Paused && ValidTarget(env, target)
  }

  predicate ApprovalGoesBack(env: Env, s: State, i: nat, target: string) {
    i < |s.approvals| && s.approvals[i].status == Pending && s.status != Paused && ValidTarget(env, target)
  }

  /** The call comes to a statement that names the column. */
  ghost predicate NamesColumn(env: Env, s: State, op: Op) {
    match op
    case DoSendBackTask(i, target) => TaskGoesBack(env, s, i, target) && CrossesJoin(env, target, s.tasks[i].where.id)
    case DoSendBackApproval(i, target) =>
      ApprovalGoesBack(env, s, i, target) && CrossesJoin(env, target, s.approvals[i].node)
    case DoUpdateContext(patch, reordered) =>
      !Ended(s.status) && exists k :: k in patch && Changes(s.context, patch, reordered, k)
    case DoRemoveKeys(keys) => exists k :: k in keys && Removable(k) && k in s.context
    case DoAttach(_, wellFormed) => !Ended(s.status) && wellFormed
    case DoDetach(id) =>
      Null !in Documents(s.context) && exists d :: d in Documents(s.context) && HasId(d, id)
    case _ => false
  }

  /** What has been written when the statement throws: a send-back has closed its row already. */
  ghost function HalfDone(s: State, op: Op): State {
    match op
    case DoSendBackTask(i, target) => if i < |s.tasks| then CloseTask(s, i, SentBack(target)) else s
    case DoSendBackApproval(i, target) =>
      if i < |s.approvals| then Ruled(s, i, NeedsMoreInformation, Some(target)) else s
    case _ => s
  }

  /** One call under the schema as declared. */
  ghost function DeclaredStep(env: Env, s: State, op: Op, fuel: nat): Option<Outcome> {
    match op
    case DoSendBackTask(i, target) =>
      if TaskGoesBack(env, s, i, target) && CrossesJoin(env, target, s.tasks[i].where.id) then
        Some(Outcome(CloseTask(s, i, SentBack(target)), Refused))
      else Step(env, s, op, fuel)
    case DoSendBackApproval(i, target) =>
      if ApprovalGoesBack(env, s, i, target) && CrossesJoin(env, target, s.approvals[i].node) then
        Some(Outcome(Ruled(s, i, NeedsMoreInformation, Some(target)), Refused))
      else Step(env, s, op, fuel)
    case DoUpdateContext(_, _) => Unwritten(s, Step(env, s, op, fuel))
    case DoRemoveKeys(_) => Unwritten(s, Step(env, s, op, fuel))
    case DoAttach(_, _) => Unwritten(s, Step(env, s, op, fuel))
    case DoDetach(_) => Unwritten(s, Step(env, s, op, fuel))
    case _ => Step(env, s, op, fuel)
  }

  /** An edit that comes to its UPDATE throws there, before its event. */
  function Unwritten(s: State, r: Option<Outcome>): Option<Outcome> {
    if r.Some? && r.value.state.log != s.log then Some(Outcome(s, Refused)) else r
  }

  lemma EditExactly(env: Env, s: State, op: Op, fuel: nat)
    requires op.DoUpdateContext? || op.DoRemoveKeys? || op.DoAttach? || op.DoDetach?
    ensures DeclaredStep(env, s, op, fuel)
            == if NamesColumn(env, s, op) then Some(Outcome(s, Refused)) else Step(env, s, op, fuel)
    ensures NamesColumn(env, s, op) ==> Step(env, s, op, fuel).Some? && Step(env, s, op, fuel).value.reply == Ok
  {
    if op.DoRemoveKeys? {
      var gone := set k | k in op.keys && Removable(k) && k in s.context;
      if NamesColumn(env, s, op) {
        var k :| k in op.keys && Removable(k) && k in s.context;
        assert k in gone;
      }
    }
  }

  /** The missing column matters exactly where the call comes to such a statement: a send-back across a
      join and an edit with something to write fail, and every other call is as modelled. */
  lemma ColumnMattersExactly(env: Env, s: State, op: Op, fuel: nat)
    ensures DeclaredStep(env, s, op, fuel) == Step(env, s, op, fuel) <==> !NamesColumn(env, s, op)
    ensures NamesColumn(env, s, op) ==> DeclaredStep(env, s, op, fuel) == Some(Outcome(HalfDone(s, op), Refused))
  {
    if op.DoUpdateContext? || op.DoRemoveKeys? || op.DoAttach? || op.DoDetach? {
      EditExactly(env, s, op, fuel);
    }
  }

  /** A failed send-back leaves a task row SENT_BACK that no event tells of. */
  lemma UnloggedSendBack(env: Env, s: State, i: nat, target: string, fuel: nat)
    requires Books(s) && NamesColumn(env, s, DoSendBackTask(i, target))
    ensures var t := DeclaredStep(env, s, DoSendBackTask(i, target), fuel).value.state;
            var w := s.tasks[i].where;
            && RowsIn(t, w, SentBack(target)) == Seen(t.log, TaskSentBack(w, target)) + 1
            && !Books(t)
  {
    var w := s.tasks[i].where;
    var t := CloseTask(s, i, SentBack(target));
    assert TaskBooks(s, w);
    CloseRows(s, i, SentBack(target), w, SentBack(target));
    assert !TaskBooks(t, w);
  }

  /** And if it was the last open task of an active node, the node has nothing left to complete. */
  lemma SendBackStrands(env: Env, s: State, i: nat, target: string, fuel: nat)
    requires Marking(env, s, {}) && s.status == Running && NamesColumn(env, s, DoSendBackTask(i, target))
    requires s.tasks[i].where.Graph?
    ensures var t := DeclaredStep(env, s, DoSendBackTask(i, target), fuel).value.state;
            var id := s.tasks[i].where.id;
            Marking(env, t, {}) <==> (id in s.active ==> OtherOpen(s.tasks, i, id))
  {
    var id := s.tasks[i].where.id;
    var t := CloseTask(s, i, SentBack(target));
    SetTaskMarking(env, s, t, i, s.tasks[i].(status := SentBack(target)), {});
    assert TaskNode(env, id);
    if OtherOpen(s.tasks, i, id) {
      var j :| 0 <= j < |s.tasks| && j != i && OpenAt(s.tasks[j], id);
      assert OpenAt(t.tasks[j], id);
    } else {
      forall j | 0 <= j < |t.tasks| ensures !OpenAt(t.tasks[j], id) {
        if j != i {
          assert !OpenAt(s.tasks[j], id);
        }
      }
      assert !HasOpen(t.tasks, id);
    }
    if id in s.active ==> OtherOpen(s.tasks, i, id) {
      forall x | x in t.active ensures Served(env, t, x) {
        if x != id {
          assert x !in {id};
        }
      }
    } else {
      assert !Served(env, t, id);
    }
  }

  // --- Runs under the schema as declared ---

  /** The event a call owes: that of the send-back it has left half done. */
  ghost function OwedBy(env: Env, s: State, op: Op): (r: seq<Event>)
    ensures forall e :: e in r ==> e.TaskSentBack? || e.ApprovalSentBack?
  {
    match op
    case DoSendBackTask(i, target) =>
      if NamesColumn(env, s, op) then [TaskSentBack(s.tasks[i].where, target)] else []
    case DoSendBackApproval(i, target) =>
      if NamesColumn(env, s, op) then [ApprovalSentBack(s.approvals[i].node, target)] else []
    case _ => []
  }

  /** With the owed events in front of its log, the state keeps the books. */
  ghost predicate BooksWith(owed: seq<Event>, s: State) {
    Books(Behind(owed, s)) && Sealed(s)
  }

  lemma Reordered(a: State, b: State)
    requires Books(a) && b == a.(log := b.log) && multiset(b.log) == multiset(a.log)
    ensures Books(b)
  {
    EditedBooks(a, b);
  }

  lemma HalfTaskBooks(env: Env, d: seq<Event>, s: State, i: nat, target: string)
    requires BooksWith(d, s) && TaskGoesBack(env, s, i, target)
    ensures BooksWith([TaskSentBack(s.tasks[i].where, target)] + d, CloseTask(s, i, SentBack(target)))
  {
    var e := TaskSentBack(s.tasks[i].where, target);
    var t := CloseTask(s, i, SentBack(target));
    CloseBooks(Behind(d, s), i, SentBack(target), e);
    var paid := Emit(CloseTask(Behind(d, s), i, SentBack(target)), e);
    Reordered(paid, Behind([e] + d, t));
  }

  lemma HalfApprovalBooks(env: Env, d: seq<Event>, s: State, i: nat, target: string)
    requires BooksWith(d, s) && ApprovalGoesBack(env, s, i, target)
    ensures BooksWith([ApprovalSentBack(s.approvals[i].node, target)] + d,
                      Ruled(s, i, NeedsMoreInformation, Some(target)))
  {
    var e := ApprovalSentBack(s.approvals[i].node, target);
    var t := Ruled(s, i, NeedsMoreInformation, Some(target));
    DecideBooks(Behind(d, s), i, NeedsMoreInformation, Some(target), e);
    var paid := Emit(Ruled(Behind(d, s), i, NeedsMoreInformation, Some(target)), e);
    Reordered(paid, Behind([e] + d, t));
  }

  lemma PaidStep(env: Env, d: seq<Event>, s: State, op: Op, fuel: nat)
    requires BooksWith(d, s) && Step(env, s, op, fuel).Some?
    ensures BooksWith(d, Step(env, s, op, fuel).value.state)
  {
    StepBehind(env, d, s, op, fuel);
    StepBooks(env, Behind(d, s), op, fuel);
    StepSealed(env, s, op, fuel);
  }

  /** One call keeps the books, up to the event it owes. */
  lemma DeclaredStepBooks(env: Env, d: seq<Event>, s: State, op: Op, fuel: nat)
    requires BooksWith(d, s) && DeclaredStep(env, s, op, fuel).Some?
    ensures BooksWith(OwedBy(env, s, op) + d, DeclaredStep(env, s, op, fuel).value.state)
  {
    ColumnMattersExactly(env, s, op, fuel);
    var none: seq<Event> := [];
    assert none + d == d;
    if !NamesColumn(env, s, op) {
      PaidStep(env, d, s, op, fuel);
    } else if op.DoSendBackTask? {
      HalfTaskBooks(env, d, s, op.task, op.target);
    } else if op.DoSendBackApproval? {
      HalfApprovalBooks(env, d, s, op.approval, op.target);
    }
  }

  /** Owed events are missing in the log: no other event makes up for them. */
  lemma OwedShows(owed: seq<Event>, s: State)
    requires Books(Behind(owed, s)) && forall e :: e in owed ==> e.TaskSentBack? || e.ApprovalSentBack?
    ensures Books(s) <==> owed == []
  {
    if owed == [] {
      assert [] + s.log == s.log;
    } else {
      var e := owed[0];
      assert e in owed;
      var all := Behind(owed, s);
      assert Seen(all.log, e) == multiset(owed)[e] + Seen(s.log, e);
      assert multiset(owed)[e] > 0;
      if e.TaskSentBack? {
        assert TaskBooks(all, e.where);
        assert Seen(all.log, TaskSentBack(e.where, e.target)) == RowsIn(all, e.where, SentBack(e.target));
        assert !TaskBooks(s, e.where);
      } else {
        assert ApprovalBooks(all, e.node);
        assert Seen(all.log, ApprovalSentBack(e.node, e.target))
               == ApprovalsIn(all, e.node, NeedsMoreInformation, Some(e.target));
        assert !ApprovalBooks(s, e.node);
      }
    }
  }

  /** A call under the declared schema breaks the books exactly if it is a send-back, of a task or of an
      approval, that comes to the statement naming the column. */
  lemma BooksBreakExactly(env: Env, s: State, op: Op, fuel: nat)
    requires Books(s) && Sealed(s) && DeclaredStep(env, s, op, fuel).Some?
    ensures Books(DeclaredStep(env, s, op, fuel).value.state)
            <==> !((op.DoSendBackTask? || op.DoSendBackApproval?) && NamesColumn(env, s, op))
  {
    var none: seq<Event> := [];
    assert Behind(none, s) == s;
    DeclaredStepBooks(env, [], s, op, fuel);
    assert OwedBy(env, s, op) + none == OwedBy(env, s, op);
    OwedShows(OwedBy(env, s, op), DeclaredStep(env, s, op, fuel).value.state);
  }

  ghost function DeclaredReplay(env: Env, s: State, ops: seq<Op>, fuel: nat): Option<State>
    decreases |ops|
  {
    if ops == [] then Some(s)
    else
      var before := DeclaredReplay(env, s, ops[..|ops| - 1], fuel);
      if before.None? then None
      else
        var r := DeclaredStep(env, before.value, ops[|ops| - 1], fuel);
        if r.None? then None else Some(r.value.state)
  }

  /** The events the half-done send-backs of a run owe, the latest first. */
  ghost function Owed(env: Env, s: State, ops: seq<Op>, fuel: nat): (r: seq<Event>)
    requires DeclaredReplay(env, s, ops, fuel).Some?
    ensures forall e :: e in r ==> e.TaskSentBack? || e.ApprovalSentBack?
    decreases |ops|
  {
    if ops == [] then []
    else
      var before := ops[..|ops| - 1];
      OwedBy(env, DeclaredReplay(env, s, before, fuel).value, ops[|ops| - 1]) + Owed(env, s, before, fuel)
  }

  lemma {:induction false} DeclaredReplayBooks(env: Env, s: State, ops: seq<Op>, fuel: nat)
    requires BooksWith([], s) && DeclaredReplay(env, s, ops, fuel).Some?
    ensures BooksWith(Owed(env, s, ops, fuel), DeclaredReplay(env, s, ops, fuel).value)
    decreases |ops|
  {
    if ops != [] {
      var before := ops[..|ops| - 1];
      DeclaredReplayBooks(env, s, before, fuel);
      var u := DeclaredReplay(env, s, before, fuel).value;
      DeclaredStepBooks(env, Owed(env, s, before, fuel), u, ops[|ops| - 1], fuel);
    }
  }

  /** In every run under the declared schema, log and rows agree up to exactly one missing event for each
      half-done send-back: the books hold at the end if and only if there was none. */
  lemma DeclaredRunBooks(env: Env, ctx: Context, ops: seq<Op>, fuel: nat)
    requires Begin(env, ctx, fuel).Some? && DeclaredReplay(env, Begin(env, ctx, fuel).value, ops, fuel).Some?
    ensures var s := Begin(env, ctx, fuel).value;
            var t := DeclaredReplay(env, s, ops, fuel).value;
            var owed := Owed(env, s, ops, fuel);
            Books(Behind(owed, t)) && (Books(t) <==> owed == [])
  {
    var s := Begin(env, ctx, fuel).value;
    var none: seq<Event> := [];
    BeginBooks(env, ctx, fuel);
    assert Behind(none, s) == s;
    DeclaredReplayBooks(env, s, ops, fuel);
    OwedShows(Owed(env, s, ops, fuel), DeclaredReplay(env, s, ops, fuel).value);
  }
}
