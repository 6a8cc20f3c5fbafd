/** Join counters.
    As written, a join looks its counter up under a dotted top-level key that no write ever creates,
    so it always finds nothing.
    Read through the path it is written to, the counter is the number of activations of the join
    since the start of the run or the last send-back that reset it. */
module EngineJoins {
  import opened Prelude
  import opened JsonTree
  import opened WorkflowGraph
  import opened Worklist
  import opened Engine
  import opened EngineInduction
  import opened EngineBooks

  // --- Paths the engine writes ---

  lemma DottedName(name: string, id: string)
    requires name != "" && '.' !in name && !IsSpace(name[0]) && !IsSpace(name[|name| - 1])
    ensures SplitPath((name + ".") + id) == [name] + SplitPath(id)
  {
    SplitPathOfDot(name, id);
    OneKey(name);
    assert Trim(name) == name;
  }

  lemma JoinPath(id: string)
    ensures SplitPath(JoinKey(id)) == ["joinArrivals"] + SplitPath(id)
  {
    DottedName("joinArrivals", id);
    assert "joinArrivals" + "." == "joinArrivals.";
  }

  lemma TimerPath(id: string)
    ensures SplitPath("timers." + id) == ["timers"] + SplitPath(id)
  {
    DottedName("timers", id);
    assert "timers" + "." == "timers.";
  }

  // --- As written: the counter is never found ---

  /** Metadata holds nothing at top level but the two objects the engine writes into. */
  predicate OwnKeys(s: State) {
    s.metadata.Keys <= {"joinArrivals", "timers"}
  }

  lemma FlatReadMisses(env: Env, s: State, id: string)
    requires !env.nestedRead && OwnKeys(s)
    ensures Arrivals(env, s.metadata, id) == 0
    ensures Forwards(env, s.metadata, id) <==> Incoming(env, id) <= 1
    ensures Incoming(env, id) == |set k: nat | k < |env.version.edges| && env.version.edges[k].target == id|
  {
    IncomingCounts(env, id);
    assert |JoinKey(id)| > |"joinArrivals"|;
    assert |JoinKey(id)| > |"timers"|;
    assert JoinKey(id) !in s.metadata;
  }

  lemma EnterMeta(env: Env, s: State, n: Node)
    ensures Enter(env, s, n).metadata
            == match BaseOf(env, n)
               case ParallelJoin => SetPath(s.metadata, JoinKey(n.id), Num(Arrivals(env, s.metadata, n.id) + 1))
               case TimerWait => SetPath(s.metadata, "timers." + n.id, Obj(map["nodeId" := Str(n.id)]))
               case _ => s.metadata
  {}

  lemma EnterKeys(env: Env, s: State, n: Node)
    requires OwnKeys(s)
    ensures OwnKeys(Enter(env, s, n))
  {
    EnterMeta(env, s, n);
    JoinPath(n.id);
    TimerPath(n.id);
  }

  function OwnKeysIn(): State -> bool {
    (s: State) => OwnKeys(s)
  }

  lemma EntriesKeepKeys(env: Env)
    ensures EntryKeeps(env, OwnKeysIn())
  {
    forall x: State, n: Node | OwnKeysIn()(x) && Found(env, n) ensures OwnKeysIn()(Enter(env, x, n)) {
      EnterKeys(env, x, n);
    }
  }

  lemma RewindKeys(env: Env, s: State, source: string, target: string, e: Event, fuel: nat)
    requires OwnKeys(s) && ValidTarget(env, target)
    requires Drain(env, Rewind(env, s, source, target, e), [Lookup(env, target).value], fuel).Some?
    ensures OwnKeys(Drain(env, Rewind(env, s, source, target, e), [Lookup(env, target).value], fuel).value)
  {
    EntriesKeepKeys(env);
    assert AllGood(FoundIn(env), [Lookup(env, target).value]);
    DrainKeeps(env, Rewind(env, s, source, target, e), [Lookup(env, target).value], fuel, OwnKeysIn());
  }

  lemma AdvanceKeys(env: Env, s: State, id: string, output: Context, fuel: nat)
    requires OwnKeys(s)
    ensures Advance(env, s, id, output, fuel).Some? ==> OwnKeys(Advance(env, s, id, output, fuel).value)
  {
    if s.status == Running && Lookup(env, id).Some? && Advance(env, s, id, output, fuel).Some? {
      EntriesKeepKeys(env);
      var s1 := Depart(env, s, Lookup(env, id).value, output);
      PickedFound(env, s1.context, id);
      DrainKeeps(env, s1, PickTargets(env, s1.context, id), fuel, OwnKeysIn());
    }
  }

  lemma CompleteKeys(env: Env, s: State, i: nat, formData: Option<Context>, output: Option<Context>, fuel: nat)
    requires OwnKeys(s) && CompleteTask(env, s, i, formData, output, fuel).Some?
    ensures OwnKeys(CompleteTask(env, s, i, formData, output, fuel).value.state)
  {
    if i < |s.tasks| && s.tasks[i].where.Graph? {
      AdvanceKeys(env, Finish(s, i), s.tasks[i].where.id, OutputOf(formData, output), fuel);
    }
  }

  lemma DecideKeys(env: Env, s: State, i: nat, d: ApprovalStatus, conditions: Option<string>,
                   notes: Option<string>, fuel: nat)
    requires OwnKeys(s) && Decide(env, s, i, d, conditions, notes, fuel).Some?
    ensures OwnKeys(Decide(env, s, i, d, conditions, notes, fuel).value.state)
  {
    if i < |s.approvals| {
      var a := s.approvals[i];
      AdvanceKeys(env, Emit(s.(approvals := s.approvals[i := a.(status := d)]), ApprovalDecided(a.node, d)),
                  a.node, DecisionOutput(d, conditions, notes), fuel);
    }
  }

  lemma SendBackKeys(env: Env, s: State, op: Op, fuel: nat)
    requires OwnKeys(s) && (op.DoSendBackTask? || op.DoSendBackApproval?)
    requires Step(env, s, op, fuel).Some? && Step(env, s, op, fuel).value.reply == Ok
    ensures OwnKeys(Step(env, s, op, fuel).value.state)
  {
    if op.DoSendBackTask? {
      var t := s.tasks[op.task];
      RewindKeys(env, CloseTask(s, op.task, SentBack(op.target)), t.where.id, op.target,
                 TaskSentBack(t.where, op.target), fuel);
    } else {
      var a := s.approvals[op.approval];
      var a' := a.(status := NeedsMoreInformation, sentBackTo := Some(op.target));
      RewindKeys(env, s.(approvals := s.approvals[op.approval := a']), a.node, op.target,
                 ApprovalSentBack(a.node, op.target), fuel);
    }
  }

  /** Metadata changes only inside activation and by the join reset of a send-back. */
  lemma StepKeys(env: Env, s: State, op: Op, fuel: nat)
    requires OwnKeys(s) && Step(env, s, op, fuel).Some?
    ensures OwnKeys(Step(env, s, op, fuel).value.state)
  {
    match op {
      case DoComplete(i, formData, output) => CompleteKeys(env, s, i, formData, output, fuel);
      case DoDecide(i, d, conditions, notes) => DecideKeys(env, s, i, d, conditions, notes, fuel);
      case DoSendBackTask(i, target) =>
        if Step(env, s, op, fuel).value.reply == Ok { SendBackKeys(env, s, op, fuel); }
      case DoSendBackApproval(i, target) =>
        if Step(env, s, op, fuel).value.reply == Ok { SendBackKeys(env, s, op, fuel); }
      case _ => OtherQuiet(env, s, op, fuel);
    }
  }

  lemma RunKeys(env: Env, ctx: Context, ops: seq<Op>, fuel: nat)
    requires Exec(env, ctx, ops, fuel).Some?
    ensures OwnKeys(Exec(env, ctx, ops, fuel).value)
  {
    EntriesKeepKeys(env);
    forall s: State, op: Op | OwnKeysIn()(s) && Step(env, s, op, fuel).Some?
      ensures OwnKeysIn()(Step(env, s, op, fuel).value.state)
    {
      StepKeys(env, s, op, fuel);
    }
    RunKeeps(env, ctx, ops, fuel, OwnKeysIn());
  }

  // --- Read where it is written: the counter counts ---

  /** Node ids that are one path key each. */
  predicate PlainKey(id: string) {
    SplitPath(id) == [id]
  }

  ghost predicate Repaired(env: Env) {
    env.nestedRead && forall n :: n in env.version.nodes ==> PlainKey(n.id)
  }

  function JoinEvents(s: State, id: string): nat {
    Seen(s.log, NodeActivated(id, ParallelJoin))
  }

  lemma CounterPath(id: string)
    requires PlainKey(id)
    ensures SplitPath(JoinKey(id)) == ["joinArrivals", id]
  {
    JoinPath(id);
  }

  lemma WriteCounter(env: Env, meta: Context, id: string, v: int, j: string)
    requires Repaired(env) && PlainKey(id) && PlainKey(j)
    ensures Arrivals(env, SetPath(meta, JoinKey(id), Num(v)), j) == if j == id then v else Arrivals(env, meta, j)
  {
    CounterPath(id);
    CounterPath(j);
    var p, q := SplitPath(JoinKey(id)), SplitPath(JoinKey(j));
    if j == id {
      ReadBack(meta, p, Num(v));
    } else {
      assert p[1] != q[1];
      assert !Comparable(p, q);
      ReadElsewhere(meta, p, Num(v), q);
    }
  }

  lemma WriteTimer(env: Env, meta: Context, id: string, v: Json, j: string)
    requires Repaired(env) && PlainKey(j)
    ensures Arrivals(env, SetPath(meta, "timers." + id, v), j) == Arrivals(env, meta, j)
  {
    CounterPath(j);
    TimerPath(id);
    var p, q := SplitPath("timers." + id), SplitPath(JoinKey(j));
    assert p[0] != q[0];
    assert !Comparable(p, q);
    ReadElsewhere(meta, p, v, q);
  }

  lemma JoinEventsAfter(env: Env, s: State, n: Node, j: string)
    ensures JoinEvents(Enter(env, s, n), j)
            == JoinEvents(s, j) + (if BaseOf(env, n) == ParallelJoin && n.id == j then 1 else 0)
  {
    var e := NodeActivated(n.id, BaseOf(env, n));
    EnterLogged(env, s, n);
    SeenOne(s.log, e, NodeActivated(j, ParallelJoin));
  }

  /** Entering any node moves a join's counter exactly as it moves its activation count. */
  lemma EnterCounts(env: Env, s: State, n: Node, j: string)
    requires Repaired(env) && Found(env, n) && PlainKey(j)
    ensures Arrivals(env, Enter(env, s, n).metadata, j) - Arrivals(env, s.metadata, j)
            == JoinEvents(Enter(env, s, n), j) - JoinEvents(s, j)
  {
    JoinEventsAfter(env, s, n, j);
    EnterMeta(env, s, n);
    if BaseOf(env, n) == ParallelJoin {
      assert PlainKey(n.id);
      WriteCounter(env, s.metadata, n.id, Arrivals(env, s.metadata, n.id) + 1, j);
    } else if BaseOf(env, n) == TimerWait {
      WriteTimer(env, s.metadata, n.id, Obj(map["nodeId" := Str(n.id)]), j);
    }
  }

  /** The counter of `j` runs `d` ahead of its activation events. */
  function Ahead(env: Env, j: string, d: int): State -> bool {
    (s: State) => Arrivals(env, s.metadata, j) - JoinEvents(s, j) == d
  }

  lemma DrainCounts(env: Env, s: State, work: seq<Node>, fuel: nat, j: string)
    requires Repaired(env) && PlainKey(j) && AllGood(FoundIn(env), work) && Drain(env, s, work, fuel).Some?
    ensures var t := Drain(env, s, work, fuel).value;
            Arrivals(env, t.metadata, j) - JoinEvents(t, j) == Arrivals(env, s.metadata, j) - JoinEvents(s, j)
  {
    var d := Arrivals(env, s.metadata, j) - JoinEvents(s, j);
    forall x: State, n: Node | Ahead(env, j, d)(x) && Found(env, n) ensures Ahead(env, j, d)(Enter(env, x, n)) {
      EnterCounts(env, x, n, j);
    }
    DrainKeeps(env, s, work, fuel, Ahead(env, j, d));
  }

  lemma QuietJoins(a: State, b: State, more: seq<Event>, j: string)
    requires b.log == a.log + more && forall e :: e in more ==> !e.NodeActivated?
    ensures JoinEvents(b, j) == JoinEvents(a, j)
  {
    var q := NodeActivated(j, ParallelJoin);
    assert q !in more;
    assert multiset(more)[q] == 0;
  }

  /** Events that neither activate a node nor send work back. */
  predicate MovesNobody(e: Event) {
    !e.NodeActivated? && !e.TaskSentBack? && !e.ApprovalSentBack?
  }

  lemma QuietHooks(id: string, atts: seq<Attachment>, trigger: Trigger)
    ensures forall e :: e in AttachmentEvents(id, atts, trigger) ==> MovesNobody(e)
  {
    QuietAttachments(id, atts, trigger);
  }

  lemma DepartCounts(env: Env, s: State, n: Node, output: Context, j: string)
    ensures Depart(env, s, n, output).metadata == s.metadata
    ensures JoinEvents(Depart(env, s, n, output), j) == JoinEvents(s, j)
  {
    QuietHooks(n.id, n.attachments, OnComplete);
    QuietJoins(s, Depart(env, s, n, output), DepartEvents(n), j);
  }

  lemma AdvanceCounts(env: Env, s: State, id: string, output: Context, fuel: nat, j: string)
    requires Repaired(env) && PlainKey(j) && Advance(env, s, id, output, fuel).Some?
    ensures var t := Advance(env, s, id, output, fuel).value;
            Arrivals(env, t.metadata, j) - JoinEvents(t, j) == Arrivals(env, s.metadata, j) - JoinEvents(s, j)
  {
    if s.status == Running && Lookup(env, id).Some? {
      var n := Lookup(env, id).value;
      var s1 := Depart(env, s, n, output);
      DepartCounts(env, s, n, output, j);
      PickedFound(env, s1.context, id);
      DrainCounts(env, s1, PickTargets(env, s1.context, id), fuel, j);
    }
  }

  /** Whether a successful send-back forgets the arrivals at `j`. */
  ghost predicate Resets(env: Env, s: State, op: Op, fuel: nat, j: string) {
    && Step(env, s, op, fuel).Some? && Step(env, s, op, fuel).value.reply == Ok
    && ((op.DoSendBackTask? && op.task < |s.tasks| && JoinBetween(env.version, op.target, s.tasks[op.task].where.id, j))
        || (op.DoSendBackApproval? && op.approval < |s.approvals|
            && JoinBetween(env.version, op.target, s.approvals[op.approval].node, j)))
  }

  lemma ResetCounter(env: Env, meta: Context, target: string, source: string, j: string)
    requires Repaired(env) && PlainKey(j)
    ensures Arrivals(env, ResetJoins(env, meta, target, source), j)
            == if JoinBetween(env.version, target, source, j) then 0 else Arrivals(env, meta, j)
  {
    CounterPath(j);
    var p := ["joinArrivals", j];
    assert p[1..] == [j];
    var meta' := ResetJoins(env, meta, target, source);
    if exists id :: JoinBetween(env.version, target, source, id) {
      var arrivals := Below(meta, "joinArrivals");
      assert GetAt(meta', p) == GetAt(meta'["joinArrivals"].fields, [j]);
      assert GetAt(meta, p)
             == if "joinArrivals" in meta && meta["joinArrivals"].Obj? then GetAt(arrivals, [j]) else None;
      assert j in meta'["joinArrivals"].fields <==> j in arrivals && !JoinBetween(env.version, target, source, j);
    }
  }

  lemma RewindCounts(env: Env, s: State, source: string, target: string, e: Event, fuel: nat, j: string)
    requires Repaired(env) && PlainKey(j) && ValidTarget(env, target) && !e.NodeActivated?
    requires Drain(env, Rewind(env, s, source, target, e), [Lookup(env, target).value], fuel).Some?
    ensures var t := Drain(env, Rewind(env, s, source, target, e), [Lookup(env, target).value], fuel).value;
            Arrivals(env, t.metadata, j) - JoinEvents(t, j)
            == (if JoinBetween(env.version, target, source, j) then 0 else Arrivals(env, s.metadata, j))
               - JoinEvents(s, j)
  {
    var s1 := Rewind(env, s, source, target, e);
    ResetCounter(env, s.metadata, target, source, j);
    QuietJoins(s, s1, [e], j);
    assert AllGood(FoundIn(env), [Lookup(env, target).value]);
    DrainCounts(env, s1, [Lookup(env, target).value], fuel, j);
  }

  lemma OtherCounts(env: Env, s: State, op: Op, fuel: nat, j: string)
    requires Step(env, s, op, fuel).Some?
    requires !(op.DoComplete? || op.DoDecide? || op.DoSendBackTask? || op.DoSendBackApproval?)
    ensures var t := Step(env, s, op, fuel).value.state;
            t.metadata == s.metadata && JoinEvents(t, j) == JoinEvents(s, j)
  {
    var t := Step(env, s, op, fuel).value.state;
    OtherQuiet(env, s, op, fuel);
    QuietJoins(s, t, t.log[|s.log|..], j);
  }

  /** Log `t` is log `s` with more at the end, and no activation or send-back among it. */
  ghost predicate QuietAfter(s: State, t: State) {
    && t.metadata == s.metadata && s.log <= t.log && t.log == s.log + t.log[|s.log|..]
    && forall e :: e in t.log[|s.log|..] ==> MovesNobody(e)
  }

  lemma QuietEvent(s: State, t: State, e: Event)
    requires t.metadata == s.metadata && (t.log == s.log || t.log == s.log + [e]) && MovesNobody(e)
    ensures QuietAfter(s, t)
  {}

  lemma QuietMore(s: State, t: State, more: seq<Event>)
    requires t.metadata == s.metadata && t.log == s.log + more && forall e :: e in more ==> MovesNobody(e)
    ensures QuietAfter(s, t)
  {
    assert t.log[|s.log|..] == more;
  }

  lemma OverdueQuiet(env: Env, s: State, i: nat, sent: nat)
    ensures QuietAfter(s, SweepOverdue(env, s, i, sent).state)
  {
    var t := SweepOverdue(env, s, i, sent).state;
    if t != s && Lookup(env, s.tasks[i].where.id).Some? {
      var n := Lookup(env, s.tasks[i].where.id).value;
      QuietHooks(n.id, n.attachments, OnOverdue);
      var all := AttachmentEvents(n.id, n.attachments, OnOverdue);
      var more := if sent < |all| then all[..sent] else all;
      assert forall e :: e in more ==> e in all;
      assert t.log == s.log + more;
    }
  }

  lemma AdHocQuiet(s: State, token: string, blocking: bool, assignee: string)
    ensures QuietAfter(s, CreateAdHoc(s, token, blocking, assignee).state)
  {
    var t := CreateAdHoc(s, token, blocking, assignee).state;
    if t != s {
      var e := AdHocTaskCreated(Side("adhoc-" + token), blocking);
      assert t.log == s.log + [e] || t.log == s.log + [e] + [InstancePaused];
    }
  }

  /** Calls that do not reach activation log no activation and leave metadata alone. */
  lemma OtherQuiet(env: Env, s: State, op: Op, fuel: nat)
    requires Step(env, s, op, fuel).Some?
    requires !(op.DoComplete? || op.DoDecide? || op.DoSendBackTask? || op.DoSendBackApproval?)
    ensures QuietAfter(s, Step(env, s, op, fuel).value.state)
  {
    if op.DoSweepTimer? {
      SweepQuiet(env, s, op.timer, op.delivered);
    } else if op.DoSweepOverdue? {
      OverdueQuiet(env, s, op.task, op.sent);
    } else if op.DoAdHoc? {
      AdHocQuiet(s, op.token, op.blocking, op.assignee);
    } else {
      EditQuiet(env, s, op, fuel);
    }
  }

  lemma EditQuiet(env: Env, s: State, op: Op, fuel: nat)
    requires Step(env, s, op, fuel).Some?
    requires !(op.DoComplete? || op.DoDecide? || op.DoSendBackTask? || op.DoSendBackApproval?)
    requires !(op.DoSweepTimer? || op.DoSweepOverdue? || op.DoAdHoc?)
    ensures QuietAfter(s, Step(env, s, op, fuel).value.state)
  {
    var t := Step(env, s, op, fuel).value.state;
    if PlainEdit(op) {
      PlainEditLog(env, s, op, fuel);
      QuietEvent(s, t, EditEvent(s, op));
    } else {
      assert op.DoReassignTask? || op.DoPause? || op.DoResume?;
      QuietEvent(s, t, if op.DoPause? then InstancePaused else if op.DoResume? then InstanceResumed
                       else TaskReassigned(if op.task < |s.tasks| then s.tasks[op.task].where else Side("")));
    }
  }

  lemma HangQuiet(env: Env, s: State, i: nat)
    requires i < |s.tasks| && CompleteByTimer(env, s, i).reply == Blocked
    ensures QuietAfter(s, CompleteByTimer(env, s, i).state)
  {
    var t := CompleteByTimer(env, s, i).state;
    var w := s.tasks[i].where;
    var n := Lookup(env, w.id).value;
    QuietHooks(n.id, n.attachments, OnComplete);
    LogInThree(s.log, [TaskCompleted(w)], [NodeCompleted(w.id)]);
    LogInThree(s.log, [TaskCompleted(w)] + [NodeCompleted(w.id)], AttachmentEvents(n.id, n.attachments, OnComplete));
    QuietMore(s, t, [TaskCompleted(w)] + [NodeCompleted(w.id)] + AttachmentEvents(n.id, n.attachments, OnComplete));
  }

  lemma TimerQuiet(env: Env, s: State, i: nat)
    requires i < |s.tasks|
    ensures QuietAfter(s, CompleteByTimer(env, s, i).state)
  {
    var t := CompleteByTimer(env, s, i).state;
    var w := s.tasks[i].where;
    if CompleteByTimer(env, s, i).reply == Blocked {
      HangQuiet(env, s, i);
    } else if t.log == s.log {
      QuietMore(s, t, []);
    } else if t.log == s.log + [TaskCompleted(w)] {
      QuietMore(s, t, [TaskCompleted(w)]);
    } else {
      LogInThree(s.log, [TaskCompleted(w)], [InstanceResumed]);
      QuietMore(s, t, [TaskCompleted(w)] + [InstanceResumed]);
    }
  }

  lemma FireQuiet(env: Env, s: State, k: nat, delivered: bool)
    requires k < |s.timers|
    ensures QuietAfter(s, FireOne(env, s, k, delivered).state)
  {
    var row := s.timers[k];
    var e := AttachedTimerFired(row.node, k);
    var s1 := Emit(s, e);
    var t := FireOne(env, s, k, delivered).state;
    var open := LatestOpen(s.tasks, row.node);
    if row.action == AutoComplete && open.Some? {
      TimerQuiet(env, s1, open.value);
      assert t.log == s.log + ([e] + t.log[|s1.log|..]);
    } else if row.action == Escalate && open.Some? && row.escalateTo.Some? {
      assert t.log == s.log + [e, TaskReassigned(s.tasks[open.value].where)];
    } else {
      assert t.log == s.log + [e];
    }
  }

  lemma SweepQuiet(env: Env, s: State, k: nat, delivered: bool)
    ensures QuietAfter(s, SweepTimer(env, s, k, delivered).state)
  {
    if k < |s.timers| && Armed(s.timers[k]) {
      FireQuiet(env, s, k, delivered);
    }
  }

  lemma CompleteCounts(env: Env, s: State, i: nat, formData: Option<Context>, output: Option<Context>, fuel: nat,
                       j: string)
    requires Repaired(env) && PlainKey(j) && CompleteTask(env, s, i, formData, output, fuel).Some?
    ensures var t := CompleteTask(env, s, i, formData, output, fuel).value.state;
            Arrivals(env, t.metadata, j) - JoinEvents(t, j) == Arrivals(env, s.metadata, j) - JoinEvents(s, j)
  {
    if i < |s.tasks| && IsOpen(s.tasks[i].status) && (IsBlockingSide(s.tasks[i]) || s.status != Paused) {
      var s1 := Finish(s, i);
      QuietJoins(s, s1, [TaskCompleted(s.tasks[i].where)], j);
      QuietJoins(s1, Resume(s1), if s1.status == Paused then [InstanceResumed] else [], j);
      if s.tasks[i].where.Graph? {
        AdvanceCounts(env, s1, s.tasks[i].where.id, OutputOf(formData, output), fuel, j);
      }
    }
  }

  lemma DecideCounts(env: Env, s: State, i: nat, d: ApprovalStatus, conditions: Option<string>,
                     notes: Option<string>, fuel: nat, j: string)
    requires Repaired(env) && PlainKey(j) && Decide(env, s, i, d, conditions, notes, fuel).Some?
    ensures var t := Decide(env, s, i, d, conditions, notes, fuel).value.state;
            Arrivals(env, t.metadata, j) - JoinEvents(t, j) == Arrivals(env, s.metadata, j) - JoinEvents(s, j)
  {
    if i < |s.approvals| && s.approvals[i].status == Pending && s.status != Paused {
      var a := s.approvals[i];
      var s1 := Emit(s.(approvals := s.approvals[i := a.(status := d)]), ApprovalDecided(a.node, d));
      QuietJoins(s, s1, [ApprovalDecided(a.node, d)], j);
      if Settles(d) {
        AdvanceCounts(env, s1, a.node, DecisionOutput(d, conditions, notes), fuel, j);
      }
    }
  }

  lemma SendBackTaskCounts(env: Env, s: State, i: nat, target: string, fuel: nat, j: string)
    requires Repaired(env) && PlainKey(j) && SendBackTask(env, s, i, target, fuel).Some?
    ensures var r := SendBackTask(env, s, i, target, fuel).value;
            var reset := r.reply == Ok && i < |s.tasks| && JoinBetween(env.version, target, s.tasks[i].where.id, j);
            Arrivals(env, r.state.metadata, j) - JoinEvents(r.state, j)
            == (if reset then 0 else Arrivals(env, s.metadata, j)) - JoinEvents(s, j)
  {
    if i < |s.tasks| && IsOpen(s.tasks[i].status) && s.status != Paused && ValidTarget(env, target) {
      var t := s.tasks[i];
      RewindCounts(env, CloseTask(s, i, SentBack(target)), t.where.id, target, TaskSentBack(t.where, target), fuel, j);
    }
  }

  lemma SendBackApprovalCounts(env: Env, s: State, i: nat, target: string, fuel: nat, j: string)
    requires Repaired(env) && PlainKey(j) && SendBackApproval(env, s, i, target, fuel).Some?
    ensures var r := SendBackApproval(env, s, i, target, fuel).value;
            var reset := r.reply == Ok && i < |s.approvals| && JoinBetween(env.version, target, s.approvals[i].node, j);
            Arrivals(env, r.state.metadata, j) - JoinEvents(r.state, j)
            == (if reset then 0 else Arrivals(env, s.metadata, j)) - JoinEvents(s, j)
  {
    if i < |s.approvals| && s.approvals[i].status == Pending && s.status != Paused && ValidTarget(env, target) {
      var a := s.approvals[i];
      var closed := s.(approvals := s.approvals[i := a.(status := NeedsMoreInformation, sentBackTo := Some(target))]);
      RewindCounts(env, closed, a.node, target, ApprovalSentBack(a.node, target), fuel, j);
    }
  }

  /** The counter after a call is what it was, or 0 if the call reset it, plus the new activations. */
  ghost predicate Counted(env: Env, s: State, op: Op, fuel: nat, j: string, t: State) {
    Arrivals(env, t.metadata, j)
    == (if Resets(env, s, op, fuel, j) then 0 else Arrivals(env, s.metadata, j)) + JoinEvents(t, j) - JoinEvents(s, j)
  }

  /** One call moves the counter by its activations, from zero if the call reset it. */
  lemma StepCounts(env: Env, s: State, op: Op, fuel: nat, j: string)
    requires Repaired(env) && PlainKey(j) && Step(env, s, op, fuel).Some?
    ensures Counted(env, s, op, fuel, j, Step(env, s, op, fuel).value.state)
  {
    match op {
      case DoComplete(i, formData, output) => CompleteCounts(env, s, i, formData, output, fuel, j);
      case DoDecide(i, d, conditions, notes) => DecideCounts(env, s, i, d, conditions, notes, fuel, j);
      case DoSendBackTask(i, target) => SendBackTaskCounts(env, s, i, target, fuel, j);
      case DoSendBackApproval(i, target) => SendBackApprovalCounts(env, s, i, target, fuel, j);
      case _ => OtherCounts(env, s, op, fuel, j);
    }
  }

  /** Activations of `j` since the start of the run or the last send-back that reset it. */
  ghost function SinceReset(env: Env, s: State, ops: seq<Op>, fuel: nat, j: string): int
    requires Replay(env, s, ops, fuel).Some?
    decreases |ops|
  {
    if ops == [] then JoinEvents(s, j)
    else
      var before := Replay(env, s, ops[..|ops| - 1], fuel).value;
      var op := ops[|ops| - 1];
      (if Resets(env, before, op, fuel, j) then 0 else SinceReset(env, s, ops[..|ops| - 1], fuel, j))
      + JoinEvents(Replay(env, s, ops, fuel).value, j) - JoinEvents(before, j)
  }

  lemma {:induction false} ReplayCounts(env: Env, s: State, ops: seq<Op>, fuel: nat, j: string)
    requires Repaired(env) && PlainKey(j) && Replay(env, s, ops, fuel).Some?
    requires Arrivals(env, s.metadata, j) == JoinEvents(s, j)
    ensures Arrivals(env, Replay(env, s, ops, fuel).value.metadata, j) == SinceReset(env, s, ops, fuel, j)
    decreases |ops|
  {
    if ops != [] {
      var before := ops[..|ops| - 1];
      ReplayCounts(env, s, before, fuel, j);
      StepCounts(env, Replay(env, s, before, fuel).value, ops[|ops| - 1], fuel, j);
    }
  }

  /** With the repaired read, in every state of every run a join's counter is the number of its
      activations since the start or its last reset. */
  lemma RunCounts(env: Env, ctx: Context, ops: seq<Op>, fuel: nat, j: string)
    requires Repaired(env) && PlainKey(j) && Exec(env, ctx, ops, fuel).Some?
    ensures Arrivals(env, Exec(env, ctx, ops, fuel).value.metadata, j)
            == SinceReset(env, Begin(env, ctx, fuel).value, ops, fuel, j)
  {
    var start := StartNode(env.version.nodes).value;
    assert AllGood(FoundIn(env), [start]);
    CounterPath(j);
    assert JoinEvents(Fresh(ctx), j) == 0 by {
      SeenOne([], InstanceStarted, NodeActivated(j, ParallelJoin));
      assert Fresh(ctx).log == [] + [InstanceStarted];
    }
    DrainCounts(env, Fresh(ctx), [start], fuel, j);
    ReplayCounts(env, Begin(env, ctx, fuel).value, ops, fuel, j);
  }
}
