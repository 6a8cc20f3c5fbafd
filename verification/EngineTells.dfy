/** What the log says happened is what the rows and the status say. */
module EngineTells {
  // server/businessWorkflows.ts:671-766, 793-1165, 2251-2323.

  import opened Prelude
  import opened JsonTree
  import opened WorkflowGraph
  import opened Worklist
  import opened Engine
  import opened EngineGrowth
  import opened EngineLifecycle
  import opened EngineInduction
  import opened EngineActivation

  // --- Counting in the log ---

  function Times(log: seq<Event>, e: Event): nat {
    multiset(log)[e]
  }

  /** Events that none of the counts below is about. */
  predicate Dull(e: Event) {
    !(e.NodeActivated? || e.AgentDelegated? || e.NotificationSent? || e.InstanceStarted? || e.InstanceCompleted?
      || e.InstanceCancelled? || e.InstancePaused? || e.InstanceResumed? || e.AttachedTimerScheduled?)
  }

  predicate AllDull(more: seq<Event>) {
    forall e :: e in more ==> Dull(e)
  }

  lemma TimesConcat(a: seq<Event>, b: seq<Event>, e: Event)
    ensures Times(a + b, e) == Times(a, e) + Times(b, e)
  {}

  lemma TimesOne(log: seq<Event>, x: Event, e: Event)
    ensures Times(log + [x], e) == Times(log, e) + if x == e then 1 else 0
  {
    TimesConcat(log, [x], e);
  }

  lemma TimesDull(log: seq<Event>, more: seq<Event>, e: Event)
    requires AllDull(more) && !Dull(e)
    ensures Times(log + more, e) == Times(log, e)
  {
    TimesConcat(log, more, e);
  }

  // --- What is told ---

  /** An agent task is delegated, a notification sent and the instance completed once per activation. */
  ghost predicate PassageTold(log: seq<Event>, id: string) {
    && Times(log, AgentDelegated(id)) == Times(log, NodeActivated(id, AgentTask))
    && Times(log, NotificationSent(id)) == Times(log, NodeActivated(id, Notification))
    && Times(log, InstanceCompleted(id)) == Times(log, NodeActivated(id, End))
  }

  /** Every timer row has its event. */
  ghost predicate TimerTold(log: seq<Event>, rows: seq<Timer>, id: string, a: string) {
    Times(log, AttachedTimerScheduled(id, a)) == Times(Told(rows), AttachedTimerScheduled(id, a))
  }

  ghost predicate Completes(log: seq<Event>) {
    exists id :: Times(log, InstanceCompleted(id)) > 0
  }

  /** The status is what the log says last: started once, completed if some END was reached, cancelled at most
      once, and paused as long as one pause more than resumptions. */
  ghost predicate StatusTold(status: Status, log: seq<Event>) {
    && Times(log, InstanceStarted) == 1 && status != Failed
    && (status == Completed <==> Completes(log))
    && Times(log, InstanceCancelled) == (if status == Cancelled then 1 else 0)
    && var open := Times(log, InstancePaused) - Times(log, InstanceResumed);
       match status
       case Paused => open == 1
       case Cancelled => 0 <= open <= 1
       case _ => open == 0
  }

  ghost predicate RowsTold(log: seq<Event>, rows: seq<Timer>) {
    && (forall id :: PassageTold(log, id))
    && (forall id, a :: TimerTold(log, rows, id, a))
  }

  ghost predicate Tells(s: State) {
    RowsTold(s.log, s.timers) && StatusTold(s.status, s.log)
  }

  // --- Steps that none of it is about ---

  /** `b` has more dull events than `a`, and the same timers up to being fired or cancelled. */
  ghost predicate OnlyDull(a: State, b: State, more: seq<Event>) {
    b.log == a.log + more && AllDull(more) && Told(b.timers) == Told(a.timers)
  }

  lemma DullRows(log: seq<Event>, more: seq<Event>, rows: seq<Timer>)
    requires RowsTold(log, rows) && AllDull(more)
    ensures RowsTold(log + more, rows)
  {
    forall id ensures PassageTold(log + more, id) {
      assert PassageTold(log, id);
      TimesDull(log, more, AgentDelegated(id));
      TimesDull(log, more, NotificationSent(id));
      TimesDull(log, more, InstanceCompleted(id));
      TimesDull(log, more, NodeActivated(id, AgentTask));
      TimesDull(log, more, NodeActivated(id, Notification));
      TimesDull(log, more, NodeActivated(id, End));
    }
    forall id, a ensures TimerTold(log + more, rows, id, a) {
      assert TimerTold(log, rows, id, a);
      TimesDull(log, more, AttachedTimerScheduled(id, a));
    }
  }

  lemma DullStatus(log: seq<Event>, more: seq<Event>, status: Status)
    requires StatusTold(status, log) && AllDull(more)
    ensures StatusTold(status, log + more)
  {
    TimesDull(log, more, InstanceStarted);
    TimesDull(log, more, InstanceCancelled);
    TimesDull(log, more, InstancePaused);
    TimesDull(log, more, InstanceResumed);
    forall id ensures Times(log + more, InstanceCompleted(id)) == Times(log, InstanceCompleted(id)) {
      TimesDull(log, more, InstanceCompleted(id));
    }
  }

  lemma SameTold(a: State, b: State)
    requires Told(a.timers) == Told(b.timers) && RowsTold(a.log, a.timers)
    ensures RowsTold(a.log, b.timers)
  {
    forall id, x ensures TimerTold(a.log, b.timers, id, x) {
      assert TimerTold(a.log, a.timers, id, x);
    }
  }

  lemma DullTells(a: State, b: State, more: seq<Event>)
    requires Tells(a) && OnlyDull(a, b, more) && b.status == a.status
    ensures Tells(b)
  {
    SameTold(a, b);
    DullRows(a.log, more, b.timers);
    DullStatus(a.log, more, a.status);
  }

  /** An event about the instance's status leaves the rows told. */
  lemma StatusEvent(log: seq<Event>, rows: seq<Timer>, e: Event)
    requires RowsTold(log, rows)
    requires e in {InstancePaused, InstanceResumed, InstanceCancelled}
    ensures RowsTold(log + [e], rows)
  {
    forall id ensures PassageTold(log + [e], id) {
      assert PassageTold(log, id);
      TimesOne(log, e, AgentDelegated(id));
      TimesOne(log, e, NotificationSent(id));
      TimesOne(log, e, InstanceCompleted(id));
      TimesOne(log, e, NodeActivated(id, AgentTask));
      TimesOne(log, e, NodeActivated(id, Notification));
      TimesOne(log, e, NodeActivated(id, End));
    }
    forall id, a ensures TimerTold(log + [e], rows, id, a) {
      assert TimerTold(log, rows, id, a);
      TimesOne(log, e, AttachedTimerScheduled(id, a));
    }
  }

  lemma StatusMove(log: seq<Event>, before: Status, e: Event, after: Status)
    requires StatusTold(before, log)
    requires || (before == Running && e == InstancePaused && after == Paused)
             || (before == Paused && e == InstanceResumed && after == Running)
             || (before in {Running, Paused} && e == InstanceCancelled && after == Cancelled)
    ensures StatusTold(after, log + [e])
  {
    TimesOne(log, e, InstanceStarted);
    TimesOne(log, e, InstanceCancelled);
    TimesOne(log, e, InstancePaused);
    TimesOne(log, e, InstanceResumed);
    forall id ensures Times(log + [e], InstanceCompleted(id)) == Times(log, InstanceCompleted(id)) {
      TimesOne(log, e, InstanceCompleted(id));
    }
  }

  lemma PauseTells(s: State)
    requires Tells(s)
    ensures Tells(Pause(s)) && Tells(Resume(s))
  {
    StatusEvent(s.log, s.timers, InstancePaused);
    StatusEvent(s.log, s.timers, InstanceResumed);
    if s.status == Running {
      StatusMove(s.log, Running, InstancePaused, Paused);
    } else if s.status == Paused {
      StatusMove(s.log, Paused, InstanceResumed, Running);
    }
  }

  lemma CancelTells(s: State)
    requires Tells(s)
    ensures Tells(CancelInstance(s))
  {
    if s.status in {Running, Paused} {
      var t := CancelInstance(s);
      assert Told(t.timers) == Told(s.timers);
      StatusEvent(s.log, s.timers, InstanceCancelled);
      StatusMove(s.log, s.status, InstanceCancelled, Cancelled);
      SameTold(s.(log := s.log + [InstanceCancelled]), t);
    }
  }

  // --- Activation ---

  lemma AttachmentsTold(n: Node, id: string, a: string)
    ensures Times(AttachmentEvents(n.id, n.attachments, OnActivate), AttachedTimerScheduled(id, a))
            == Times(Told(AttachmentTimers(n.id, n.attachments, OnActivate)), AttachedTimerScheduled(id, a))
  {
    var events := AttachmentEvents(n.id, n.attachments, OnActivate);
    var rows := AttachmentTimers(n.id, n.attachments, OnActivate);
    if id == n.id {
      TimersAreTold(id, n.attachments, OnActivate, a);
    } else {
      EventsAreOfTheNode(n.id, n.attachments, OnActivate);
      RowsAreArmed(n.id, n.attachments, OnActivate);
      var e := AttachedTimerScheduled(id, a);
      assert e !in events;
      assert e !in Told(rows);
    }
  }

  function LastOf(env: Env, n: Node): seq<Event> {
    match BaseOf(env, n)
    case End => [InstanceCompleted(n.id)]
    case AgentTask => [AgentDelegated(n.id)]
    case Notification => [NotificationSent(n.id)]
    case _ => []
  }

  lemma TailTimes(env: Env, n: Node, e: Event)
    ensures Times(EnterTail(env, n), e)
            == Times(AttachmentEvents(n.id, n.attachments, OnActivate), e) + Times(LastOf(env, n), e)
  {
    assert EnterTail(env, n) == AttachmentEvents(n.id, n.attachments, OnActivate) + LastOf(env, n);
    TimesConcat(AttachmentEvents(n.id, n.attachments, OnActivate), LastOf(env, n), e);
  }

  lemma LastTimes(env: Env, n: Node, e: Event)
    ensures Times(LastOf(env, n), e)
            == if (BaseOf(env, n) == AgentTask && e == AgentDelegated(n.id))
                  || (BaseOf(env, n) == Notification && e == NotificationSent(n.id))
                  || (BaseOf(env, n) == End && e == InstanceCompleted(n.id)) then 1 else 0
  {}

  lemma TailTells(env: Env, n: Node, e: Event)
    requires !Dull(e) && !e.AttachedTimerScheduled?
    ensures Times(EnterTail(env, n), e)
            == if (BaseOf(env, n) == AgentTask && e == AgentDelegated(n.id))
                  || (BaseOf(env, n) == Notification && e == NotificationSent(n.id))
                  || (BaseOf(env, n) == End && e == InstanceCompleted(n.id)) then 1 else 0
  {
    EventsAreOfTheNode(n.id, n.attachments, OnActivate);
    TailTimes(env, n, e);
    LastTimes(env, n, e);
  }

  lemma TailTimers(env: Env, n: Node, id: string, a: string)
    ensures Times(EnterTail(env, n), AttachedTimerScheduled(id, a))
            == Times(AttachmentEvents(n.id, n.attachments, OnActivate), AttachedTimerScheduled(id, a))
  {
    TailTimes(env, n, AttachedTimerScheduled(id, a));
    LastTimes(env, n, AttachedTimerScheduled(id, a));
  }

  /** How often `e` is in the log after a node was entered. */
  lemma EnterTimes(env: Env, s: State, n: Node, e: Event)
    ensures Times(Enter(env, s, n).log, e)
            == Times(s.log, e) + Times(EnterTail(env, n), e)
               + if e == NodeActivated(n.id, BaseOf(env, n)) then 1 else 0
  {
    var x := NodeActivated(n.id, BaseOf(env, n));
    EnterLog(env, s, n);
    TimesConcat(s.log + [x], EnterTail(env, n), e);
    TimesOne(s.log, x, e);
  }

  lemma EnterPassage(env: Env, s: State, n: Node, id: string)
    requires PassageTold(s.log, id)
    ensures PassageTold(Enter(env, s, n).log, id)
  {
    EnterTimes(env, s, n, AgentDelegated(id));
    EnterTimes(env, s, n, NotificationSent(id));
    EnterTimes(env, s, n, InstanceCompleted(id));
    EnterTimes(env, s, n, NodeActivated(id, AgentTask));
    EnterTimes(env, s, n, NodeActivated(id, Notification));
    EnterTimes(env, s, n, NodeActivated(id, End));
    TailTells(env, n, AgentDelegated(id));
    TailTells(env, n, NotificationSent(id));
    TailTells(env, n, InstanceCompleted(id));
    TailTells(env, n, NodeActivated(id, AgentTask));
    TailTells(env, n, NodeActivated(id, Notification));
    TailTells(env, n, NodeActivated(id, End));
  }

  lemma EnterTimer(env: Env, s: State, n: Node, id: string, a: string)
    requires TimerTold(s.log, s.timers, id, a)
    ensures TimerTold(Enter(env, s, n).log, Enter(env, s, n).timers, id, a)
  {
    var e := AttachedTimerScheduled(id, a);
    EnterTimes(env, s, n, e);
    TailTimers(env, n, id, a);
    AttachmentsTold(n, id, a);
    EnterTables(env, s, n);
    ToldOneMore(s.timers, AttachmentTimers(n.id, n.attachments, OnActivate), e);
  }

  lemma EnterStatusTold(env: Env, s: State, n: Node)
    requires StatusTold(s.status, s.log) && s.status in {Running, Completed}
    ensures StatusTold(Enter(env, s, n).status, Enter(env, s, n).log) && Enter(env, s, n).status in {Running, Completed}
  {
    var t := Enter(env, s, n);
    EnterStatus(env, s, n);
    EnterTimes(env, s, n, InstanceStarted);
    EnterTimes(env, s, n, InstanceCancelled);
    EnterTimes(env, s, n, InstancePaused);
    EnterTimes(env, s, n, InstanceResumed);
    TailTells(env, n, InstanceStarted);
    TailTells(env, n, InstanceCancelled);
    TailTells(env, n, InstancePaused);
    TailTells(env, n, InstanceResumed);
    EnterCompletes(env, s, n);
  }

  lemma EndCounts(env: Env, s: State, n: Node, id: string)
    ensures Times(Enter(env, s, n).log, InstanceCompleted(id))
            == Times(s.log, InstanceCompleted(id)) + if BaseOf(env, n) == End && id == n.id then 1 else 0
  {
    EnterTimes(env, s, n, InstanceCompleted(id));
    TailTells(env, n, InstanceCompleted(id));
  }

  lemma EndCompletes(env: Env, s: State, n: Node)
    ensures Enter(env, s, n).status == if BaseOf(env, n) == End then Completed else s.status
  {}

  lemma EnterCompletes(env: Env, s: State, n: Node)
    ensures Completes(Enter(env, s, n).log) <==> Completes(s.log) || BaseOf(env, n) == End
    ensures Enter(env, s, n).status == if BaseOf(env, n) == End then Completed else s.status
  {
    EndCompletes(env, s, n);
    CompletesMore(s.log, Enter(env, s, n).log, env, s, n);
  }

  lemma CompletesMore(before: seq<Event>, after: seq<Event>, env: Env, s: State, n: Node)
    requires before == s.log && after == Enter(env, s, n).log
    ensures Completes(after) <==> Completes(before) || BaseOf(env, n) == End
  {
    forall id
      ensures Times(after, InstanceCompleted(id))
              == Times(before, InstanceCompleted(id)) + if BaseOf(env, n) == End && id == n.id then 1 else 0
    {
      EndCounts(env, s, n, id);
    }
    if Completes(before) {
      var id :| Times(before, InstanceCompleted(id)) > 0;
      assert Times(after, InstanceCompleted(id)) > 0;
    }
    if BaseOf(env, n) == End {
      assert Times(after, InstanceCompleted(n.id)) > 0;
    }
  }

  ghost function TellsIn(): State -> bool {
    (s: State) => Tells(s) && s.status in {Running, Completed}
  }

  lemma EnterTells(env: Env, s: State, n: Node)
    requires TellsIn()(s)
    ensures TellsIn()(Enter(env, s, n))
  {
    var t := Enter(env, s, n);
    forall id ensures PassageTold(t.log, id) {
      assert PassageTold(s.log, id);
      EnterPassage(env, s, n, id);
    }
    forall id, a ensures TimerTold(t.log, t.timers, id, a) {
      assert TimerTold(s.log, s.timers, id, a);
      EnterTimer(env, s, n, id, a);
    }
    EnterStatusTold(env, s, n);
  }

  lemma DrainTells(env: Env, s: State, work: seq<Node>, fuel: nat)
    requires TellsIn()(s) && AllGood(FoundIn(env), work) && Drain(env, s, work, fuel).Some?
    ensures Tells(Drain(env, s, work, fuel).value)
  {
    forall x: State, n: Node | TellsIn()(x) && Found(env, n) ensures TellsIn()(Enter(env, x, n)) {
      EnterTells(env, x, n);
    }
    DrainKeeps(env, s, work, fuel, TellsIn());
  }

  // --- Moving on ---

  lemma {:induction false} NothingArmed(id: string, atts: seq<Attachment>, trigger: Trigger)
    requires trigger != OnActivate
    ensures AttachmentTimers(id, atts, trigger) == []
    ensures AllDull(AttachmentEvents(id, atts, trigger))
  {
    if atts != [] {
      NothingArmed(id, atts[1..], trigger);
    }
  }

  lemma CancelledTold(rows: seq<Timer>, id: string)
    ensures Told(CancelledAt(rows, id)) == Told(rows)
  {}

  lemma DepartDull(env: Env, s: State, n: Node, output: Context)
    ensures OnlyDull(s, Depart(env, s, n, output), DepartEvents(n)) && Depart(env, s, n, output).status == s.status
  {
    NothingArmed(n.id, n.attachments, OnComplete);
    assert s.timers + AttachmentTimers(n.id, n.attachments, OnComplete) == s.timers;
    CancelledTold(s.timers, n.id);
  }

  lemma AdvanceTells(env: Env, s: State, id: string, output: Context, fuel: nat)
    requires Tells(s) && Advance(env, s, id, output, fuel).Some?
    ensures Tells(Advance(env, s, id, output, fuel).value)
  {
    if s.status == Running && Lookup(env, id).Some? {
      var n := Lookup(env, id).value;
      var s1 := Depart(env, s, n, output);
      DepartDull(env, s, n, output);
      DullTells(s, s1, DepartEvents(n));
      PickedFound(env, s1.context, id);
      DrainTells(env, s1, PickTargets(env, s1.context, id), fuel);
    }
  }

  lemma FinishTells(s: State, i: nat)
    requires Tells(s) && i < |s.tasks|
    ensures Tells(Finish(s, i))
  {
    DullTells(s, Finish(s, i), [TaskCompleted(s.tasks[i].where)]);
  }

  lemma CompleteTells(env: Env, s: State, i: nat, formData: Option<Context>, output: Option<Context>, fuel: nat)
    requires Tells(s) && CompleteTask(env, s, i, formData, output, fuel).Some?
    ensures Tells(CompleteTask(env, s, i, formData, output, fuel).value.state)
  {
    if i < |s.tasks| {
      var s1 := Finish(s, i);
      FinishTells(s, i);
      PauseTells(s1);
      if s.tasks[i].where.Graph? && Advance(env, s1, s.tasks[i].where.id, OutputOf(formData, output), fuel).Some? {
        AdvanceTells(env, s1, s.tasks[i].where.id, OutputOf(formData, output), fuel);
      }
    }
  }

  lemma DecideTells(env: Env, s: State, i: nat, d: ApprovalStatus, conditions: Option<string>, notes: Option<string>,
                    fuel: nat)
    requires Tells(s) && Decide(env, s, i, d, conditions, notes, fuel).Some?
    ensures Tells(Decide(env, s, i, d, conditions, notes, fuel).value.state)
  {
    if i < |s.approvals| && s.status != Paused && s.approvals[i].status == Pending {
      var a := s.approvals[i];
      var s1 := Emit(s.(approvals := s.approvals[i := a.(status := d)]), ApprovalDecided(a.node, d));
      DullTells(s, s1, [ApprovalDecided(a.node, d)]);
      if Settles(d) {
        AdvanceTells(env, s1, a.node, DecisionOutput(d, conditions, notes), fuel);
      }
    }
  }

  lemma RewindTells(env: Env, s: State, source: string, target: string, e: Event, fuel: nat)
    requires Tells(s) && s.status in {Running, Completed} && Dull(e) && Lookup(env, target).Some?
    requires Drain(env, Rewind(env, s, source, target, e), [Lookup(env, target).value], fuel).Some?
    ensures Tells(Drain(env, Rewind(env, s, source, target, e), [Lookup(env, target).value], fuel).value)
  {
    var s1 := Rewind(env, s, source, target, e);
    CancelledTold(s.timers, source);
    DullTells(s, s1, [e]);
    assert AllGood(FoundIn(env), [Lookup(env, target).value]);
    DrainTells(env, s1, [Lookup(env, target).value], fuel);
  }

  lemma TaskBackTells(env: Env, s: State, i: nat, target: string, fuel: nat)
    requires Tells(s) && Sealed(s) && SendBackTask(env, s, i, target, fuel).Some?
    ensures Tells(SendBackTask(env, s, i, target, fuel).value.state)
  {
    if i < |s.tasks| && IsOpen(s.tasks[i].status) && s.status != Paused && ValidTarget(env, target) {
      var t := s.tasks[i];
      var s1 := CloseTask(s, i, SentBack(target));
      assert Tells(s1);
      RewindTells(env, s1, t.where.id, target, TaskSentBack(t.where, target), fuel);
    }
  }

  lemma ApprovalBackTells(env: Env, s: State, i: nat, target: string, fuel: nat)
    requires Tells(s) && Sealed(s) && SendBackApproval(env, s, i, target, fuel).Some?
    ensures Tells(SendBackApproval(env, s, i, target, fuel).value.state)
  {
    if i < |s.approvals| && s.approvals[i].status == Pending && s.status != Paused && ValidTarget(env, target) {
      var a := s.approvals[i];
      var s1 := s.(approvals := s.approvals[i := a.(status := NeedsMoreInformation, sentBackTo := Some(target))]);
      assert Tells(s1);
      RewindTells(env, s1, a.node, target, ApprovalSentBack(a.node, target), fuel);
    }
  }

  // --- The other calls ---

  lemma ReassignTells(s: State, i: nat, assignee: string)
    requires Tells(s)
    ensures Tells(ReassignTask(s, i, assignee).state)
  {
    if i < |s.tasks| && IsOpen(s.tasks[i].status) {
      DullTells(s, ReassignTask(s, i, assignee).state, [TaskReassigned(s.tasks[i].where)]);
    }
  }

  lemma AdHocTells(s: State, token: string, blocking: bool, assignee: string)
    requires Tells(s)
    ensures Tells(CreateAdHoc(s, token, blocking, assignee).state)
  {
    var w := Side("adhoc-" + token);
    var row := Task(w, Open, None, assignee, blocking, false);
    var s1 := Emit(s.(tasks := s.tasks + [row]), AdHocTaskCreated(w, blocking));
    DullTells(s, s1, [AdHocTaskCreated(w, blocking)]);
    PauseTells(s1);
  }

  lemma TimerActionTells(env: Env, s: State, i: nat)
    requires Tells(s) && i < |s.tasks|
    ensures Tells(CompleteByTimer(env, s, i).state)
  {
    var s1 := Finish(s, i);
    FinishTells(s, i);
    PauseTells(s1);
    var id := s.tasks[i].where.id;
    if Lookup(env, id).Some? {
      var n := Lookup(env, id).value;
      var t := FireAttachments(Emit(s1, NodeCompleted(id)), n, OnComplete);
      var more := AttachmentEvents(n.id, n.attachments, OnComplete);
      NothingArmed(n.id, n.attachments, OnComplete);
      LogInThree(s1.log, [NodeCompleted(id)], more);
      assert s1.timers + [] == s1.timers;
      DullTells(s1, t, [NodeCompleted(id)] + more);
    }
  }

  lemma EscalateTells(s: State, open: Option<nat>, assignee: Option<string>)
    requires Tells(s)
    ensures Tells(EscalateTo(s, open, assignee))
  {
    if open.Some? && assignee.Some? {
      ReassignTells(s, open.value, assignee.value);
    }
  }

  lemma FireTells(env: Env, s: State, k: nat, delivered: bool)
    requires Tells(s) && k < |s.timers|
    ensures Tells(FireOne(env, s, k, delivered).state)
  {
    var row := s.timers[k];
    var s1 := Emit(s, AttachedTimerFired(row.node, k));
    DullTells(s, s1, [AttachedTimerFired(row.node, k)]);
    var open := LatestOpen(s.tasks, row.node);
    match row.action {
      case Escalate => EscalateTells(s1, open, row.escalateTo);
      case AutoComplete => if open.Some? { TimerActionTells(env, s1, open.value); }
      case _ =>
    }
  }

  lemma SweepTells(env: Env, s: State, k: nat, delivered: bool)
    requires Tells(s)
    ensures Tells(SweepTimer(env, s, k, delivered).state)
  {
    if k < |s.timers| && Armed(s.timers[k]) {
      var r := FireOne(env, s, k, delivered);
      FireTells(env, s, k, delivered);
      assert r.state.log + [] == r.state.log;
      var stamped := Stamp(r.state, k);
      assert Told(stamped.timers) == Told(r.state.timers);
      DullTells(r.state, stamped, []);
    }
  }

  lemma OverdueTells(env: Env, s: State, i: nat, sent: nat)
    requires Tells(s)
    ensures Tells(SweepOverdue(env, s, i, sent).state)
  {
    var t := SweepOverdue(env, s, i, sent).state;
    if i < |s.tasks| && IsOpen(s.tasks[i].status) && !s.tasks[i].overdueNotified {
      var node := Lookup(env, s.tasks[i].where.id);
      if node.None? {
        assert s.log + [] == t.log;
        DullTells(s, t, []);
      } else {
        var all := AttachmentEvents(node.value.id, node.value.attachments, OnOverdue);
        NothingArmed(node.value.id, node.value.attachments, OnOverdue);
        var more := if sent < |all| then all[..sent] else all;
        assert forall e :: e in more ==> e in all;
        DullTells(s, t, more);
      }
    }
  }

  lemma RowTells(env: Env, s: State, op: Op, fuel: nat)
    requires Tells(s) && (op.DoClaim? || op.DoReassignApproval?)
    ensures Tells(Step(env, s, op, fuel).value.state)
  {
    var t := Step(env, s, op, fuel).value.state;
    match op {
      case DoClaim(i, who) =>
        if t != s { DullTells(s, t, [TaskClaimed(s.tasks[i].where)]); }
      case DoReassignApproval(i, assignee) =>
        if t != s { DullTells(s, t, [ApprovalReassigned(s.approvals[i].node)]); }
    }
  }

  /** What an edit does: nothing, or a new context and one dull event. */
  lemma EditIs(env: Env, s: State, op: Op, fuel: nat) returns (e: Event)
    requires op.DoUpdateContext? || op.DoRemoveKeys? || op.DoAttach? || op.DoDetach? || op.DoNote?
    ensures var t := Step(env, s, op, fuel).value.state;
            Dull(e) && (t == s || t == s.(context := t.context, log := s.log + [e]))
  {
    e := match op
         case DoAttach(_, _) => DocumentAttached
         case DoDetach(_) => DocumentRemoved
         case DoNote => NoteAdded
         case _ => ContextUpdated;
  }

  lemma EditTells(env: Env, s: State, op: Op, fuel: nat)
    requires Tells(s)
    requires op.DoUpdateContext? || op.DoRemoveKeys? || op.DoAttach? || op.DoDetach? || op.DoNote?
    ensures Tells(Step(env, s, op, fuel).value.state)
  {
    var e := EditIs(env, s, op, fuel);
    var t := Step(env, s, op, fuel).value.state;
    if t != s {
      DullTells(s, t, [e]);
    }
  }

  lemma MoveTells(env: Env, s: State, op: Op, fuel: nat)
    requires Tells(s) && Sealed(s) && MovesOn(op) && Step(env, s, op, fuel).Some?
    ensures Tells(Step(env, s, op, fuel).value.state)
  {
    match op {
      case DoComplete(i, formData, output) =>
        assert Step(env, s, op, fuel) == CompleteTask(env, s, i, formData, output, fuel);
        CompleteTells(env, s, i, formData, output, fuel);
      case DoDecide(i, d, conditions, notes) =>
        assert Step(env, s, op, fuel) == Decide(env, s, i, d, conditions, notes, fuel);
        DecideTells(env, s, i, d, conditions, notes, fuel);
      case DoSendBackTask(i, target) =>
        assert Step(env, s, op, fuel) == SendBackTask(env, s, i, target, fuel);
        TaskBackTells(env, s, i, target, fuel);
      case DoSendBackApproval(i, target) =>
        assert Step(env, s, op, fuel) == SendBackApproval(env, s, i, target, fuel);
        ApprovalBackTells(env, s, i, target, fuel);
    }
  }

  lemma StepTells(env: Env, s: State, op: Op, fuel: nat)
    requires Tells(s) && Sealed(s) && Step(env, s, op, fuel).Some?
    ensures Tells(Step(env, s, op, fuel).value.state)
  {
    if MovesOn(op) {
      MoveTells(env, s, op, fuel);
    } else {
      match op {
        case DoReassignTask(i, assignee) => ReassignTells(s, i, assignee);
        case DoAdHoc(token, blocking, assignee) => AdHocTells(s, token, blocking, assignee);
        case DoPause => PauseTells(s);
        case DoResume => PauseTells(s);
        case DoCancel => CancelTells(s);
        case DoSweepTimer(k, delivered) => SweepTells(env, s, k, delivered);
        case DoSweepOverdue(i, sent) => OverdueTells(env, s, i, sent);
        case DoClaim(_, _) => RowTells(env, s, op, fuel);
        case DoReassignApproval(_, _) => RowTells(env, s, op, fuel);
        case _ => EditTells(env, s, op, fuel);
      }
    }
  }

  ghost function TellsAll(): State -> bool {
    (s: State) => Tells(s) && Sealed(s)
  }

  lemma FreshTells(ctx: Context)
    ensures Tells(Fresh(ctx)) && Sealed(Fresh(ctx))
  {
    var s := Fresh(ctx);
    assert Told(s.timers) == [];
    forall id ensures PassageTold(s.log, id) {}
    forall id, a ensures TimerTold(s.log, s.timers, id, a) {}
    assert forall id :: Times(s.log, InstanceCompleted(id)) == 0;
  }

  lemma StartTells(env: Env, ctx: Context, fuel: nat)
    requires Begin(env, ctx, fuel).Some?
    ensures TellsAll()(Begin(env, ctx, fuel).value)
  {
    var start := StartNode(env.version.nodes).value;
    FreshTells(ctx);
    assert AllGood(FoundIn(env), [start]);
    DrainTells(env, Fresh(ctx), [start], fuel);
    DrainStatus(env, Fresh(ctx), [start], fuel);
  }

  /** In every run: an agent task is delegated, a notification sent and the instance completed exactly once
      per activation of such a node; every timer row has one event that says so; and the status is what the
      log says: started once, COMPLETED exactly if an END was reached, CANCELLED exactly if the one cancel is
      there, PAUSED exactly as long as pauses outnumber resumptions, by one. */
  lemma RunTells(env: Env, ctx: Context, ops: seq<Op>, fuel: nat)
    requires Exec(env, ctx, ops, fuel).Some?
    ensures Tells(Exec(env, ctx, ops, fuel).value)
  {
    var s := Begin(env, ctx, fuel).value;
    StartTells(env, ctx, fuel);
    forall x: State, op: Op | TellsAll()(x) && Step(env, x, op, fuel).Some?
      ensures TellsAll()(Step(env, x, op, fuel).value.state)
    {
      StepTells(env, x, op, fuel);
      StepSealed(env, x, op, fuel);
    }
    ReplayKeeps(env, s, ops, fuel, TellsAll());
  }
}
