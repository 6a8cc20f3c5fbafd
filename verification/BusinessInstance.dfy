/** The runtime as the object it is: one instance whose rows are updated step by step, recursion and
    loops included. */
module BusinessInstance {
  // Each method is proved against the transition function of `Engine`, which the whole-run results are
  // about. `fuel` is ghost: it only says that the call comes back.

  import opened Prelude
  import opened JsonTree
  import opened WorkflowGraph
  import opened Worklist
  import opened Engine

  lemma TargetsAppend(env: Env, ks: seq<nat>, k: nat)
    requires (forall j :: j in ks ==> HasTarget(env, j)) && HasTarget(env, k)
    ensures (forall j :: j in ks + [k] ==> HasTarget(env, j))
    ensures TargetsOf(env, ks + [k]) == TargetsOf(env, ks) + [TargetOf(env, k)]
  {}

  /** The targets picked from the edges below `k`. */
  function PickedBelow(env: Env, ctx: Context, source: string, k: nat): seq<Node>
    requires k <= |env.version.edges|
  {
    TargetsOf(env, EnabledBelow(env, ctx, source, k))
  }

  lemma PickNext(env: Env, ctx: Context, source: string, k: nat)
    requires k < |env.version.edges|
    ensures PickedBelow(env, ctx, source, k + 1)
            == PickedBelow(env, ctx, source, k)
               + if Enabled(env, ctx, source, k) then [TargetOf(env, k)] else []
  {
    if Enabled(env, ctx, source, k) {
      TargetsAppend(env, EnabledBelow(env, ctx, source, k), k);
    }
  }

  /** `pickActivatableTargets`: the loop over edges yields the targets of exactly the enabled
      edges, in edge order. */
  method PickActivatableTargets(env: Env, ctx: Context, source: string) returns (matched: seq<Node>)
    ensures matched == PickTargets(env, ctx, source)
    ensures |matched| == |EnabledEdges(env, ctx, source)|
  {
    matched := [];
    var k := 0;
    while k < |env.version.edges|
      invariant 0 <= k <= |env.version.edges|
      invariant matched == PickedBelow(env, ctx, source, k)
    {
      PickNext(env, ctx, source, k);
      var edge := env.version.edges[k];
      if edge.source == source && EdgeOpen(env, edge, ctx) {
        var target := Lookup(env, edge.target);
        if target.Some? {
          matched := matched + [target.value];
        }
      }
      k := k + 1;
    }
  }

  lemma NextAttachment(id: string, atts: seq<Attachment>, k: nat, trigger: Trigger)
    requires k < |atts|
    ensures AttachmentEvents(id, atts[..k + 1], trigger)
            == AttachmentEvents(id, atts[..k], trigger) + AttachmentEvent(id, atts[k], trigger)
    ensures AttachmentTimers(id, atts[..k + 1], trigger)
            == AttachmentTimers(id, atts[..k], trigger) + AttachmentTimer(id, atts[k], trigger)
  {
    assert atts[..k + 1] == atts[..k] + [atts[k]];
    EventsConcat(id, atts[..k], [atts[k]], trigger);
    TimersConcat(id, atts[..k], [atts[k]], trigger);
    assert [atts[k]][1..] == [];
  }

  function FireOneAttachment(s: State, id: string, att: Attachment, trigger: Trigger): State {
    s.(log := s.log + AttachmentEvent(id, att, trigger), timers := s.timers + AttachmentTimer(id, att, trigger))
  }

  /** The state after the first `k` attachments. */
  function FiredBefore(s: State, n: Node, k: nat, trigger: Trigger): State
    requires k <= |n.attachments|
  {
    FireAttachments(s, n.(attachments := n.attachments[..k]), trigger)
  }

  lemma FireNext(s: State, n: Node, k: nat, trigger: Trigger)
    requires k < |n.attachments|
    ensures FiredBefore(s, n, k + 1, trigger)
            == FireOneAttachment(FiredBefore(s, n, k, trigger), n.id, n.attachments[k], trigger)
  {
    NextAttachment(n.id, n.attachments, k, trigger);
  }

  /** A walk that stops early has sent a prefix of the alerts. */
  lemma AlertsSent(id: string, atts: seq<Attachment>, k: nat, trigger: Trigger, sent: nat)
    requires k <= |atts| && |AttachmentEvents(id, atts[..k], trigger)| <= sent
    requires k == |atts| || |AttachmentEvents(id, atts[..k], trigger)| == sent
    ensures var all := AttachmentEvents(id, atts, trigger);
            AttachmentEvents(id, atts[..k], trigger) == if sent < |all| then all[..sent] else all
  {
    EventsConcat(id, atts[..k], atts[k..], trigger);
    assert atts[..k] + atts[k..] == atts;
    assert k == |atts| ==> atts[..k] == atts;
  }

  /** `existing.find(d => d.id === id)`: None when it throws on a null entry. */
  method FindDocument(docs: seq<Json>, id: string) returns (found: Option<bool>)
    ensures found.None? ==> Null in docs
    ensures found == Some(true) ==> exists d :: d in docs && HasId(d, id)
    ensures found == Some(false) ==> Null !in docs && forall d :: d in docs ==> !HasId(d, id)
  {
    var i := 0;
    while i < |docs|
      invariant 0 <= i <= |docs|
      invariant forall k :: 0 <= k < i ==> docs[k] != Null && !HasId(docs[k], id)
    {
      if docs[i].Null? {
        return None;
      }
      if HasId(docs[i], id) {
        return Some(true);
      }
      i := i + 1;
    }
    return Some(false);
  }

  /** `existing.filter(d => d.id !== id)`: None when it throws on a null entry. */
  method FilterDocuments(docs: seq<Json>, id: string) returns (kept: Option<seq<Json>>)
    ensures kept == if Null in docs then None else Some(DropId(docs, id))
  {
    var next: seq<Json> := [];
    var i := 0;
    while i < |docs|
      invariant 0 <= i <= |docs| && next == DropId(docs[..i], id)
      invariant forall k :: 0 <= k < i ==> docs[k] != Null
    {
      if docs[i].Null? {
        return None;
      }
      assert docs[..i + 1] == docs[..i] + [docs[i]];
      DropIdAppend(docs[..i], docs[i], id);
      if !HasId(docs[i], id) {
        next := next + [docs[i]];
      }
      i := i + 1;
    }
    assert docs[..i] == docs;
    return Some(next);
  }

  /** Activating `work` from `s` ends in `r`. */
  ghost predicate LeadsTo(env: Env, s: State, work: seq<Node>, fuel: nat, r: State) {
    Drain(env, s, work, fuel) == Some(r)
  }

  lemma SameStart(env: Env, s: State, t: State, work: seq<Node>, list: seq<Node>, fuel: nat, r: State)
    requires s == t && work == list && LeadsTo(env, t, list, fuel, r)
    ensures LeadsTo(env, s, work, fuel, r)
  {}

  /** Activating what is left of a list is activating its head, then the rest from where that ends. */
  lemma HeadFirst(env: Env, s: State, work: seq<Node>, i: nat, fuel: nat, r: State) returns (used: nat, t: State)
    requires i < |work| && LeadsTo(env, s, work[i..], fuel, r)
    ensures used <= fuel && LeadsTo(env, s, [work[i]], used, t)
    ensures LeadsTo(env, t, work[i + 1..], fuel - used, r)
  {
    assert work[i..] == [work[i]] + work[i + 1..];
    used := Append(EnterIn(env), NextIn(env), s, [work[i]], work[i + 1..], fuel);
    t := Drain(env, s, [work[i]], used).value;
  }

  /** Activating a node is entering it, then activating what it leads to. */
  lemma NodeFirst(env: Env, s: State, n: Node, fuel: nat, r: State)
    requires LeadsTo(env, s, [n], fuel, r)
    ensures fuel > 0
    ensures LeadsTo(env, Enter(env, s, n), Next(env, s, n), fuel - 1, r)
  {
    assert Next(env, s, n) + [n][1..] == Next(env, s, n);
  }

  class BusinessInstance {
    const env: Env
    var status: Status
    var context: Context
    var active: seq<string>
    var metadata: Context
    var tasks: seq<Task>
    var approvals: seq<Approval>
    var timers: seq<Timer>
    var log: seq<Event>

    ghost function Now(): State
      reads this
    {
      State(status, context, active, metadata, tasks, approvals, timers, log)
    }

    /** Inserts the instance row and its first event. */
    constructor (env: Env, ctx: Context)
      ensures this.env == env && Now() == Fresh(ctx)
    {
      this.env := env;
      status, context, active, metadata := Running, ctx, [], map[];
      tasks, approvals, timers, log := [], [], [], [InstanceStarted];
    }

    method EmitEvent(e: Event)
      modifies this`log
      ensures Now() == Emit(old(Now()), e)
    {
      log := log + [e];
    }

    /** One event for a notification due, one row and one event for a timer to schedule. */
    method FireAttachment(id: string, att: Attachment, trigger: Trigger)
      modifies this`log, this`timers
      ensures Now() == FireOneAttachment(old(Now()), id, att, trigger)
    {
      match att {
        case Notice(a, enabled, due) =>
          if enabled && due == trigger {
            log := log + [AttachedNotificationSent(id, a, trigger)];
          }
        case Alarm(a, enabled, minutes, action, to) =>
          if enabled && trigger == OnActivate && minutes != 0 {
            timers := timers + [Timer(id, a, action, to, false, false)];
            log := log + [AttachedTimerScheduled(id, a)];
          }
      }
    }

    /** Walks the attachments in order. */
    method FireAttachmentsForTrigger(n: Node, trigger: Trigger)
      modifies this`log, this`timers
      ensures Now() == FireAttachments(old(Now()), n, trigger)
    {
      var i := 0;
      while i < |n.attachments|
        invariant 0 <= i <= |n.attachments|
        invariant Now() == FiredBefore(old(Now()), n, i, trigger)
      {
        FireNext(old(Now()), n, i, trigger);
        FireAttachment(n.id, n.attachments[i], trigger);
        i := i + 1;
      }
      assert n.attachments[..|n.attachments|] == n.attachments;
    }

    method AddActive(id: string)
      modifies this`active
      ensures Now() == Mark(old(Now()), id)
    {
      if id !in active {
        active := active + [id];
      }
    }

    /** The rows, marks and events of one node, before control moves on. */
    method EnterNode(n: Node)
      modifies this
      ensures Now() == Enter(env, old(Now()), n)
    {
      var base := BaseOf(env, n);
      EmitEvent(NodeActivated(n.id, base));
      FireAttachmentsForTrigger(n, OnActivate);
      match base {
        case End =>
          status := Completed;
          active := Without(active, n.id);
          EmitEvent(InstanceCompleted(n.id));
        case HumanTask =>
          tasks := tasks + [Task(Graph(n.id), Open, None, "", false, false)];
          AddActive(n.id);
        case FormFill =>
          tasks := tasks + [Task(Graph(n.id), Open, None, "", false, false)];
          AddActive(n.id);
        case ApprovalGate =>
          approvals := approvals + [Approval(n.id, Pending, None, "")];
          AddActive(n.id);
        case AgentTask =>
          EmitEvent(AgentDelegated(n.id));
          AddActive(n.id);
        case ToolRequest => AddActive(n.id);
        case CallWorkflow => AddActive(n.id);
        case Unrecognized => AddActive(n.id);
        case TimerWait =>
          metadata := SetPath(metadata, "timers." + n.id, Obj(map["nodeId" := Str(n.id)]));
          AddActive(n.id);
        case Notification => EmitEvent(NotificationSent(n.id));
        case ParallelJoin =>
          var next := Arrivals(env, metadata, n.id) + 1;
          metadata := SetPath(metadata, JoinKey(n.id), Num(next));
        case Start =>
        case ParallelFork =>
        case DecisionGate =>
      }
    }

    /** Where control goes from a node, judged before the node is entered. */
    method NextNodes(n: Node) returns (targets: seq<Node>)
      ensures targets == Next(env, Now(), n)
    {
      targets := [];
      var base := BaseOf(env, n);
      match base {
        case Start => targets := PickActivatableTargets(env, context, n.id);
        case ParallelFork => targets := PickActivatableTargets(env, context, n.id);
        case Notification => targets := PickActivatableTargets(env, context, n.id);
        case ParallelJoin =>
          if Arrivals(env, metadata, n.id) + 1 >= Incoming(env, n.id) {
            targets := PickActivatableTargets(env, context, n.id);
          }
        case DecisionGate =>
          targets := PickActivatableTargets(env, context, n.id);
          if |targets| == 0 && n.defaultEdge.Some? {
            var edge := FindEdge(env.version.edges, n.defaultEdge.value);
            if edge.Some? {
              var target := Lookup(env, env.version.edges[edge.value].target);
              if target.Some? {
                targets := [target.value];
              }
            }
          }
        case _ =>
      }
    }

    /** The part of `activateNode` before it calls itself. */
    method EnterAndPick(n: Node, ghost fuel: nat, ghost goal: State) returns (targets: seq<Node>)
      requires LeadsTo(env, Now(), [n], fuel, goal)
      modifies this
      ensures fuel > 0 && LeadsTo(env, Now(), targets, fuel - 1, goal)
    {
      ghost var before := Now();
      NodeFirst(env, before, n, fuel, goal);
      targets := NextNodes(n);
      EnterNode(n);
      SameStart(env, Now(), Enter(env, before, n), targets, Next(env, before, n), fuel - 1, goal);
    }

    /** `activateNode`: enters the node, then recursively activates what it leads to. */
    method ActivateNode(n: Node, ghost fuel: nat)
      requires Drain(env, Now(), [n], fuel).Some?
      modifies this
      ensures Now() == Drain(env, old(Now()), [n], fuel).value
      decreases fuel, 0
    {
      ghost var goal := Drain(env, Now(), [n], fuel).value;
      var targets := EnterAndPick(n, fuel, goal);
      ActivateEach(targets, fuel - 1);
    }

    /** The `for (const target of targets) await activateNode(...)` loops. */
    method ActivateEach(targets: seq<Node>, ghost fuel: nat)
      requires Drain(env, Now(), targets, fuel).Some?
      modifies this
      ensures Now() == Drain(env, old(Now()), targets, fuel).value
      decreases fuel, 3
    {
      var i := 0;
      ghost var left := fuel;
      ghost var goal := Drain(env, Now(), targets, fuel).value;
      assert targets[0..] == targets;
      while i < |targets|
        invariant 0 <= i <= |targets| && 0 <= left <= fuel
        invariant LeadsTo(env, Now(), targets[i..], left, goal)
      {
        left := ActivateNext(targets, i, left, goal);
        i := i + 1;
      }
    }

    method ActivateNext(targets: seq<Node>, i: nat, ghost left: nat, ghost goal: State) returns (ghost less: nat)
      requires i < |targets| && LeadsTo(env, Now(), targets[i..], left, goal)
      modifies this
      ensures less <= left && LeadsTo(env, Now(), targets[i + 1..], less, goal)
      decreases left, 2
    {
      ghost var used, t := HeadFirst(env, Now(), targets, i, left, goal);
      less := left - used;
      ActivateTo(targets[i], used, t);
      SameStart(env, Now(), t, targets[i + 1..], targets[i + 1..], less, goal);
    }

    method ActivateTo(target: Node, ghost fuel: nat, ghost goal: State)
      requires LeadsTo(env, Now(), [target], fuel, goal)
      modifies this
      ensures Now() == goal
      decreases fuel, 1
    {
      ActivateNode(target, fuel);
    }

    /** `startBusinessInstance`, once the row is there. */
    method Start(start: Node, ghost fuel: nat)
      requires StartNode(env.version.nodes) == Some(start) && Now() == Fresh(context)
      requires Begin(env, context, fuel).Some?
      modifies this
      ensures Now() == Begin(env, old(context), fuel).value
    {
      ActivateNode(start, fuel);
    }

    /** The UPDATE of `cancelScheduledTimersForNode`. */
    method CancelScheduledTimersForNode(id: string)
      modifies this`timers
      ensures Now() == CancelTimers(old(Now()), id)
    {
      timers := CancelledAt(timers, id);
    }

    /** The part of `advanceFromCompletedNode` before the next nodes are picked. */
    method LeaveNode(n: Node, output: Context)
      modifies this
      ensures Now() == Depart(env, old(Now()), n, output)
    {
      EmitEvent(NodeCompleted(n.id));
      FireAttachmentsForTrigger(n, OnComplete);
      assert log == old(log) + DepartEvents(n);
      CancelScheduledTimersForNode(n.id);
      context := ApplyOutputBindings(context, n.id, n.bindings, output);
      active := Without(active, n.id);
    }

    /** `advanceFromCompletedNode` */
    method AdvanceFromCompletedNode(id: string, output: Context, ghost fuel: nat)
      requires Advance(env, Now(), id, output, fuel).Some?
      modifies this
      ensures Now() == Advance(env, old(Now()), id, output, fuel).value
    {
      if status != Running {
        return;
      }
      var node := Lookup(env, id);
      if node.None? {
        return;
      }
      assert node.value.id == id;
      LeaveNode(node.value, output);
      var targets := PickActivatableTargets(env, context, id);
      ActivateEach(targets, fuel);
    }

    // --- Tasks ---

    method Claim(i: nat, who: string) returns (reply: Reply)
      modifies this
      ensures Outcome(Now(), reply) == ClaimTask(old(Now()), i, who)
    {
      if i < |tasks| && status == Paused {
        return Refused;
      }
      if i >= |tasks| || tasks[i].status != Open {
        return Absent;
      }
      tasks := tasks[i := tasks[i].(status := Claimed, claimedBy := Some(who))];
      EmitEvent(TaskClaimed(tasks[i].where));
      return Ok;
    }

    method PauseInstance()
      modifies this
      ensures Now() == Pause(old(Now()))
    {
      if status == Running {
        status := Paused;
        EmitEvent(InstancePaused);
      }
    }

    method ResumeInstance()
      modifies this
      ensures Now() == Resume(old(Now()))
    {
      if status == Paused {
        status := Running;
        EmitEvent(InstanceResumed);
      }
    }

    /** `completeBusinessTask` */
    method Complete(i: nat, formData: Option<Context>, output: Option<Context>, ghost fuel: nat) returns (reply: Reply)
      requires CompleteTask(env, Now(), i, formData, output, fuel).Some?
      modifies this
      ensures Outcome(Now(), reply) == CompleteTask(env, old(Now()), i, formData, output, fuel).value
    {
      if i >= |tasks| {
        return Absent;
      }
      if !(tasks[i].where.Side? && tasks[i].blocking) && status == Paused {
        return Refused;
      }
      if tasks[i].status !in {Open, Claimed, InProgress} {
        return Absent;
      }
      tasks := tasks[i := tasks[i].(status := Finished)];
      var task := tasks[i];
      EmitEvent(TaskCompleted(task.where));
      assert Now() == Finish(old(Now()), i);
      if task.where.Side? {
        if task.blocking {
          ResumeInstance();
        }
        return Ok;
      }
      var result := if output.Some? then output.value else if formData.Some? then formData.value else map[];
      AdvanceFromCompletedNode(task.where.id, result, fuel);
      return Ok;
    }

    method Reassign(i: nat, assignee: string) returns (reply: Reply)
      modifies this
      ensures Outcome(Now(), reply) == ReassignTask(old(Now()), i, assignee)
    {
      if i >= |tasks| || tasks[i].status !in {Open, Claimed, InProgress} {
        return Absent;
      }
      var released := if tasks[i].status == Claimed then Open else tasks[i].status;
      tasks := tasks[i := tasks[i].(status := released, claimedBy := None, assignee := assignee)];
      EmitEvent(TaskReassigned(tasks[i].where));
      return Ok;
    }

    method CreateAdHocTask(token: string, blocking: bool, assignee: string) returns (reply: Reply)
      modifies this
      ensures Outcome(Now(), reply) == CreateAdHoc(old(Now()), token, blocking, assignee)
    {
      if status in {Completed, Cancelled, Failed} {
        return Refused;
      }
      var synthetic := Side("adhoc-" + token);
      tasks := tasks + [Task(synthetic, Open, None, assignee, blocking, false)];
      EmitEvent(AdHocTaskCreated(synthetic, blocking));
      if blocking {
        PauseInstance();
      }
      return Ok;
    }

    // --- Approvals ---

    /** `decideBusinessApproval` */
    method DecideApproval(i: nat, d: ApprovalStatus, conditions: Option<string>, notes: Option<string>, ghost fuel: nat)
      returns (reply: Reply)
      requires Decide(env, Now(), i, d, conditions, notes, fuel).Some?
      modifies this
      ensures Outcome(Now(), reply) == Decide(env, old(Now()), i, d, conditions, notes, fuel).value
    {
      if i >= |approvals| {
        return Absent;
      }
      if status == Paused {
        return Refused;
      }
      if approvals[i].status != Pending {
        return Absent;
      }
      approvals := approvals[i := approvals[i].(status := d)];
      var node := approvals[i].node;
      EmitEvent(ApprovalDecided(node, d));
      if d == Approved || d == ApprovedWithConditions || d == Rejected {
        AdvanceFromCompletedNode(node, DecisionOutput(d, conditions, notes), fuel);
      }
      return Ok;
    }

    method ReassignApprovalTo(i: nat, assignee: string) returns (reply: Reply)
      modifies this
      ensures Outcome(Now(), reply) == ReassignApproval(old(Now()), i, assignee)
    {
      if i >= |approvals| || approvals[i].status != Pending {
        return Absent;
      }
      approvals := approvals[i := approvals[i].(assignee := assignee)];
      EmitEvent(ApprovalReassigned(approvals[i].node));
      return Ok;
    }

    // --- Send-back ---

    /** Forgets the arrivals of every join between the target and the source. */
    method ResetJoinCounters(target: string, source: string)
      modifies this`metadata
      ensures Now() == old(Now()).(metadata := ResetJoins(env, old(metadata), target, source))
    {
      var joins := FindJoinsBetween(env.version, target, source);
      if |joins| > 0 {
        assert JoinBetween(env.version, target, source, joins[0]);
        var arrivals := Below(metadata, "joinArrivals");
        ghost var was := arrivals;
        var i := 0;
        while i < |joins|
          invariant 0 <= i <= |joins|
          invariant arrivals == map k | k in was && k !in joins[..i] :: was[k]
        {
          arrivals := arrivals - {joins[i]};
          i := i + 1;
        }
        assert joins[..|joins|] == joins;
        assert arrivals == map k | k in was && !JoinBetween(env.version, target, source, k) :: was[k];
        metadata := metadata["joinArrivals" := Obj(arrivals)];
      } else {
        assert !exists id :: JoinBetween(env.version, target, source, id);
      }
    }

    /** The steps both send-backs share once the row is closed. */
    method RewindTo(source: string, target: string, e: Event, ghost fuel: nat)
      requires ValidTarget(env, target)
      requires Drain(env, Rewind(env, Now(), source, target, e), [Lookup(env, target).value], fuel).Some?
      modifies this
      ensures Now() == Drain(env, Rewind(env, old(Now()), source, target, e), [Lookup(env, target).value], fuel).value
    {
      ResetJoinCounters(target, source);
      active := Without(active, source);
      EmitEvent(e);
      CancelScheduledTimersForNode(source);
      assert Now() == Rewind(env, old(Now()), source, target, e);
      ActivateNode(Lookup(env, target).value, fuel);
    }

    method SendTaskBack(i: nat, target: string, ghost fuel: nat) returns (reply: Reply)
      requires SendBackTask(env, Now(), i, target, fuel).Some?
      modifies this
      ensures Outcome(Now(), reply) == SendBackTask(env, old(Now()), i, target, fuel).value
    {
      if i >= |tasks| {
        return Absent;
      }
      var task := tasks[i];
      if task.status.Finished? || task.status.Withdrawn? || task.status.SentBack? {
        return Refused;
      }
      if status == Paused {
        return Refused;
      }
      var node := Lookup(env, target);
      if node.None? || node.value.kind == Builtin(BaseType.Start) || node.value.kind == Builtin(BaseType.End) {
        return Refused;
      }
      tasks := tasks[i := task.(status := SentBack(target))];
      assert Now() == CloseTask(old(Now()), i, SentBack(target));
      RewindTo(task.where.id, target, TaskSentBack(task.where, target), fuel);
      return Ok;
    }

    method SendApprovalBack(i: nat, target: string, ghost fuel: nat) returns (reply: Reply)
      requires SendBackApproval(env, Now(), i, target, fuel).Some?
      modifies this
      ensures Outcome(Now(), reply) == SendBackApproval(env, old(Now()), i, target, fuel).value
    {
      if i >= |approvals| {
        return Absent;
      }
      var approval := approvals[i];
      if approval.status != Pending || status == Paused {
        return Refused;
      }
      var node := Lookup(env, target);
      if node.None? || node.value.kind == Builtin(BaseType.Start) || node.value.kind == Builtin(BaseType.End) {
        return Refused;
      }
      approvals := approvals[i := approval.(status := NeedsMoreInformation, sentBackTo := Some(target))];
      RewindTo(approval.node, target, ApprovalSentBack(approval.node, target), fuel);
      return Ok;
    }

    // --- Cancel ---

    /** The four UPDATEs of the cancelling transaction, then the event. */
    method Cancel()
      modifies this
      ensures Now() == CancelInstance(old(Now()))
    {
      if status == Completed || status == Cancelled {
        return;
      }
      status := Cancelled;
      tasks := WithdrawAll(tasks);
      approvals := RejectAll(approvals);
      timers := DisarmAll(timers);
      EmitEvent(InstanceCancelled);
    }

    // --- Context edits ---

    /** Merges the patch key by key; writes and logs only if some value changed. */
    method UpdateInstanceContext(patch: Context, reordered: set<string>) returns (reply: Reply)
      modifies this
      ensures Outcome(Now(), reply) == UpdateContext(old(Now()), patch, reordered)
    {
      if Ended(status) {
        return Refused;
      }
      var merged := context;
      var changed: set<string> := {};
      var todo := patch.Keys;
      while todo != {}
        invariant todo <= patch.Keys
        invariant forall k :: k in changed <==> k !in todo && Changes(context, patch, reordered, k)
        invariant merged == context + map k | k in patch && k !in todo :: patch[k]
      {
        var k :| k in todo;
        if Changes(context, patch, reordered, k) {
          changed := changed + {k};
        }
        merged := merged[k := patch[k]];
        todo := todo - {k};
      }
      if changed == {} {
        return Ok;
      }
      assert merged == context + patch;
      context := merged;
      EmitEvent(ContextUpdated);
      return Ok;
    }

    /** Removes the given keys one by one, passing over reserved ones; there is no status check. */
    method RemoveInstanceContextKeys(keys: seq<string>) returns (reply: Reply)
      modifies this
      ensures Outcome(Now(), reply) == RemoveKeys(old(Now()), set k | k in keys)
    {
      var merged := context;
      var removed: set<string> := {};
      var i := 0;
      while i < |keys|
        invariant 0 <= i <= |keys|
        invariant forall k :: k in removed <==> k in keys[..i] && Removable(k) && k in context
        invariant merged == context - removed
      {
        assert keys[..i + 1] == keys[..i] + [keys[i]];
        if Removable(keys[i]) && keys[i] in merged {
          removed := removed + {keys[i]};
          merged := merged - {keys[i]};
        }
        i := i + 1;
      }
      assert keys[..i] == keys;
      assert removed == set k | k in (set x | x in keys) && Removable(k) && k in context;
      if removed == {} {
        return Ok;
      }
      context := merged;
      EmitEvent(ContextUpdated);
      return Ok;
    }

    method AttachInstanceDocument(doc: Json, wellFormed: bool) returns (reply: Reply)
      modifies this
      ensures Outcome(Now(), reply) == AttachDocument(old(Now()), doc, wellFormed)
    {
      if Ended(status) || !wellFormed {
        return Refused;
      }
      context := context["__documents" := Arr(Documents(context) + [doc])];
      EmitEvent(DocumentAttached);
      return Ok;
    }

    /** Looks for the document, then filters the list; either may throw. */
    method RemoveInstanceDocument(id: string) returns (reply: Reply)
      modifies this
      ensures Outcome(Now(), reply) == RemoveDocument(old(Now()), id)
    {
      var existing := Documents(context);
      var found := FindDocument(existing, id);
      if found.None? {
        return Refused;
      }
      if !found.value {
        return Ok;
      }
      var nextDocs := FilterDocuments(existing, id);
      if nextDocs.None? {
        return Refused;
      }
      context := context["__documents" := Arr(nextDocs.value)];
      EmitEvent(DocumentRemoved);
      return Ok;
    }

    /** Notes are events; there is no status check. */
    method AddInstanceNote()
      modifies this`log
      ensures Now() == Emit(old(Now()), NoteAdded)
    {
      EmitEvent(NoteAdded);
    }

    // --- Sweeper ---

    /** The sweeper's work on one locked timer row, up to the point where it may hang. */
    method SweepOneTimer(k: nat, delivered: bool) returns (reply: Reply)
      modifies this
      ensures Outcome(Now(), reply) == SweepTimer(env, old(Now()), k, delivered)
    {
      if k >= |timers| || timers[k].fired || timers[k].cancelled {
        return Absent;
      }
      var row := timers[k];
      var open := LatestOpen(tasks, row.node);
      EmitEvent(AttachedTimerFired(row.node, k));
      reply := Ok;
      match row.action {
        case Notify => reply := if delivered then Ok else Refused;
        case OtherAction =>
        case Escalate =>
          if open.Some? && row.escalateTo.Some? {
            var _ := Reassign(open.value, row.escalateTo.value);
          }
        case AutoComplete =>
          if open.Some? {
            reply := AutoCompleteTask(open.value);
          }
      }
      if reply == Ok {
        timers := timers[k := timers[k].(fired := true)];
      }
    }

    /** `completeBusinessTask` as the sweeper calls it while it holds the timer row. */
    method AutoCompleteTask(i: nat) returns (reply: Reply)
      requires i < |tasks|
      modifies this
      ensures Outcome(Now(), reply) == CompleteByTimer(env, old(Now()), i)
      ensures |timers| >= old(|timers|)
    {
      var task := tasks[i];
      if !(task.where.Side? && task.blocking) && status == Paused {
        return Refused;
      }
      tasks := tasks[i := task.(status := Finished)];
      EmitEvent(TaskCompleted(task.where));
      assert Now() == Finish(old(Now()), i);
      if task.where.Side? {
        if task.blocking {
          ResumeInstance();
        }
        return Ok;
      }
      var node := Lookup(env, task.where.id);
      if status != Running || node.None? {
        return Ok;
      }
      EmitEvent(NodeCompleted(task.where.id));
      FireAttachmentsForTrigger(node.value, OnComplete);
      return Blocked;
    }

    /** The loop of `fireOverdueAttachments`; the alerts after the first `sent` do not go out. */
    method SendOverdueAlerts(n: Node, sent: nat)
      modifies this`log
      ensures var all := AttachmentEvents(n.id, n.attachments, OnOverdue);
              log == old(log) + if sent < |all| then all[..sent] else all
    {
      var atts := n.attachments;
      var done, k := 0, 0;
      while k < |atts| && done < sent
        invariant 0 <= k <= |atts| && done <= sent
        invariant done == |AttachmentEvents(n.id, atts[..k], OnOverdue)|
        invariant log == old(log) + AttachmentEvents(n.id, atts[..k], OnOverdue)
      {
        NextAttachment(n.id, atts, k, OnOverdue);
        match atts[k] {
          case Notice(id, enabled, due) =>
            if enabled && due == OnOverdue {
              log := log + [AttachedNotificationSent(n.id, id, OnOverdue)];
              done := done + 1;
            }
          case Alarm(_, _, _, _, _) =>
        }
        k := k + 1;
      }
      AlertsSent(n.id, atts, k, OnOverdue, sent);
    }

    /** One claimed row of the overdue sweep: it stays stamped even if an alert fails. */
    method SweepOneOverdueTask(i: nat, sent: nat) returns (reply: Reply)
      modifies this
      ensures Outcome(Now(), reply) == SweepOverdue(env, old(Now()), i, sent)
    {
      if i >= |tasks| || tasks[i].status !in {Open, Claimed, InProgress} || tasks[i].overdueNotified {
        return Absent;
      }
      tasks := tasks[i := tasks[i].(overdueNotified := true)];
      var node := Lookup(env, tasks[i].where.id);
      if node.Some? {
        SendOverdueAlerts(node.value, sent);
      }
      return Ok;
    }
  }
}
