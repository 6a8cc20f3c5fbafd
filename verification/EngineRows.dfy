/** Claims, reassignments, side tasks and sweeps, as laws between calls. */
module EngineRows {
  // server/businessWorkflows.ts:1221-1351, 1770-1901, 2145-2247; server/businessWorkflowSweeper.ts:102-376.

  import opened Prelude
  import opened JsonTree
  import opened WorkflowGraph
  import opened Worklist
  import opened Engine

  // --- Claims ---

  /** Only the named row and the log have changed. */
  ghost predicate OneRow(s: State, t: State, i: nat, e: Event) {
    && i < |s.tasks| == |t.tasks| && t == s.(tasks := t.tasks, log := s.log + [e])
    && forall j :: 0 <= j < |s.tasks| && j != i ==> t.tasks[j] == s.tasks[j]
  }

  /** A claim succeeds exactly on an OPEN task of an instance that is not paused. The task is then the
      claimant's, and every further claim of it, by anyone, comes back empty-handed. */
  lemma ClaimIsExclusive(env: Env, s: State, i: nat, who: string, other: string, fuel: nat)
    ensures var r := Step(env, s, DoClaim(i, who), fuel).value;
            && (r.reply == Ok <==> i < |s.tasks| && s.status != Paused && s.tasks[i].status == Open)
            && (r.reply == Refused <==> i < |s.tasks| && s.status == Paused)
            && (r.reply != Ok ==> r.state == s)
            && (r.reply == Ok ==>
                  && OneRow(s, r.state, i, TaskClaimed(s.tasks[i].where))
                  && r.state.tasks[i].status == Claimed && r.state.tasks[i].claimedBy == Some(who)
                  && r.state.tasks[i] == s.tasks[i].(status := Claimed, claimedBy := Some(who))
                  && Step(env, r.state, DoClaim(i, other), fuel) == Some(Outcome(r.state, Absent)))
  {}

  /** Reassigning succeeds exactly on an open task. The task then has the new assignee and no claimant; one
      that was claimed is OPEN again, so that, unless the instance is paused, whoever claims it next gets it. */
  lemma ReassignFrees(env: Env, s: State, i: nat, assignee: string, who: string, fuel: nat)
    ensures var r := Step(env, s, DoReassignTask(i, assignee), fuel).value;
            && (r.reply == Ok <==> i < |s.tasks| && s.tasks[i].status in {Open, Claimed, InProgress})
            && (r.reply != Ok ==> r == Outcome(s, Absent))
            && (r.reply == Ok ==>
                  && OneRow(s, r.state, i, TaskReassigned(s.tasks[i].where))
                  && r.state.tasks[i].assignee == assignee && r.state.tasks[i].claimedBy == None
                  && (r.state.tasks[i].status == InProgress <==> s.tasks[i].status == InProgress)
                  && (r.state.tasks[i].status == Open <==> s.tasks[i].status != InProgress)
                  && r.state.tasks[i].blocking == s.tasks[i].blocking
                  && r.state.tasks[i].overdueNotified == s.tasks[i].overdueNotified
                  && (s.status != Paused && s.tasks[i].status != InProgress ==>
                        var c := Step(env, r.state, DoClaim(i, who), fuel).value;
                        c.reply == Ok && c.state.tasks[i].claimedBy == Some(who)
                        && c.state.tasks[i].assignee == assignee))
  {}

  lemma ReassignApprovalMoves(env: Env, s: State, i: nat, assignee: string, fuel: nat)
    ensures var r := Step(env, s, DoReassignApproval(i, assignee), fuel).value;
            && (r.reply == Ok <==> i < |s.approvals| && s.approvals[i].status == Pending)
            && (r.reply != Ok ==> r == Outcome(s, Absent))
            && (r.reply == Ok ==>
                  && r.state == s.(approvals := r.state.approvals,
                                   log := s.log + [ApprovalReassigned(s.approvals[i].node)])
                  && |r.state.approvals| == |s.approvals| && r.state.approvals[i].assignee == assignee
                  && r.state.approvals[i] == s.approvals[i].(assignee := assignee)
                  && forall j :: 0 <= j < |s.approvals| && j != i ==> r.state.approvals[j] == s.approvals[j])
  {}

  // --- Side tasks ---

  /** The instance while a blocking side task is open, and after it. */
  function Bracketed(s: State, w: Where, assignee: string): State {
    s.(status := Paused, tasks := s.tasks + [Task(w, Open, None, assignee, true, false)],
       log := s.log + [AdHocTaskCreated(w, true), InstancePaused])
  }

  function Unbracketed(s: State, w: Where, assignee: string): State {
    s.(tasks := s.tasks + [Task(w, Finished, None, assignee, true, false)],
       log := s.log + [AdHocTaskCreated(w, true), InstancePaused, TaskCompleted(w), InstanceResumed])
  }

  /** A blocking side task brackets a pause: made on a RUNNING instance it pauses it, and completing it sets
      the instance RUNNING again with nothing else of it moved. */
  lemma BlockingBrackets(env: Env, s: State, token: string, assignee: string, formData: Option<Context>,
                         output: Option<Context>, fuel: nat)
    requires s.status == Running
    ensures var w := Side("adhoc-" + token);
            && Step(env, s, DoAdHoc(token, true, assignee), fuel) == Some(Outcome(Bracketed(s, w, assignee), Ok))
            && Step(env, Bracketed(s, w, assignee), DoComplete(|s.tasks|, formData, output), fuel)
               == Some(Outcome(Unbracketed(s, w, assignee), Ok))
  {
    var w := Side("adhoc-" + token);
    var mid := Bracketed(s, w, assignee);
    var row := Task(w, Open, None, assignee, true, false);
    assert s.log + [AdHocTaskCreated(w, true)] + [InstancePaused] == mid.log;
    assert Step(env, s, DoAdHoc(token, true, assignee), fuel) == Some(CreateAdHoc(s, token, true, assignee));
    assert mid.tasks[|s.tasks|] == row;
    assert mid.tasks[|s.tasks| := row.(status := Finished)] == s.tasks + [row.(status := Finished)];
    var log := mid.log + [TaskCompleted(w)] + [InstanceResumed];
    assert log == s.log + [AdHocTaskCreated(w, true), InstancePaused, TaskCompleted(w), InstanceResumed];
    assert Resume(Finish(mid, |s.tasks|)) == Unbracketed(s, w, assignee);
    assert Step(env, mid, DoComplete(|s.tasks|, formData, output), fuel)
           == CompleteTask(env, mid, |s.tasks|, formData, output, fuel);
  }

  /** Any other side task is added, and completed, without touching the status or anything planned; an ended
      instance takes none. */
  lemma SideTaskStaysAside(env: Env, s: State, token: string, blocking: bool, assignee: string, fuel: nat)
    requires !blocking || s.status != Running
    ensures var r := Step(env, s, DoAdHoc(token, blocking, assignee), fuel).value;
            if s.status in {Completed, Cancelled, Failed} then r == Outcome(s, Refused)
            else
              var w := Side("adhoc-" + token);
              r == Outcome(s.(tasks := s.tasks + [Task(w, Open, None, assignee, blocking, false)],
                              log := s.log + [AdHocTaskCreated(w, blocking)]), Ok)
  {}

  // --- Sweeps ---

  /** Task `i` is the most recent open one with the node id. */
  ghost predicate IsLatestOpen(ts: seq<Task>, id: string, i: nat) {
    && i < |ts| && ts[i].where.id == id && ts[i].status in {Open, Claimed, InProgress}
    && forall j :: i < j < |ts| ==> ts[j].where.id != id || ts[j].status !in {Open, Claimed, InProgress}
  }

  /** The sweeper's lookup finds the most recent open task of the node, and none only if there is none. */
  lemma {:induction false} LatestOpenIs(ts: seq<Task>, id: string)
    ensures LatestOpen(ts, id).Some? ==> IsLatestOpen(ts, id, LatestOpen(ts, id).value)
    ensures LatestOpen(ts, id).None? ==>
              forall j :: 0 <= j < |ts| ==> ts[j].where.id != id || ts[j].status !in {Open, Claimed, InProgress}
  {
    if ts != [] {
      var n := |ts| - 1;
      LatestOpenIs(ts[..n], id);
      assert forall j :: 0 <= j < n ==> ts[..n][j] == ts[j];
    }
  }

  lemma LatestIsOne(ts: seq<Task>, id: string, i: nat)
    requires IsLatestOpen(ts, id, i)
    ensures LatestOpen(ts, id) == Some(i)
  {
    LatestOpenIs(ts, id);
  }

  lemma TimerActionAppends(env: Env, s: State, i: nat)
    requires i < |s.tasks|
    ensures s.timers <= CompleteByTimer(env, s, i).state.timers && s.log <= CompleteByTimer(env, s, i).state.log
  {}

  lemma FireAppends(env: Env, s: State, k: nat, delivered: bool)
    requires k < |s.timers|
    ensures s.timers <= FireOne(env, s, k, delivered).state.timers
    ensures s.log + [AttachedTimerFired(s.timers[k].node, k)] <= FireOne(env, s, k, delivered).state.log
  {
    var open := LatestOpen(s.tasks, s.timers[k].node);
    if open.Some? {
      TimerActionAppends(env, Emit(s, AttachedTimerFired(s.timers[k].node, k)), open.value);
    }
  }

  /** Any sweep of an armed row: the log tells first that it fired; the row is stamped exactly if the action
      came back, and otherwise as it was, to be taken again by the next sweep. */
  lemma SweepStamps(env: Env, s: State, k: nat, delivered: bool, fuel: nat)
    ensures var r := Step(env, s, DoSweepTimer(k, delivered), fuel).value;
            if k >= |s.timers| || s.timers[k].fired || s.timers[k].cancelled then r == Outcome(s, Absent)
            else
              && s.log + [AttachedTimerFired(s.timers[k].node, k)] <= r.state.log && |s.timers| <= |r.state.timers|
              && r.state.timers[k] == (if r.reply == Ok then s.timers[k].(fired := true) else s.timers[k])
              && forall j :: 0 <= j < |s.timers| && j != k ==> r.state.timers[j] == s.timers[j]
  {
    assert Step(env, s, DoSweepTimer(k, delivered), fuel) == Some(SweepTimer(env, s, k, delivered));
    if k < |s.timers| {
      FireAppends(env, s, k, delivered);
    }
  }

  /** NOTIFY, or an action the sweeper does not know, touches no task; only NOTIFY can fail to come back. */
  lemma SweepNotifies(env: Env, s: State, k: nat, delivered: bool, fuel: nat)
    requires k < |s.timers| && !s.timers[k].fired && !s.timers[k].cancelled
    requires s.timers[k].action in {Notify, OtherAction}
    ensures var r := Step(env, s, DoSweepTimer(k, delivered), fuel).value;
            && r.state == s.(timers := r.state.timers, log := s.log + [AttachedTimerFired(s.timers[k].node, k)])
            && (r.reply == Ok <==> delivered || s.timers[k].action == OtherAction)
            && (r.reply != Ok ==> r.reply == Refused)
  {}

  /** ESCALATE hands the most recent open task of the node to the configured assignee, released from any
      claim; without such a task, or without an assignee, it only stamps the row. */
  lemma SweepEscalates(env: Env, s: State, k: nat, delivered: bool, fuel: nat, i: nat)
    requires k < |s.timers| && !s.timers[k].fired && !s.timers[k].cancelled && s.timers[k].action == Escalate
    ensures var r := Step(env, s, DoSweepTimer(k, delivered), fuel).value;
            && r.reply == Ok && r.state.status == s.status
            && (IsLatestOpen(s.tasks, s.timers[k].node, i) && s.timers[k].escalateTo.Some? ==>
                  && |r.state.tasks| == |s.tasks|
                  && r.state.tasks[i].assignee == s.timers[k].escalateTo.value && r.state.tasks[i].claimedBy == None
                  && r.state.tasks[i].status == (if s.tasks[i].status == InProgress then InProgress else Open)
                  && forall j :: 0 <= j < |s.tasks| && j != i ==> r.state.tasks[j] == s.tasks[j])
            && (s.timers[k].escalateTo.None? || (forall j :: !IsLatestOpen(s.tasks, s.timers[k].node, j)) ==>
                  r.state.tasks == s.tasks)
  {
    LatestOpenIs(s.tasks, s.timers[k].node);
    if IsLatestOpen(s.tasks, s.timers[k].node, i) {
      LatestIsOne(s.tasks, s.timers[k].node, i);
    }
  }

  /** AUTO_COMPLETE closes the most recent open task of the node, and no other: a side task as completing it
      would, planned work of an instance that does not run without moving on. On a paused instance only a
      blocking side task can be completed. */
  lemma SweepCompletes(env: Env, s: State, k: nat, delivered: bool, fuel: nat, i: nat)
    requires k < |s.timers| && !s.timers[k].fired && !s.timers[k].cancelled && s.timers[k].action == AutoComplete
    requires IsLatestOpen(s.tasks, s.timers[k].node, i)
    ensures var r := Step(env, s, DoSweepTimer(k, delivered), fuel).value;
            var blockingSide := s.tasks[i].where.Side? && s.tasks[i].blocking;
            && (r.reply == Refused <==> s.status == Paused && !blockingSide)
            && r.state.tasks == (if r.reply == Refused then s.tasks
                                 else s.tasks[i := s.tasks[i].(status := Finished)])
            && r.state.status == (if s.status == Paused && blockingSide then Running else s.status)
            && (r.reply == Blocked <==>
                  s.tasks[i].where.Graph? && s.status == Running && Lookup(env, s.tasks[i].where.id).Some?)
  {
    LatestIsOne(s.tasks, s.timers[k].node, i);
  }

  /** Without an open task at the node AUTO_COMPLETE only stamps its row. */
  lemma NothingToComplete(env: Env, s: State, k: nat, delivered: bool, fuel: nat)
    requires k < |s.timers| && !s.timers[k].fired && !s.timers[k].cancelled && s.timers[k].action == AutoComplete
    requires forall i :: !IsLatestOpen(s.tasks, s.timers[k].node, i)
    ensures var r := Step(env, s, DoSweepTimer(k, delivered), fuel).value;
            r.reply == Ok && r.state.tasks == s.tasks && r.state.status == s.status
  {
    LatestOpenIs(s.tasks, s.timers[k].node);
  }

  /** The overdue sweep takes a task exactly if it is open and has not been taken before. It stamps it for
      good, and alerts as the node's attachments say, in their order, up to the first alert that fails. */
  lemma OverdueOnce(env: Env, s: State, i: nat, sent: nat, fuel: nat)
    ensures var r := Step(env, s, DoSweepOverdue(i, sent), fuel).value;
            && (r.reply == Ok <==> i < |s.tasks| && s.tasks[i].status in {Open, Claimed, InProgress}
                                   && !s.tasks[i].overdueNotified)
            && (r.reply != Ok ==> r.reply == Absent && r.state == s)
            && (r.reply == Ok ==>
                  && r.state == s.(tasks := s.tasks[i := s.tasks[i].(overdueNotified := true)], log := r.state.log)
                  && (Lookup(env, s.tasks[i].where.id).None? ==> r.state.log == s.log)
                  && (Lookup(env, s.tasks[i].where.id).Some? ==>
                        var n := Lookup(env, s.tasks[i].where.id).value;
                        var alerts := AttachmentEvents(n.id, n.attachments, OnOverdue);
                        s.log <= r.state.log && r.state.log[|s.log|..] <= alerts
                        && |r.state.log| == |s.log| + if sent < |alerts| then sent else |alerts|)
                  && Step(env, r.state, DoSweepOverdue(i, sent), fuel) == Some(Outcome(r.state, Absent)))
  {}
}
