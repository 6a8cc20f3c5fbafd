/** A send-back, field by field: what it closes, disarms, forgets and re-activates. */
module EngineSendBacks {
  // server/businessWorkflows.ts:1903-2141.

  import opened Prelude
  import opened JsonTree
  import opened WorkflowGraph
  import opened Worklist
  import opened Engine
  import opened EngineDelivery
  import opened EngineFrame
  import opened EngineInduction

  /** Join counters after the reset: those of joins between target and source are gone, nothing else is. */
  ghost predicate CountersReset(v: Version, before: Context, target: string, source: string, after: Context) {
    && (forall j :: GetAt(after, ["joinArrivals", j])
                    == if JoinBetween(v, target, source, j) then None else GetAt(before, ["joinArrivals", j]))
    && (forall k :: k != "joinArrivals" ==> (k in after <==> k in before) && (k in before ==> after[k] == before[k]))
  }

  lemma ResetLeaves(env: Env, meta: Context, target: string, source: string)
    ensures CountersReset(env.version, meta, target, source, ResetJoins(env, meta, target, source))
  {
    var after := ResetJoins(env, meta, target, source);
    forall j
      ensures GetAt(after, ["joinArrivals", j])
              == if JoinBetween(env.version, target, source, j) then None else GetAt(meta, ["joinArrivals", j])
    {
      assert ["joinArrivals", j][1..] == [j];
      assert GetAt(Below(meta, "joinArrivals"), [j])
             == if j in Below(meta, "joinArrivals") then Some(Below(meta, "joinArrivals")[j]) else None;
    }
  }

  /** The instance between closing the source and activating the target: the source is not active any more,
      its armed timers are cancelled and no others, and the joins crossed have forgotten their arrivals. */
  ghost predicate Rewound(env: Env, s: State, source: string, target: string, e: Event, u: State) {
    && u.status == s.status && u.context == s.context
    && (forall x :: x in u.active <==> x in s.active && x != source)
    && |u.timers| == |s.timers| && TimersOff(s.timers, source, u.timers)
    && CountersReset(env.version, s.metadata, target, source, u.metadata)
    && u.log == s.log + [e]
  }

  lemma RewindLeaves(env: Env, s: State, source: string, target: string, e: Event)
    ensures Rewound(env, s, source, target, e, Rewind(env, s, source, target, e))
    ensures var u := Rewind(env, s, source, target, e); u.tasks == s.tasks && u.approvals == s.approvals
  {
    WithoutHas(s.active, source);
    ResetLeaves(env, s.metadata, target, source);
  }

  /** The target of a send-back: any node of the version but START and END. */
  ghost predicate MayGoBackTo(env: Env, target: string) {
    && Lookup(env, target).Some?
    && Lookup(env, target).value.kind != Builtin(BaseType.Start)
    && Lookup(env, target).value.kind != Builtin(BaseType.End)
  }

  /** After the rewinding, what activation adds: earlier rows stay, and the target is entered first. */
  lemma TargetEntered(env: Env, u: State, target: string, fuel: nat)
    requires ValidTarget(env, target) && Drain(env, u, [Lookup(env, target).value], fuel).Some?
    ensures var t := Drain(env, u, [Lookup(env, target).value], fuel).value;
            && Extends(u, t)
            && u.log + [NodeActivated(target, BaseOf(env, Lookup(env, target).value))] <= t.log
  {
    var n := Lookup(env, target).value;
    assert AllGood(FoundIn(env), [n]);
    DrainExtends(env, u, [n], fuel);
    EnteredFirst(env, u, n, fuel);
  }

  /** Sending a task back succeeds exactly if it is open, the instance is not paused and the target may be
      gone back to. Its row is then SENT_BACK to the target, the source is rewound (`u`), the timers that
      were armed at the source are off and every other earlier row is as it was, and control starts anew at
      the target. */
  lemma TaskGoesBackTo(env: Env, s: State, i: nat, target: string, fuel: nat) returns (u: State)
    requires Step(env, s, DoSendBackTask(i, target), fuel).Some?
    ensures var r := Step(env, s, DoSendBackTask(i, target), fuel).value;
            && (r.reply == Ok <==> i < |s.tasks| && s.tasks[i].status in {Open, Claimed, InProgress}
                                   && s.status != Paused && MayGoBackTo(env, target))
            && (r.reply != Ok ==> r.state == s && (r.reply == Absent <==> i >= |s.tasks|))
            && (r.reply == Ok ==>
                  var w := s.tasks[i].where;
                  && s.tasks[i := s.tasks[i].(status := SentBack(target))] <= r.state.tasks
                  && s.approvals <= r.state.approvals && r.state.context == s.context
                  && TimersOff(s.timers, w.id, r.state.timers)
                  && Rewound(env, s, w.id, target, TaskSentBack(w, target), u)
                  && u.log + [NodeActivated(target, BaseOf(env, Lookup(env, target).value))] <= r.state.log
                  && Drain(env, u, [Lookup(env, target).value], fuel) == Some(r.state))
  {
    u := s;
    if Step(env, s, DoSendBackTask(i, target), fuel).value.reply == Ok {
      var w := s.tasks[i].where;
      var closed := CloseTask(s, i, SentBack(target));
      u := Rewind(env, closed, w.id, target, TaskSentBack(w, target));
      RewindLeaves(env, closed, w.id, target, TaskSentBack(w, target));
      TargetEntered(env, u, target, fuel);
    }
  }

  /** The same for a pending approval, whose row becomes NEEDS_MORE_INFORMATION. */
  lemma ApprovalGoesBackTo(env: Env, s: State, i: nat, target: string, fuel: nat) returns (u: State)
    requires Step(env, s, DoSendBackApproval(i, target), fuel).Some?
    ensures var r := Step(env, s, DoSendBackApproval(i, target), fuel).value;
            && (r.reply == Ok <==> i < |s.approvals| && s.approvals[i].status == Pending
                                   && s.status != Paused && MayGoBackTo(env, target))
            && (r.reply != Ok ==> r.state == s && (r.reply == Absent <==> i >= |s.approvals|))
            && (r.reply == Ok ==>
                  var a := s.approvals[i];
                  var back := a.(status := NeedsMoreInformation, sentBackTo := Some(target));
                  && s.approvals[i := back] <= r.state.approvals
                  && s.tasks <= r.state.tasks && r.state.context == s.context
                  && TimersOff(s.timers, a.node, r.state.timers)
                  && Rewound(env, s, a.node, target, ApprovalSentBack(a.node, target), u)
                  && u.log + [NodeActivated(target, BaseOf(env, Lookup(env, target).value))] <= r.state.log
                  && Drain(env, u, [Lookup(env, target).value], fuel) == Some(r.state))
  {
    u := s;
    if Step(env, s, DoSendBackApproval(i, target), fuel).value.reply == Ok {
      var a := s.approvals[i];
      var e := ApprovalSentBack(a.node, target);
      var closed := s.(approvals := s.approvals[i := a.(status := NeedsMoreInformation, sentBackTo := Some(target))]);
      u := Rewind(env, closed, a.node, target, e);
      RewindLeaves(env, closed, a.node, target, e);
      TargetEntered(env, u, target, fuel);
    }
  }

  /** In particular no timer row of the source that was there before is still armed, and every earlier row
      of any other node is unchanged. */
  lemma SendBackDisarms(env: Env, s: State, op: Op, fuel: nat, k: nat)
    requires Step(env, s, op, fuel).Some? && Step(env, s, op, fuel).value.reply == Ok && k < |s.timers|
    requires op.DoSendBackTask? || op.DoSendBackApproval?
    ensures var t := Step(env, s, op, fuel).value.state;
            && k < |t.timers|
            && (op.DoSendBackTask? ==>
                  && op.task < |s.tasks|
                  && if s.timers[k].node == s.tasks[op.task].where.id then t.timers[k].fired || t.timers[k].cancelled
                     else t.timers[k] == s.timers[k])
            && (op.DoSendBackApproval? ==>
                  && op.approval < |s.approvals|
                  && if s.timers[k].node == s.approvals[op.approval].node
                     then t.timers[k].fired || t.timers[k].cancelled else t.timers[k] == s.timers[k])
  {
    if op.DoSendBackTask? {
      var u := TaskGoesBackTo(env, s, op.task, op.target, fuel);
    } else {
      var u := ApprovalGoesBackTo(env, s, op.approval, op.target, fuel);
    }
  }
}
