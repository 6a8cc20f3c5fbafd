/** Activation by itself: where control goes, what becomes active, and what attachments schedule. */
module EngineActivation {
  // server/businessWorkflows.ts:671-766, 793-1005.

  import opened Prelude
  import opened JsonTree
  import opened WorkflowGraph
  import opened Worklist
  import opened Engine
  import opened EngineDelivery
  import opened EngineFrame
  import opened EngineInduction
  import opened EngineJoins
  import opened EngineLifecycle

  // --- Where control goes ---

  /** The default edge of a gate: the first edge anywhere that has the configured id, if its target exists. */
  ghost predicate IsDefault(env: Env, n: Node, k: nat) {
    && n.defaultEdge.Some? && k < |env.version.edges| && env.version.edges[k].id == n.defaultEdge.value
    && (forall j :: 0 <= j < k ==> env.version.edges[j].id != n.defaultEdge.value)
    && exists m :: m in env.version.nodes && m.id == env.version.edges[k].target
  }

  /** The edges control takes from `n`, read off the graph. START, forks and notifications take every open
      edge. A gate does too, and its default edge when none is open. A join takes every open edge once its
      arrivals with this one are as many as the edges that end at it, and none before. Every other node
      keeps control. */
  ghost predicate HandsOver(env: Env, s: State, n: Node, ks: seq<nat>) {
    match BaseOf(env, n)
    case Start => OpenEdges(env, s.context, n.id, ks)
    case ParallelFork => OpenEdges(env, s.context, n.id, ks)
    case Notification => OpenEdges(env, s.context, n.id, ks)
    case DecisionGate =>
      || (ks != [] && OpenEdges(env, s.context, n.id, ks))
      || (OpenEdges(env, s.context, n.id, [])
          && (if exists k :: IsDefault(env, n, k) then |ks| == 1 && IsDefault(env, n, ks[0]) else ks == []))
    case ParallelJoin =>
      if |set k: nat | k < |env.version.edges| && env.version.edges[k].target == n.id|
         <= Arrivals(env, s.metadata, n.id) + 1
      then OpenEdges(env, s.context, n.id, ks) else ks == []
    case _ => ks == []
  }

  lemma DefaultIs(env: Env, n: Node)
    ensures DefaultEdge(env, n).Some? ==> IsDefault(env, n, DefaultEdge(env, n).value)
    ensures DefaultEdge(env, n).None? ==> forall k :: !IsDefault(env, n, k)
  {
    if n.defaultEdge.Some? && FindEdge(env.version.edges, n.defaultEdge.value).Some? {
      var k := FindEdge(env.version.edges, n.defaultEdge.value).value;
      assert Lookup(env, env.version.edges[k].target).Some?
             <==> exists m :: m in env.version.nodes && m.id == env.version.edges[k].target;
      forall j: nat | IsDefault(env, n, j) ensures j == k {
        assert !(j < k);
        assert !(k < j);
      }
    }
  }

  /** The nodes activated next are the targets of exactly those edges, in edge order. */
  lemma NextIsHandedOver(env: Env, s: State, n: Node) returns (ks: seq<nat>)
    ensures HandsOver(env, s, n, ks) && (forall k :: k in ks ==> HasTarget(env, k))
    ensures Next(env, s, n) == TargetsOf(env, ks)
  {
    ks := Hops(env, s, n);
    var b := BaseOf(env, n);
    EnabledAreOpen(env, s.context, n.id);
    if b == ParallelJoin {
      IncomingCounts(env, n.id);
    } else if b == DecisionGate {
      DefaultIs(env, n);
    }
  }

  /** A built-in type is itself, and a custom one what the table of the run says. */
  lemma TypesResolve(env: Env, n: Node)
    ensures n.kind.Builtin? ==> BaseOf(env, n) == n.kind.base
    ensures n.kind.Custom? && n.kind.name in env.customs ==> BaseOf(env, n) == env.customs[n.kind.name]
  {}

  /** A type name the table does not know is a human task: entering the node makes an open task there. */
  lemma UnknownIsHumanTask(env: Env, s: State, n: Node)
    requires n.kind.Custom? && n.kind.name !in env.customs
    ensures Enter(env, s, n).tasks == s.tasks + [Task(Graph(n.id), Open, None, "", false, false)]
    ensures n.id in Enter(env, s, n).active
  {}

  /** A started instance has the given context, and its log begins with the start and the activation of the
      START node. */
  lemma StartEnters(env: Env, ctx: Context, fuel: nat)
    requires Begin(env, ctx, fuel).Some?
    ensures StartNode(env.version.nodes).Some?
    ensures var s := Begin(env, ctx, fuel).value;
            var start := StartNode(env.version.nodes).value;
            && s.context == ctx && s.status in {Running, Completed}
            && [InstanceStarted] + [NodeActivated(start.id, Start)] <= s.log
  {
    var start := StartNode(env.version.nodes).value;
    assert AllGood(FoundIn(env), [start]);
    DrainExtends(env, Fresh(ctx), [start], fuel);
    DrainStatus(env, Fresh(ctx), [start], fuel);
    EnteredFirst(env, Fresh(ctx), start, fuel);
  }

  // --- What becomes active ---

  predicate Waits(b: BaseType) {
    b in {HumanTask, FormFill, ApprovalGate, AgentTask, ToolRequest, CallWorkflow, Unrecognized, TimerWait}
  }

  /** Activations of waiting nodes logged from event `from` on have left their node active. */
  ghost predicate ActiveSince(env: Env, from: nat, s: State) {
    forall k :: from <= k < |s.log| && s.log[k].NodeActivated? && Waits(s.log[k].base) ==>
      && s.log[k].node in s.active
      && Lookup(env, s.log[k].node).Some? && BaseOf(env, Lookup(env, s.log[k].node).value) == s.log[k].base
  }

  lemma EnterActive(env: Env, s: State, n: Node)
    ensures Enter(env, s, n).active
            == if BaseOf(env, n) == End then Without(s.active, n.id)
               else if Waits(BaseOf(env, n)) && n.id !in s.active then s.active + [n.id] else s.active
  {}

  lemma EnterActiveHas(env: Env, s: State, n: Node)
    ensures forall x :: x in Enter(env, s, n).active <==>
              (x in s.active && !(BaseOf(env, n) == End && x == n.id)) || (Waits(BaseOf(env, n)) && x == n.id)
  {
    EnterActive(env, s, n);
    WithoutHas(s.active, n.id);
  }

  lemma EnterActiveSince(env: Env, from: nat, s: State, n: Node)
    requires ActiveSince(env, from, s) && Found(env, n)
    ensures ActiveSince(env, from, Enter(env, s, n))
  {
    var t := Enter(env, s, n);
    var b := BaseOf(env, n);
    EnterActiveHas(env, s, n);
    EnterLog(env, s, n);
    TailActivatesNothing(env, n);
    forall k | from <= k < |t.log| && t.log[k].NodeActivated? && Waits(t.log[k].base)
      ensures t.log[k].node in t.active
      ensures Lookup(env, t.log[k].node).Some? && BaseOf(env, Lookup(env, t.log[k].node).value) == t.log[k].base
    {
      if k < |s.log| {
        assert t.log[k] == s.log[k];
        if b == End && s.log[k].node == n.id {
          assert Lookup(env, n.id) == Some(n);
        }
      } else {
        assert k == |s.log|;
        assert Lookup(env, n.id) == Some(n);
      }
    }
  }

  lemma {:induction false} NoActivations(id: string, atts: seq<Attachment>, trigger: Trigger)
    ensures forall e :: e in AttachmentEvents(id, atts, trigger) ==> !e.NodeActivated?
  {
    if atts != [] {
      NoActivations(id, atts[1..], trigger);
    }
  }

  lemma TailActivatesNothing(env: Env, n: Node)
    ensures forall e :: e in EnterTail(env, n) ==> !e.NodeActivated?
  {
    NoActivations(n.id, n.attachments, OnActivate);
  }

  ghost function ActiveSinceIn(env: Env, from: nat): State -> bool {
    (s: State) => ActiveSince(env, from, s)
  }

  /** After an activation, every waiting node it has entered is active. */
  lemma WaitingIsActive(env: Env, s: State, work: seq<Node>, fuel: nat, k: nat)
    requires AllGood(FoundIn(env), work) && Drain(env, s, work, fuel).Some?
    requires var t := Drain(env, s, work, fuel).value;
             |s.log| <= k < |t.log| && t.log[k].NodeActivated? && Waits(t.log[k].base)
    ensures var t := Drain(env, s, work, fuel).value; t.log[k].node in t.active
  {
    var from := |s.log|;
    forall x: State, n: Node | ActiveSinceIn(env, from)(x) && Found(env, n)
      ensures ActiveSinceIn(env, from)(Enter(env, x, n))
    {
      EnterActiveSince(env, from, x, n);
    }
    DrainKeeps(env, s, work, fuel, ActiveSinceIn(env, from));
  }

  // --- What is noted in the metadata ---

  /** A timer node notes itself under "timers", and what its note does not touch reads as before. */
  lemma TimerIsNoted(env: Env, s: State, n: Node)
    requires BaseOf(env, n) == TimerWait
    ensures var p := ["timers"] + SplitPath(n.id);
            var after := Enter(env, s, n).metadata;
            && GetAt(after, p) == Some(Obj(map["nodeId" := Str(n.id)]))
            && forall q :: !Comparable(p, q) ==> GetAt(after, q) == GetAt(s.metadata, q)
  {
    EnterMeta(env, s, n);
    TimerPath(n.id);
    Noted(s.metadata, ["timers"] + SplitPath(n.id), Obj(map["nodeId" := Str(n.id)]));
  }

  /** A join counts its arrivals under "joinArrivals": one more than it has read, nested or under the whole
      dotted key. */
  lemma ArrivalIsNoted(env: Env, s: State, n: Node)
    requires BaseOf(env, n) == ParallelJoin
    ensures var p := ["joinArrivals"] + SplitPath(n.id);
            var after := Enter(env, s, n).metadata;
            var flat := "joinArrivals." + n.id;
            var found := if env.nestedRead then GetAt(s.metadata, p)
                         else if flat in s.metadata then Some(s.metadata[flat]) else None;
            && GetAt(after, p) == Some(Num((if found.Some? && found.value.Num? then found.value.n else 0) + 1))
            && forall q :: !Comparable(p, q) ==> GetAt(after, q) == GetAt(s.metadata, q)
  {
    EnterMeta(env, s, n);
    JoinPath(n.id);
    Noted(s.metadata, ["joinArrivals"] + SplitPath(n.id), Num(Arrivals(env, s.metadata, n.id) + 1));
  }

  lemma Noted(meta: Context, p: seq<string>, v: Json)
    requires p != []
    ensures GetAt(SetAt(meta, p, v), p) == Some(v)
    ensures forall q :: !Comparable(p, q) ==> GetAt(SetAt(meta, p, v), q) == GetAt(meta, q)
  {
    ReadBack(meta, p, v);
    forall q | !Comparable(p, q) ensures GetAt(SetAt(meta, p, v), q) == GetAt(meta, q) {
      ReadElsewhere(meta, p, v, q);
    }
  }

  // --- What attachments do ---

  /** The alarms among the attachments that arm a timer with this id, action and assignee. */
  ghost predicate Arms(att: Attachment, a: string, action: TimerAction, to: Option<string>) {
    att.Alarm? && att.id == a && att.enabled && att.minutes != 0 && att.action == action && att.escalateTo == to
  }

  lemma CountOneMore(atts: seq<Attachment>, holds: Attachment -> bool, less: set<nat>, all: set<nat>)
    requires atts != []
    requires forall k: nat :: k in less <==> k < |atts| - 1 && holds(atts[k])
    requires forall k: nat :: k in all <==> k < |atts| && holds(atts[k])
    ensures |all| == |less| + if holds(atts[|atts| - 1]) then 1 else 0
  {
    var n := |atts| - 1;
    if holds(atts[n]) {
      assert all == less + {n};
    } else {
      assert all == less;
    }
  }

  lemma OneAttachment(id: string, att: Attachment, trigger: Trigger)
    ensures AttachmentEvents(id, [att], trigger) == AttachmentEvent(id, att, trigger)
    ensures AttachmentTimers(id, [att], trigger) == AttachmentTimer(id, att, trigger)
  {
    assert [att][1..] == [];
  }

  lemma OneMoreRow(id: string, before: seq<Attachment>, last: Attachment, trigger: Trigger, row: Timer)
    ensures multiset(AttachmentTimers(id, before + [last], trigger))[row]
            == multiset(AttachmentTimers(id, before, trigger))[row] + multiset(AttachmentTimer(id, last, trigger))[row]
  {
    TimersConcat(id, before, [last], trigger);
    OneAttachment(id, last, trigger);
  }

  lemma OneMoreEvent(id: string, before: seq<Attachment>, last: Attachment, trigger: Trigger, e: Event)
    ensures multiset(AttachmentEvents(id, before + [last], trigger))[e]
            == multiset(AttachmentEvents(id, before, trigger))[e] + multiset(AttachmentEvent(id, last, trigger))[e]
  {
    EventsConcat(id, before, [last], trigger);
    OneAttachment(id, last, trigger);
  }

  /** The indices of the alarms that arm such a timer. */
  ghost function Arming(atts: seq<Attachment>, a: string, action: TimerAction, to: Option<string>): set<nat> {
    set k: nat | k < |atts| && Arms(atts[k], a, action, to)
  }

  /** On activation one timer row per enabled alarm with a delay is armed, for each combination of settings
      as many rows as there are such alarms; no other trigger arms any. */
  lemma {:induction false} TimersAreCounted(id: string, atts: seq<Attachment>, trigger: Trigger, a: string,
                                            action: TimerAction, to: Option<string>)
    ensures multiset(AttachmentTimers(id, atts, trigger))[Timer(id, a, action, to, false, false)]
            == if trigger == OnActivate then |Arming(atts, a, action, to)| else 0
    decreases |atts|
  {
    if atts == [] {
      assert Arming(atts, a, action, to) == {};
    } else {
      var n := |atts| - 1;
      var before, last := atts[..n], atts[n];
      TimersAreCounted(id, before, trigger, a, action, to);
      OneMoreArms(before, last, a, action, to);
      assert atts == before + [last];
      OneMoreRow(id, before, last, trigger, Timer(id, a, action, to, false, false));
      OneRow(id, last, trigger, a, action, to);
    }
  }

  lemma OneMoreArms(before: seq<Attachment>, last: Attachment, a: string, action: TimerAction, to: Option<string>)
    ensures |Arming(before + [last], a, action, to)|
            == |Arming(before, a, action, to)| + if Arms(last, a, action, to) then 1 else 0
  {
    CountOneMore(before + [last], (x: Attachment) => Arms(x, a, action, to), Arming(before, a, action, to),
                 Arming(before + [last], a, action, to));
  }

  lemma OneRow(id: string, att: Attachment, trigger: Trigger, a: string, action: TimerAction, to: Option<string>)
    ensures multiset(AttachmentTimer(id, att, trigger))[Timer(id, a, action, to, false, false)]
            == if trigger == OnActivate && Arms(att, a, action, to) then 1 else 0
  {}

  /** Every row armed is for the node and neither fired nor cancelled. */
  lemma {:induction false} RowsAreArmed(id: string, atts: seq<Attachment>, trigger: Trigger)
    ensures forall t :: t in AttachmentTimers(id, atts, trigger) ==> t.node == id && Armed(t)
  {
    if atts != [] {
      RowsAreArmed(id, atts[1..], trigger);
    }
  }

  ghost function Notifying(atts: seq<Attachment>, a: string, trigger: Trigger): set<nat> {
    set k: nat | k < |atts| && atts[k] == Notice(a, true, trigger)
  }

  /** One event per enabled notification for the trigger. */
  lemma {:induction false} NoticesAreCounted(id: string, atts: seq<Attachment>, trigger: Trigger, a: string)
    ensures multiset(AttachmentEvents(id, atts, trigger))[AttachedNotificationSent(id, a, trigger)]
            == |Notifying(atts, a, trigger)|
    decreases |atts|
  {
    if atts == [] {
      assert Notifying(atts, a, trigger) == {};
    } else {
      var n := |atts| - 1;
      var before, last := atts[..n], atts[n];
      NoticesAreCounted(id, before, trigger, a);
      CountOneMore(atts, (x: Attachment) => x == Notice(a, true, trigger), Notifying(before, a, trigger),
                   Notifying(atts, a, trigger));
      assert atts == before + [last];
      OneMoreEvent(id, before, last, trigger, AttachedNotificationSent(id, a, trigger));
      OneNotice(id, last, trigger, a);
    }
  }

  lemma OneNotice(id: string, att: Attachment, trigger: Trigger, a: string)
    ensures multiset(AttachmentEvent(id, att, trigger))[AttachedNotificationSent(id, a, trigger)]
            == if att == Notice(a, true, trigger) then 1 else 0
  {}

  ghost function Told(rows: seq<Timer>): seq<Event> {
    seq(|rows|, i requires 0 <= i < |rows| => AttachedTimerScheduled(rows[i].node, rows[i].attachment))
  }

  /** Besides the notifications, the events tell of the rows armed, one event each. */
  lemma {:induction false} TimersAreTold(id: string, atts: seq<Attachment>, trigger: Trigger, a: string)
    ensures multiset(AttachmentEvents(id, atts, trigger))[AttachedTimerScheduled(id, a)]
            == multiset(Told(AttachmentTimers(id, atts, trigger)))[AttachedTimerScheduled(id, a)]
    decreases |atts|
  {
    if atts != [] {
      var n := |atts| - 1;
      var before, last := atts[..n], atts[n];
      TimersAreTold(id, before, trigger, a);
      assert atts == before + [last];
      OneMoreEvent(id, before, last, trigger, AttachedTimerScheduled(id, a));
      TimersConcat(id, before, [last], trigger);
      OneAttachment(id, last, trigger);
      ToldOneMore(AttachmentTimers(id, before, trigger), AttachmentTimer(id, last, trigger),
                  AttachedTimerScheduled(id, a));
      OneTold(id, last, trigger, a);
    }
  }

  lemma ToldOneMore(rows: seq<Timer>, more: seq<Timer>, e: Event)
    ensures multiset(Told(rows + more))[e] == multiset(Told(rows))[e] + multiset(Told(more))[e]
  {
    assert Told(rows + more) == Told(rows) + Told(more);
  }

  lemma OneTold(id: string, att: Attachment, trigger: Trigger, a: string)
    ensures multiset(AttachmentEvent(id, att, trigger))[AttachedTimerScheduled(id, a)]
            == multiset(Told(AttachmentTimer(id, att, trigger)))[AttachedTimerScheduled(id, a)]
  {
    var rows := AttachmentTimer(id, att, trigger);
    if rows != [] {
      assert Told(rows) == [AttachedTimerScheduled(id, rows[0].attachment)];
    }
  }

  /** And there are no other events. */
  lemma {:induction false} EventsAreOfTheNode(id: string, atts: seq<Attachment>, trigger: Trigger)
    ensures forall e :: e in AttachmentEvents(id, atts, trigger) ==>
              || (e.AttachedNotificationSent? && e.node == id && e.trigger == trigger)
              || (e.AttachedTimerScheduled? && e.node == id && trigger == OnActivate)
  {
    if atts != [] {
      EventsAreOfTheNode(id, atts[1..], trigger);
    }
  }
}
