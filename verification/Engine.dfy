/** The business-workflow runtime as a transition system over one instance's rows
    (server/businessWorkflows.ts:585-2610, server/businessWorkflowSweeper.ts:95-376). */
module Engine {
  // Tables only grow, so a row's id is its index.

  import opened Prelude
  import opened JsonTree
  import opened WorkflowGraph
  import opened Worklist

  datatype Status = Running | Paused | Completed | Cancelled | Failed

  /** Planned work sits at a graph node; an ad-hoc task carries a synthetic node id. */
  datatype Where = Graph(id: string) | Side(id: string)

  datatype TaskStatus = Open | Claimed | InProgress | Finished | Withdrawn | SentBack(target: string)

  datatype Task = Task(where: Where, status: TaskStatus, claimedBy: Option<string>, assignee: string,
                       blocking: bool, overdueNotified: bool)

  datatype ApprovalStatus =
    | Pending | Approved | ApprovedWithConditions | Rejected | NeedsMoreInformation | Deferred | Escalated

  datatype Approval = Approval(node: string, status: ApprovalStatus, sentBackTo: Option<string>, assignee: string)

  datatype Timer = Timer(node: string, attachment: string, action: TimerAction, escalateTo: Option<string>,
                         fired: bool, cancelled: bool)

  datatype Event =
    | InstanceStarted
    | NodeActivated(node: string, base: BaseType)
    | NodeCompleted(node: string)
    | InstanceCompleted(node: string)
    | InstanceCancelled
    | InstancePaused
    | InstanceResumed
    | TaskClaimed(where: Where)
    | TaskCompleted(where: Where)
    | TaskSentBack(where: Where, target: string)
    | TaskReassigned(where: Where)
    | ApprovalDecided(node: string, decision: ApprovalStatus)
    | ApprovalSentBack(node: string, target: string)
    | ApprovalReassigned(node: string)
    | AdHocTaskCreated(where: Where, blocking: bool)
    | AgentDelegated(node: string)
    | NotificationSent(node: string)
    | AttachedNotificationSent(node: string, attachment: string, trigger: Trigger)
    | AttachedTimerScheduled(node: string, attachment: string)
    | AttachedTimerFired(node: string, timer: nat)
    | ContextUpdated
    | DocumentAttached
    | DocumentRemoved
    | NoteAdded

  datatype State = State(status: Status, context: Context, active: seq<string>, metadata: Context,
                         tasks: seq<Task>, approvals: seq<Approval>, timers: seq<Timer>, log: seq<Event>)

  /** How a call ends: with a result, with null, with an exception, or not at all. */
  datatype Reply = Ok | Absent | Refused | Blocked

  datatype Outcome = Outcome(state: State, reply: Reply)

  // --- Small pieces ---

  predicate IsOpen(t: TaskStatus) {
    t in {Open, Claimed, InProgress}
  }

  predicate Ended(s: Status) {
    s in {Completed, Cancelled, Failed}
  }

  function Without(ids: seq<string>, id: string): seq<string> {
    if ids == [] then []
    else (if ids[0] == id then [] else [ids[0]]) + Without(ids[1..], id)
  }

  function Emit(s: State, e: Event): State {
    s.(log := s.log + [e])
  }

  /** `activeNodeIds` gains the node unless it is already there. */
  function Mark(s: State, id: string): State {
    if id in s.active then s else s.(active := s.active + [id])
  }

  // --- Attachments ---

  /** The event one attachment emits for a lifecycle trigger, if any. */
  function AttachmentEvent(id: string, att: Attachment, trigger: Trigger): seq<Event> {
    match att
    case Notice(a, enabled, t) => if enabled && t == trigger then [AttachedNotificationSent(id, a, trigger)] else []
    case Alarm(a, enabled, minutes, _, _) =>
      if enabled && trigger == OnActivate && minutes != 0 then [AttachedTimerScheduled(id, a)] else []
  }

  /** The timer row one attachment inserts on activation, if any. */
  function AttachmentTimer(id: string, att: Attachment, trigger: Trigger): seq<Timer> {
    match att
    case Notice(_, _, _) => []
    case Alarm(a, enabled, minutes, action, to) =>
      if enabled && trigger == OnActivate && minutes != 0 then [Timer(id, a, action, to, false, false)] else []
  }

  /** The events `fireAttachmentsForTrigger` emits. */
  function AttachmentEvents(id: string, atts: seq<Attachment>, trigger: Trigger): seq<Event> {
    if atts == [] then []
    else AttachmentEvent(id, atts[0], trigger) + AttachmentEvents(id, atts[1..], trigger)
  }

  /** The timer rows it inserts. */
  function AttachmentTimers(id: string, atts: seq<Attachment>, trigger: Trigger): seq<Timer> {
    if atts == [] then []
    else AttachmentTimer(id, atts[0], trigger) + AttachmentTimers(id, atts[1..], trigger)
  }

  lemma {:induction false} EventsConcat(id: string, a: seq<Attachment>, b: seq<Attachment>, trigger: Trigger)
    ensures AttachmentEvents(id, a + b, trigger) == AttachmentEvents(id, a, trigger) + AttachmentEvents(id, b, trigger)
  {
    if a == [] {
      assert a + b == b;
    } else {
      assert (a + b)[0] == a[0] && (a + b)[1..] == a[1..] + b;
      EventsConcat(id, a[1..], b, trigger);
    }
  }

  lemma {:induction false} TimersConcat(id: string, a: seq<Attachment>, b: seq<Attachment>, trigger: Trigger)
    ensures AttachmentTimers(id, a + b, trigger) == AttachmentTimers(id, a, trigger) + AttachmentTimers(id, b, trigger)
  {
    if a == [] {
      assert a + b == b;
    } else {
      assert (a + b)[0] == a[0] && (a + b)[1..] == a[1..] + b;
      TimersConcat(id, a[1..], b, trigger);
    }
  }

  function FireAttachments(s: State, n: Node, trigger: Trigger): State {
    s.(log := s.log + AttachmentEvents(n.id, n.attachments, trigger),
       timers := s.timers + AttachmentTimers(n.id, n.attachments, trigger))
  }

  predicate Armed(t: Timer) {
    !t.fired && !t.cancelled
  }

  function CancelledAt(ts: seq<Timer>, id: string): (r: seq<Timer>)
    ensures |r| == |ts|
    ensures forall i :: 0 <= i < |ts| ==>
              r[i] == if ts[i].node == id && Armed(ts[i]) then ts[i].(cancelled := true) else ts[i]
  {
    seq(|ts|, i requires 0 <= i < |ts| =>
      if ts[i].node == id && Armed(ts[i]) then ts[i].(cancelled := true) else ts[i])
  }

  /** `cancelScheduledTimersForNode` */
  function CancelTimers(s: State, id: string): State {
    s.(timers := CancelledAt(s.timers, id))
  }

  // --- Activation ---

  function JoinKey(id: string): string {
    "joinArrivals." + id
  }

  /** Arrivals a join believes it has seen. The source indexes metadata by the whole dotted key;
      the nested read is the repaired variant. */
  function Arrivals(env: Env, meta: Context, id: string): int {
    var found := if env.nestedRead then GetAt(meta, SplitPath(JoinKey(id)))
                 else if JoinKey(id) in meta then Some(meta[JoinKey(id)]) else None;
    if found.Some? && found.value.Num? then found.value.n else 0
  }

  /** What activating one node does by itself, before control moves to further nodes. */
  function Enter(env: Env, s: State, n: Node): State {
    var b := BaseOf(env, n);
    var s1 := FireAttachments(Emit(s, NodeActivated(n.id, b)), n, OnActivate);
    match b
    case Start | ParallelFork | DecisionGate => s1
    case End => Emit(s1.(status := Completed, active := Without(s1.active, n.id)), InstanceCompleted(n.id))
    case HumanTask | FormFill =>
      Mark(s1.(tasks := s1.tasks + [Task(Graph(n.id), Open, None, "", false, false)]), n.id)
    case ApprovalGate => Mark(s1.(approvals := s1.approvals + [Approval(n.id, Pending, None, "")]), n.id)
    case AgentTask => Mark(Emit(s1, AgentDelegated(n.id)), n.id)
    case ToolRequest | CallWorkflow | Unrecognized => Mark(s1, n.id)
    case TimerWait =>
      Mark(s1.(metadata := SetPath(s1.metadata, "timers." + n.id, Obj(map["nodeId" := Str(n.id)]))), n.id)
    case Notification => Emit(s1, NotificationSent(n.id))
    case ParallelJoin =>
      s1.(metadata := SetPath(s1.metadata, JoinKey(n.id), Num(Arrivals(env, s1.metadata, n.id) + 1)))
  }

  /** A join forwards once its counter reaches the number of incoming edges. */
  predicate Forwards(env: Env, meta: Context, id: string) {
    Arrivals(env, meta, id) + 1 >= Incoming(env, id)
  }

  /** Edges control leaves through when the node is entered in state `s`. */
  function Hops(env: Env, s: State, n: Node): (r: seq<nat>)
    ensures forall k :: k in r ==> HasTarget(env, k)
  {
    var b := BaseOf(env, n);
    var out := EnabledEdges(env, s.context, n.id);
    match b
    case Start | ParallelFork | Notification => out
    case DecisionGate =>
      if out == [] && DefaultEdge(env, n).Some? then [DefaultEdge(env, n).value] else out
    case ParallelJoin => if Forwards(env, s.metadata, n.id) then out else []
    case _ => []
  }

  /** Nodes activated next, in order. */
  function Next(env: Env, s: State, n: Node): seq<Node> {
    TargetsOf(env, Hops(env, s, n))
  }

  function EnterIn(env: Env): (State, Node) -> State {
    (s, n) => Enter(env, s, n)
  }

  function NextIn(env: Env): (State, Node) -> seq<Node> {
    (s, n) => Next(env, s, n)
  }

  /** Activates the listed nodes one after the other, each with everything it leads to, visiting
      at most `fuel` nodes in all; None when that is not enough. */
  function Drain(env: Env, s: State, work: seq<Node>, fuel: nat): Option<State> {
    Run(EnterIn(env), NextIn(env), s, work, fuel)
  }

  // --- Moving on after a node is done ---

  /** What completing a node logs before its successors are activated. */
  function DepartEvents(n: Node): seq<Event> {
    [NodeCompleted(n.id)] + AttachmentEvents(n.id, n.attachments, OnComplete)
  }

  function Depart(env: Env, s: State, n: Node, output: Context): State {
    s.(log := s.log + DepartEvents(n),
       timers := CancelledAt(s.timers + AttachmentTimers(n.id, n.attachments, OnComplete), n.id),
       context := ApplyOutputBindings(s.context, n.id, n.bindings, output),
       active := Without(s.active, n.id))
  }

  /** `advanceFromCompletedNode` */
  function Advance(env: Env, s: State, id: string, output: Context, fuel: nat): Option<State> {
    if s.status != Running || Lookup(env, id).None? then Some(s)
    else
      var s1 := Depart(env, s, Lookup(env, id).value, output);
      Drain(env, s1, PickTargets(env, s1.context, id), fuel)
  }

  function Replied(s: Option<State>): Option<Outcome> {
    if s.None? then None else Some(Outcome(s.value, Ok))
  }

  // --- Tasks ---

  function CloseTask(s: State, i: nat, status: TaskStatus): State
    requires i < |s.tasks|
  {
    s.(tasks := s.tasks[i := s.tasks[i].(status := status)])
  }

  function ClaimTask(s: State, i: nat, who: string): Outcome {
    if i >= |s.tasks| then Outcome(s, Absent)
    else if s.status == Paused then Outcome(s, Refused)
    else if s.tasks[i].status != Open then Outcome(s, Absent)
    else
      var t := s.tasks[i];
      Outcome(Emit(s.(tasks := s.tasks[i := t.(status := Claimed, claimedBy := Some(who))]), TaskClaimed(t.where)), Ok)
  }

  function Pause(s: State): State {
    if s.status == Running then Emit(s.(status := Paused), InstancePaused) else s
  }

  function Resume(s: State): State {
    if s.status == Paused then Emit(s.(status := Running), InstanceResumed) else s
  }

  function Finish(s: State, i: nat): State
    requires i < |s.tasks|
  {
    Emit(CloseTask(s, i, Finished), TaskCompleted(s.tasks[i].where))
  }

  function OutputOf(formData: Option<Context>, output: Option<Context>): Context {
    if output.Some? then output.value else if formData.Some? then formData.value else map[]
  }

  predicate IsBlockingSide(t: Task) {
    t.where.Side? && t.blocking
  }

  function CompleteTask(env: Env, s: State, i: nat, formData: Option<Context>, output: Option<Context>,
                        fuel: nat): Option<Outcome> {
    if i >= |s.tasks| then Some(Outcome(s, Absent))
    else if !IsBlockingSide(s.tasks[i]) && s.status == Paused then Some(Outcome(s, Refused))
    else if !IsOpen(s.tasks[i].status) then Some(Outcome(s, Absent))
    else
      var t := s.tasks[i];
      var s1 := Finish(s, i);
      if t.where.Side? then Some(Outcome(if t.blocking then Resume(s1) else s1, Ok))
      else Replied(Advance(env, s1, t.where.id, OutputOf(formData, output), fuel))
  }

  function ReassignTask(s: State, i: nat, assignee: string): Outcome {
    if i >= |s.tasks| || !IsOpen(s.tasks[i].status) then Outcome(s, Absent)
    else
      var t := s.tasks[i];
      var status := if t.status == Claimed then Open else t.status;
      Outcome(Emit(s.(tasks := s.tasks[i := t.(status := status, claimedBy := None, assignee := assignee)]),
                   TaskReassigned(t.where)), Ok)
  }

  function CreateAdHoc(s: State, token: string, blocking: bool, assignee: string): Outcome {
    if Ended(s.status) then Outcome(s, Refused)
    else
      var w := Side("adhoc-" + token);
      var s1 := Emit(s.(tasks := s.tasks + [Task(w, Open, None, assignee, blocking, false)]),
                     AdHocTaskCreated(w, blocking));
      Outcome(if blocking then Pause(s1) else s1, Ok)
  }

  // --- Approvals ---

  predicate Settles(d: ApprovalStatus) {
    d in {Approved, ApprovedWithConditions, Rejected}
  }

  function DecisionName(d: ApprovalStatus): string {
    match d
    case Pending => "PENDING"
    case Approved => "APPROVED"
    case ApprovedWithConditions => "APPROVED_WITH_CONDITIONS"
    case Rejected => "REJECTED"
    case NeedsMoreInformation => "NEEDS_MORE_INFORMATION"
    case Deferred => "DEFERRED"
    case Escalated => "ESCALATED"
  }

  function DecisionOutput(d: ApprovalStatus, conditions: Option<string>, notes: Option<string>): Context {
    map["decision" := Str(DecisionName(d))]
    + (if conditions.Some? then map["conditions" := Str(conditions.value)] else map[])
    + (if notes.Some? then map["notes" := Str(notes.value)] else map[])
  }

  function Decide(env: Env, s: State, i: nat, d: ApprovalStatus, conditions: Option<string>,
                  notes: Option<string>, fuel: nat): Option<Outcome> {
    if i >= |s.approvals| then Some(Outcome(s, Absent))
    else if s.status == Paused then Some(Outcome(s, Refused))
    else if s.approvals[i].status != Pending then Some(Outcome(s, Absent))
    else
      var a := s.approvals[i];
      var s1 := Emit(s.(approvals := s.approvals[i := a.(status := d)]), ApprovalDecided(a.node, d));
      if Settles(d) then Replied(Advance(env, s1, a.node, DecisionOutput(d, conditions, notes), fuel))
      else Some(Outcome(s1, Ok))
  }

  function ReassignApproval(s: State, i: nat, assignee: string): Outcome {
    if i >= |s.approvals| || s.approvals[i].status != Pending then Outcome(s, Absent)
    else
      var a := s.approvals[i];
      Outcome(Emit(s.(approvals := s.approvals[i := a.(assignee := assignee)]), ApprovalReassigned(a.node)), Ok)
  }

  // --- Send-back ---

  /** Join counters after a send-back: every join between target and source forgets its arrivals. */
  ghost function ResetJoins(env: Env, meta: Context, target: string, source: string): Context {
    if exists id :: JoinBetween(env.version, target, source, id) then
      var arrivals := Below(meta, "joinArrivals");
      meta["joinArrivals" := Obj(map k | k in arrivals && !JoinBetween(env.version, target, source, k) :: arrivals[k])]
    else meta
  }

  /** The part shared by both send-backs, after the row is closed and before the target activates. */
  ghost function Rewind(env: Env, s: State, source: string, target: string, e: Event): State {
    var s1 := s.(metadata := ResetJoins(env, s.metadata, target, source), active := Without(s.active, source));
    CancelTimers(Emit(s1, e), source)
  }

  predicate ValidTarget(env: Env, target: string) {
    && Lookup(env, target).Some?
    && Lookup(env, target).value.kind !in {Builtin(Start), Builtin(End)}
  }

  ghost function SendBackTask(env: Env, s: State, i: nat, target: string, fuel: nat): Option<Outcome> {
    if i >= |s.tasks| then Some(Outcome(s, Absent))
    else if !IsOpen(s.tasks[i].status) || s.status == Paused || !ValidTarget(env, target) then Some(Outcome(s, Refused))
    else
      var t := s.tasks[i];
      var s1 := Rewind(env, CloseTask(s, i, SentBack(target)), t.where.id, target, TaskSentBack(t.where, target));
      Replied(Drain(env, s1, [Lookup(env, target).value], fuel))
  }

  ghost function SendBackApproval(env: Env, s: State, i: nat, target: string, fuel: nat): Option<Outcome> {
    if i >= |s.approvals| then Some(Outcome(s, Absent))
    else if s.approvals[i].status != Pending || s.status == Paused || !ValidTarget(env, target) then
      Some(Outcome(s, Refused))
    else
      var a := s.approvals[i];
      var closed := s.(approvals := s.approvals[i := a.(status := NeedsMoreInformation, sentBackTo := Some(target))]);
      var s1 := Rewind(env, closed, a.node, target, ApprovalSentBack(a.node, target));
      Replied(Drain(env, s1, [Lookup(env, target).value], fuel))
  }

  // --- Cancel ---

  function WithdrawAll(ts: seq<Task>): (r: seq<Task>)
    ensures |r| == |ts|
    ensures forall i :: 0 <= i < |ts| ==> r[i] == if IsOpen(ts[i].status) then ts[i].(status := Withdrawn) else ts[i]
  {
    seq(|ts|, i requires 0 <= i < |ts| => if IsOpen(ts[i].status) then ts[i].(status := Withdrawn) else ts[i])
  }

  function RejectAll(aps: seq<Approval>): (r: seq<Approval>)
    ensures |r| == |aps|
    ensures forall i :: 0 <= i < |aps| ==>
              r[i] == if aps[i].status == Pending then aps[i].(status := Rejected) else aps[i]
  {
    seq(|aps|, i requires 0 <= i < |aps| => if aps[i].status == Pending then aps[i].(status := Rejected) else aps[i])
  }

  function DisarmAll(ts: seq<Timer>): (r: seq<Timer>)
    ensures |r| == |ts|
    ensures forall i :: 0 <= i < |ts| ==> r[i] == if Armed(ts[i]) then ts[i].(cancelled := true) else ts[i]
  {
    seq(|ts|, i requires 0 <= i < |ts| => if Armed(ts[i]) then ts[i].(cancelled := true) else ts[i])
  }

  function CancelInstance(s: State): State {
    if s.status == Completed || s.status == Cancelled then s
    else Emit(s.(status := Cancelled, tasks := WithdrawAll(s.tasks), approvals := RejectAll(s.approvals),
                 timers := DisarmAll(s.timers)), InstanceCancelled)
  }

  // --- Context edits ---

  /** The patch sets `k` to a value that prints differently. Objects print in their key order, which
      values do not carry: `reordered` names the keys that differ in this alone. */
  predicate Changes(ctx: Context, patch: Context, reordered: set<string>, k: string) {
    k in patch && (k !in ctx || ctx[k] != patch[k] || k in reordered)
  }

  function UpdateContext(s: State, patch: Context, reordered: set<string>): Outcome {
    if Ended(s.status) then Outcome(s, Refused)
    else if forall k :: k in patch ==> !Changes(s.context, patch, reordered, k) then Outcome(s, Ok)
    else Outcome(Emit(s.(context := s.context + patch), ContextUpdated), Ok)
  }

  predicate Removable(k: string) {
    !(|k| >= 2 && k[..2] == "__")
  }

  /** No status check here: keys can be removed from an ended instance too. */
  function RemoveKeys(s: State, keys: set<string>): Outcome {
    var gone := set k | k in keys && Removable(k) && k in s.context;
    if gone == {} then Outcome(s, Ok)
    else Outcome(Emit(s.(context := s.context - gone), ContextUpdated), Ok)
  }

  function Documents(c: Context): seq<Json> {
    if "__documents" in c && c["__documents"].Arr? then c["__documents"].items else []
  }

  predicate HasId(doc: Json, id: string) {
    doc.Obj? && "id" in doc.fields && doc.fields["id"] == Str(id)
  }

  function DropId(docs: seq<Json>, id: string): seq<Json> {
    if docs == [] then [] else (if HasId(docs[0], id) then [] else [docs[0]]) + DropId(docs[1..], id)
  }

  lemma {:induction false} DropIdAppend(docs: seq<Json>, doc: Json, id: string)
    ensures DropId(docs + [doc], id) == DropId(docs, id) + if HasId(doc, id) then [] else [doc]
  {
    if docs == [] {
      assert [doc][1..] == [];
    } else {
      assert (docs + [doc])[1..] == docs[1..] + [doc] && (docs + [doc])[0] == docs[0];
      DropIdAppend(docs[1..], doc, id);
    }
  }

  lemma {:induction false} NoneDropped(docs: seq<Json>, id: string)
    requires forall d :: d in docs ==> !HasId(d, id)
    ensures DropId(docs, id) == docs
  {
    if docs != [] {
      assert docs[0] in docs && forall d :: d in docs[1..] ==> d in docs;
      NoneDropped(docs[1..], id);
    }
  }

  function AttachDocument(s: State, doc: Json, wellFormed: bool): Outcome {
    if Ended(s.status) || !wellFormed then Outcome(s, Refused)
    else
      var context := s.context["__documents" := Arr(Documents(s.context) + [doc])];
      Outcome(Emit(s.(context := context), DocumentAttached), Ok)
  }

  /** A null among the documents makes the look for the id throw. */
  function RemoveDocument(s: State, id: string): Outcome {
    var docs := Documents(s.context);
    if Null in docs then Outcome(s, Refused)
    else if forall d :: d in docs ==> !HasId(d, id) then Outcome(s, Ok)
    else Outcome(Emit(s.(context := s.context["__documents" := Arr(DropId(docs, id))]), DocumentRemoved), Ok)
  }

  // --- Sweeper ---

  /** `loadOpenTaskForNode`: the most recent open task row with the node id. */
  function LatestOpen(ts: seq<Task>, id: string): (r: Option<nat>)
    ensures r.Some? ==> r.value < |ts| && IsOpen(ts[r.value].status) && ts[r.value].where.id == id
  {
    if ts == [] then None
    else if IsOpen(ts[|ts| - 1].status) && ts[|ts| - 1].where.id == id then Some(|ts| - 1)
    else LatestOpen(ts[..|ts| - 1], id)
  }

  function Stamp(s: State, k: nat): State
    requires k < |s.timers|
  {
    s.(timers := s.timers[k := s.timers[k].(fired := true)])
  }

  /** The AUTO_COMPLETE action. Completing planned work of a RUNNING instance never comes back: the
      engine waits for the timer row that the sweep transaction itself holds. */
  function CompleteByTimer(env: Env, s: State, i: nat): Outcome
    requires i < |s.tasks|
  {
    var t := s.tasks[i];
    if !IsBlockingSide(t) && s.status == Paused then Outcome(s, Refused)
    else if t.where.Side? then Outcome(if t.blocking then Resume(Finish(s, i)) else Finish(s, i), Ok)
    else if s.status != Running || Lookup(env, t.where.id).None? then Outcome(Finish(s, i), Ok)
    else
      Outcome(FireAttachments(Emit(Finish(s, i), NodeCompleted(t.where.id)), Lookup(env, t.where.id).value, OnComplete),
              Blocked)
  }

  function EscalateTo(s: State, open: Option<nat>, assignee: Option<string>): State {
    if open.None? || assignee.None? then s else ReassignTask(s, open.value, assignee.value).state
  }

  /** `fireOneTimer` for one locked row. `delivered` is whether the alert of a NOTIFY goes out. */
  function FireOne(env: Env, s: State, k: nat, delivered: bool): (r: Outcome)
    requires k < |s.timers|
    ensures |s.timers| <= |r.state.timers|
  {
    var row := s.timers[k];
    var s1 := Emit(s, AttachedTimerFired(row.node, k));
    var open := LatestOpen(s.tasks, row.node);
    match row.action
    case Notify => Outcome(s1, if delivered then Ok else Refused)
    case OtherAction => Outcome(s1, Ok)
    case Escalate => Outcome(EscalateTo(s1, open, row.escalateTo), Ok)
    case AutoComplete => if open.None? then Outcome(s1, Ok) else CompleteByTimer(env, s1, open.value)
  }

  /** One row of `sweepDueTimers`: fire, and stamp the row only if the action came back. */
  function SweepTimer(env: Env, s: State, k: nat, delivered: bool): Outcome {
    if k >= |s.timers| || !Armed(s.timers[k]) then Outcome(s, Absent)
    else
      var r := FireOne(env, s, k, delivered);
      if r.reply == Ok then Outcome(Stamp(r.state, k), Ok) else r
  }

  /** The overdue sweep on one task: stamp it, then notify; `sent` alerts go out before one fails. */
  function SweepOverdue(env: Env, s: State, i: nat, sent: nat): Outcome {
    if i >= |s.tasks| || !IsOpen(s.tasks[i].status) || s.tasks[i].overdueNotified then Outcome(s, Absent)
    else
      var t := s.tasks[i];
      var s1 := s.(tasks := s.tasks[i := t.(overdueNotified := true)]);
      var node := Lookup(env, t.where.id);
      if node.None? then Outcome(s1, Ok)
      else
        var all := AttachmentEvents(node.value.id, node.value.attachments, OnOverdue);
        Outcome(s1.(log := s1.log + if sent < |all| then all[..sent] else all), Ok)
  }

  // --- Calls and runs ---

  datatype Op =
    | DoClaim(task: nat, who: string)
    | DoComplete(task: nat, formData: Option<Context>, output: Option<Context>)
    | DoDecide(approval: nat, decision: ApprovalStatus, conditions: Option<string>, notes: Option<string>)
    | DoReassignTask(task: nat, assignee: string)
    | DoReassignApproval(approval: nat, assignee: string)
    | DoSendBackTask(task: nat, target: string)
    | DoSendBackApproval(approval: nat, target: string)
    | DoAdHoc(token: string, blocking: bool, assignee: string)
    | DoPause
    | DoResume
    | DoCancel
    | DoUpdateContext(patch: Context, reordered: set<string>)
    | DoRemoveKeys(keys: set<string>)
    | DoAttach(doc: Json, wellFormed: bool)
    | DoDetach(docId: string)
    | DoNote
    | DoSweepTimer(timer: nat, delivered: bool)
    | DoSweepOverdue(task: nat, sent: nat)

  /** One call. None when the call would not return within `fuel` node visits. */
  ghost function Step(env: Env, s: State, op: Op, fuel: nat): Option<Outcome> {
    match op
    case DoClaim(i, who) => Some(ClaimTask(s, i, who))
    case DoComplete(i, formData, output) => CompleteTask(env, s, i, formData, output, fuel)
    case DoDecide(i, d, conditions, notes) => Decide(env, s, i, d, conditions, notes, fuel)
    case DoReassignTask(i, assignee) => Some(ReassignTask(s, i, assignee))
    case DoReassignApproval(i, assignee) => Some(ReassignApproval(s, i, assignee))
    case DoSendBackTask(i, target) => SendBackTask(env, s, i, target, fuel)
    case DoSendBackApproval(i, target) => SendBackApproval(env, s, i, target, fuel)
    case DoAdHoc(token, blocking, assignee) => Some(CreateAdHoc(s, token, blocking, assignee))
    case DoPause => Some(Outcome(Pause(s), Ok))
    case DoResume => Some(Outcome(Resume(s), Ok))
    case DoCancel => Some(Outcome(CancelInstance(s), Ok))
    case DoUpdateContext(patch, reordered) => Some(UpdateContext(s, patch, reordered))
    case DoRemoveKeys(keys) => Some(RemoveKeys(s, keys))
    case DoAttach(doc, wellFormed) => Some(AttachDocument(s, doc, wellFormed))
    case DoDetach(id) => Some(RemoveDocument(s, id))
    case DoNote => Some(Outcome(Emit(s, NoteAdded), Ok))
    case DoSweepTimer(k, delivered) => Some(SweepTimer(env, s, k, delivered))
    case DoSweepOverdue(i, sent) => Some(SweepOverdue(env, s, i, sent))
  }

  /** The row inserted by `startBusinessInstance`, with its first event. */
  function Fresh(ctx: Context): State {
    State(Running, ctx, [], map[], [], [], [], [InstanceStarted])
  }

  /** The calls in order, from `s`; None as soon as one of them does not return. */
  ghost function Replay(env: Env, s: State, ops: seq<Op>, fuel: nat): Option<State>
    decreases |ops|
  {
    if ops == [] then Some(s)
    else
      var before := Replay(env, s, ops[..|ops| - 1], fuel);
      if before.None? then None
      else
        var r := Step(env, before.value, ops[|ops| - 1], fuel);
        if r.None? then None else Some(r.value.state)
  }

  /** `startBusinessInstance`: None when the version has no START node or activation never ends. */
  function Begin(env: Env, ctx: Context, fuel: nat): Option<State> {
    var start := StartNode(env.version.nodes);
    if start.None? then None else Drain(env, Fresh(ctx), [start.value], fuel)
  }

  /** A whole run: start, then the calls. */
  ghost function Exec(env: Env, ctx: Context, ops: seq<Op>, fuel: nat): Option<State> {
    var s := Begin(env, ctx, fuel);
    if s.None? then None else Replay(env, s.value, ops, fuel)
  }
}
