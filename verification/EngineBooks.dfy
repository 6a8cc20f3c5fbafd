/** Conservation of work: in every reachable state the event log and the task and approval rows
    agree, node by node and outcome by outcome. Counts are multiplicities in the tables. */
module EngineBooks {
  import opened Prelude
  import opened JsonTree
  import opened WorkflowGraph
  import opened Worklist
  import opened Engine
  import opened EngineInduction
  import opened EngineLifecycle

  function Places(ts: seq<Task>): (r: seq<Where>)
    ensures |r| == |ts| && forall i :: 0 <= i < |ts| ==> r[i] == ts[i].where
  {
    seq(|ts|, i requires 0 <= i < |ts| => ts[i].where)
  }

  function Marks(ts: seq<Task>): (r: seq<(Where, TaskStatus)>)
    ensures |r| == |ts| && forall i :: 0 <= i < |ts| ==> r[i] == (ts[i].where, ts[i].status)
  {
    seq(|ts|, i requires 0 <= i < |ts| => (ts[i].where, ts[i].status))
  }

  function Posts(aps: seq<Approval>): (r: seq<string>)
    ensures |r| == |aps| && forall i :: 0 <= i < |aps| ==> r[i] == aps[i].node
  {
    seq(|aps|, i requires 0 <= i < |aps| => aps[i].node)
  }

  function Verdicts(aps: seq<Approval>): (r: seq<(string, ApprovalStatus, Option<string>)>)
    ensures |r| == |aps| && forall i :: 0 <= i < |aps| ==> r[i] == (aps[i].node, aps[i].status, aps[i].sentBackTo)
  {
    seq(|aps|, i requires 0 <= i < |aps| => (aps[i].node, aps[i].status, aps[i].sentBackTo))
  }

  /** How often the log holds the event. */
  function Seen(log: seq<Event>, e: Event): nat {
    multiset(log)[e]
  }

  /** Task rows at a place, and those of them with a given status. */
  function RowsAt(s: State, w: Where): nat {
    multiset(Places(s.tasks))[w]
  }

  function RowsIn(s: State, w: Where, status: TaskStatus): nat {
    multiset(Marks(s.tasks))[(w, status)]
  }

  function ApprovalsAt(s: State, id: string): nat {
    multiset(Posts(s.approvals))[id]
  }

  function ApprovalsIn(s: State, id: string, status: ApprovalStatus, back: Option<string>): nat {
    multiset(Verdicts(s.approvals))[(id, status, back)]
  }

  /** The task rows at a place were each made by one event. */
  ghost predicate RowsMade(s: State, w: Where) {
    && (w.Graph? ==>
          Seen(s.log, NodeActivated(w.id, HumanTask)) + Seen(s.log, NodeActivated(w.id, FormFill)) == RowsAt(s, w))
    && (w.Side? ==>
          Seen(s.log, AdHocTaskCreated(w, true)) + Seen(s.log, AdHocTaskCreated(w, false)) == RowsAt(s, w))
  }

  /** Each closed row was closed by one event, except those a cancel withdrew. */
  ghost predicate RowsClosed(s: State, w: Where) {
    && Seen(s.log, TaskCompleted(w)) == RowsIn(s, w, Finished)
    && (forall t :: Seen(s.log, TaskSentBack(w, t)) == RowsIn(s, w, SentBack(t)))
    && (s.status != Cancelled ==> RowsIn(s, w, Withdrawn) == 0)
  }

  /** The task rows at a place account for its events, one for one. */
  ghost predicate TaskBooks(s: State, w: Where) {
    RowsMade(s, w) && RowsClosed(s, w)
  }

  /** The approval rows at a node account for its events. Cancelling an instance turns pending
      rows into REJECTED without an event. */
  ghost predicate ApprovalBooks(s: State, id: string) {
    && Seen(s.log, NodeActivated(id, ApprovalGate)) == ApprovalsAt(s, id)
    && (forall d :: d in {Approved, ApprovedWithConditions, NeedsMoreInformation, Deferred, Escalated} ==>
          Seen(s.log, ApprovalDecided(id, d)) == ApprovalsIn(s, id, d, None))
    && Seen(s.log, ApprovalDecided(id, Rejected)) <= ApprovalsIn(s, id, Rejected, None)
    && (s.status != Cancelled ==> Seen(s.log, ApprovalDecided(id, Rejected)) == ApprovalsIn(s, id, Rejected, None))
    && (forall t :: Seen(s.log, ApprovalSentBack(id, t)) == ApprovalsIn(s, id, NeedsMoreInformation, Some(t)))
    && (forall t :: ApprovalsIn(s, id, Pending, Some(t)) == 0)
  }

  ghost predicate Books(s: State) {
    && (forall w :: TaskBooks(s, w))
    && (forall id :: ApprovalBooks(s, id))
  }

  /** Events no book counts. */
  predicate Quiet(e: Event) {
    !(e.NodeActivated? || e.TaskCompleted? || e.TaskSentBack? || e.ApprovalDecided?
      || e.ApprovalSentBack? || e.AdHocTaskCreated?)
  }

  lemma {:induction false} QuietAttachments(id: string, atts: seq<Attachment>, trigger: Trigger)
    ensures forall e :: e in AttachmentEvents(id, atts, trigger) ==> Quiet(e)
  {
    if atts != [] {
      QuietAttachments(id, atts[1..], trigger);
    }
  }

  /** Two logs that differ by quiet events show the same counts. */
  ghost predicate SameLog(a: seq<Event>, b: seq<Event>) {
    forall e :: !Quiet(e) ==> Seen(a, e) == Seen(b, e)
  }

  lemma QuietLog(log: seq<Event>, more: seq<Event>)
    requires forall e :: e in more ==> Quiet(e)
    ensures SameLog(log + more, log)
  {
    forall e | !Quiet(e) ensures Seen(log + more, e) == Seen(log, e) {
      assert e !in more;
      assert multiset(more)[e] == 0;
    }
  }

  lemma {:induction false} SameCount<T>(xs: seq<T>, ys: seq<T>, y: T)
    requires |xs| == |ys| && forall i :: 0 <= i < |xs| ==> (xs[i] == y ==> ys[i] == y)
    ensures multiset(xs)[y] <= multiset(ys)[y]
    ensures (forall i :: 0 <= i < |xs| ==> (ys[i] == y ==> xs[i] == y)) ==> multiset(xs)[y] == multiset(ys)[y]
  {
    if xs != [] {
      var n := |xs| - 1;
      SameCount(xs[..n], ys[..n], y);
      assert xs == xs[..n] + [xs[n]] && ys == ys[..n] + [ys[n]];
    }
  }

  /** Row edits the books do not notice: open rows move among open statuses, and a cancelled
      instance withdraws open tasks and rejects pending approvals. */
  ghost predicate TaskEdited(a: Task, b: Task, cancelled: bool) {
    && a.where == b.where
    && (a.status == b.status || (IsOpen(a.status) && (IsOpen(b.status) || (cancelled && b.status == Withdrawn))))
  }

  ghost predicate ApprovalEdited(a: Approval, b: Approval, cancelled: bool) {
    && a.node == b.node && a.sentBackTo == b.sentBackTo
    && (a.status == b.status || (cancelled && a.status == Pending && b.status == Rejected))
  }

  ghost predicate Edited(a: State, b: State) {
    && |a.tasks| == |b.tasks| && |a.approvals| == |b.approvals|
    && (forall i :: 0 <= i < |a.tasks| ==> TaskEdited(a.tasks[i], b.tasks[i], b.status == Cancelled))
    && (forall i :: 0 <= i < |a.approvals| ==> ApprovalEdited(a.approvals[i], b.approvals[i], b.status == Cancelled))
    && (a.status == Cancelled ==> b.status == Cancelled)
    && SameLog(b.log, a.log)
  }

  lemma EditedRows(a: State, b: State, w: Where, st: TaskStatus)
    requires Edited(a, b) && !IsOpen(st) && (st == Withdrawn ==> b.status != Cancelled)
    ensures RowsIn(a, w, st) == RowsIn(b, w, st)
  {
    var ma, mb := Marks(a.tasks), Marks(b.tasks);
    forall i | 0 <= i < |ma| ensures ma[i] == (w, st) <==> mb[i] == (w, st) {
      assert TaskEdited(a.tasks[i], b.tasks[i], b.status == Cancelled);
    }
    SameCount(ma, mb, (w, st));
  }

  lemma EditedTaskBooks(a: State, b: State, w: Where)
    requires TaskBooks(a, w) && Edited(a, b)
    ensures TaskBooks(b, w)
  {
    assert Places(a.tasks) == Places(b.tasks) by {
      forall i | 0 <= i < |a.tasks| ensures Places(a.tasks)[i] == Places(b.tasks)[i] {
        assert TaskEdited(a.tasks[i], b.tasks[i], b.status == Cancelled);
      }
    }
    EditedRows(a, b, w, Finished);
    forall t ensures RowsIn(a, w, SentBack(t)) == RowsIn(b, w, SentBack(t)) {
      EditedRows(a, b, w, SentBack(t));
    }
    if b.status != Cancelled {
      EditedRows(a, b, w, Withdrawn);
    }
  }

  lemma EditedRulings(a: State, b: State, id: string, d: ApprovalStatus, back: Option<string>)
    requires Edited(a, b)
    ensures d != Pending ==> ApprovalsIn(a, id, d, back) <= ApprovalsIn(b, id, d, back)
    ensures d == Pending ==> ApprovalsIn(b, id, d, back) <= ApprovalsIn(a, id, d, back)
    ensures d != Pending && (d != Rejected || b.status != Cancelled) ==>
              ApprovalsIn(a, id, d, back) == ApprovalsIn(b, id, d, back)
  {
    var va, vb := Verdicts(a.approvals), Verdicts(b.approvals);
    forall i | 0 <= i < |va|
      ensures d != Pending ==> (va[i] == (id, d, back) ==> vb[i] == (id, d, back))
      ensures d != Rejected || b.status != Cancelled ==> (vb[i] == (id, d, back) ==> va[i] == (id, d, back))
    {
      assert ApprovalEdited(a.approvals[i], b.approvals[i], b.status == Cancelled);
    }
    if d == Pending { SameCount(vb, va, (id, d, back)); } else { SameCount(va, vb, (id, d, back)); }
  }

  lemma EditedApprovalBooks(a: State, b: State, id: string)
    requires ApprovalBooks(a, id) && Edited(a, b)
    ensures ApprovalBooks(b, id)
  {
    assert Posts(a.approvals) == Posts(b.approvals) by {
      forall i | 0 <= i < |a.approvals| ensures Posts(a.approvals)[i] == Posts(b.approvals)[i] {
        assert ApprovalEdited(a.approvals[i], b.approvals[i], b.status == Cancelled);
      }
    }
    forall d, back { EditedRulings(a, b, id, d, back); }
  }

  lemma EditedBooks(a: State, b: State)
    requires Books(a) && Edited(a, b)
    ensures Books(b)
  {
    forall w ensures TaskBooks(b, w) { EditedTaskBooks(a, b, w); }
    forall id ensures ApprovalBooks(b, id) { EditedApprovalBooks(a, b, id); }
  }

  lemma AddTask(s: State, t: Task, b: State)
    requires b.tasks == s.tasks + [t]
    ensures Places(b.tasks) == Places(s.tasks) + [t.where] && Marks(b.tasks) == Marks(s.tasks) + [(t.where, t.status)]
  {}

  lemma AddApproval(s: State, a: Approval, b: State)
    requires b.approvals == s.approvals + [a]
    ensures Posts(b.approvals) == Posts(s.approvals) + [a.node]
    ensures Verdicts(b.approvals) == Verdicts(s.approvals) + [(a.node, a.status, a.sentBackTo)]
  {}

  /** The log gained `e` and some quiet events. */
  ghost predicate Logged(a: State, b: State, e: Event) {
    SameLog(b.log, a.log + [e])
  }

  lemma SeenOne(log: seq<Event>, e: Event, q: Event)
    ensures Seen(log + [e], q) == Seen(log, q) + (if q == e then 1 else 0)
  {}

  lemma SeenAfter(log: seq<Event>, e: Event)
    ensures forall q :: Seen(log + [e], q) == Seen(log, q) + if q == e then 1 else 0
  {
    forall q ensures Seen(log + [e], q) == Seen(log, q) + (if q == e then 1 else 0) { SeenOne(log, e, q); }
  }

  /** One more open task row. */
  lemma RowAdded(a: State, t: Task, b: State, w: Where)
    requires b.tasks == a.tasks + [t] && t.status == Open
    ensures RowsAt(b, w) == RowsAt(a, w) + if w == t.where then 1 else 0
    ensures forall st :: st != Open ==> RowsIn(b, w, st) == RowsIn(a, w, st)
  {
    AddTask(a, t, b);
    forall st | st != Open ensures RowsIn(b, w, st) == RowsIn(a, w, st) {}
  }

  /** Entering a node that makes no row. */
  lemma BookPassage(a: State, b: State, e: Event)
    requires Books(a) && Logged(a, b, e) && a.status != Cancelled
    requires e.NodeActivated? && e.base !in {HumanTask, FormFill, ApprovalGate}
    requires b.tasks == a.tasks && b.approvals == a.approvals
    ensures Books(b)
  {
    forall w ensures TaskBooks(b, w) {
      assert TaskBooks(a, w);
      forall q | q != e && !Quiet(q) ensures Seen(b.log, q) == Seen(a.log, q) { SeenOne(a.log, e, q); }
    }
    forall id ensures ApprovalBooks(b, id) {
      assert ApprovalBooks(a, id);
      forall q | q != e && !Quiet(q) ensures Seen(b.log, q) == Seen(a.log, q) { SeenOne(a.log, e, q); }
    }
  }

  lemma TaskRowBooks(a: State, b: State, e: Event, w: Where)
    requires TaskBooks(a, w) && Logged(a, b, e) && a.status != Cancelled
    requires e.NodeActivated? && e.base in {HumanTask, FormFill}
    requires b.tasks == a.tasks + [Task(Graph(e.node), Open, None, "", false, false)]
    ensures TaskBooks(b, w)
  {
    RowAdded(a, Task(Graph(e.node), Open, None, "", false, false), b, w);
    forall q | !Quiet(q) ensures Seen(b.log, q) == Seen(a.log, q) + (if q == e then 1 else 0) { SeenOne(a.log, e, q); }
  }

  /** Entering a task node makes one open row there. */
  lemma BookTaskRow(a: State, b: State, e: Event)
    requires Books(a) && Logged(a, b, e) && a.status != Cancelled
    requires e.NodeActivated? && e.base in {HumanTask, FormFill}
    requires b.tasks == a.tasks + [Task(Graph(e.node), Open, None, "", false, false)] && b.approvals == a.approvals
    ensures Books(b)
  {
    forall w ensures TaskBooks(b, w) {
      TaskRowBooks(a, b, e, w);
    }
    forall id ensures ApprovalBooks(b, id) {
      assert ApprovalBooks(a, id);
      forall q | q != e && !Quiet(q) ensures Seen(b.log, q) == Seen(a.log, q) { SeenOne(a.log, e, q); }
    }
  }

  lemma ApprovalRowBooks(a: State, b: State, e: Event, id: string)
    requires ApprovalBooks(a, id) && Logged(a, b, e) && a.status != Cancelled
    requires e.NodeActivated? && e.base == ApprovalGate
    requires b.approvals == a.approvals + [Approval(e.node, Pending, None, "")]
    ensures ApprovalBooks(b, id)
  {
    AddApproval(a, Approval(e.node, Pending, None, ""), b);
    forall q | !Quiet(q) ensures Seen(b.log, q) == Seen(a.log, q) + (if q == e then 1 else 0) { SeenOne(a.log, e, q); }
  }

  /** Entering an approval node makes one pending row there. */
  lemma BookApprovalRow(a: State, b: State, e: Event)
    requires Books(a) && Logged(a, b, e) && a.status != Cancelled
    requires e.NodeActivated? && e.base == ApprovalGate
    requires b.tasks == a.tasks && b.approvals == a.approvals + [Approval(e.node, Pending, None, "")]
    ensures Books(b)
  {
    forall w ensures TaskBooks(b, w) {
      assert TaskBooks(a, w);
      forall q | q != e && !Quiet(q) ensures Seen(b.log, q) == Seen(a.log, q) { SeenOne(a.log, e, q); }
    }
    forall id ensures ApprovalBooks(b, id) {
      ApprovalRowBooks(a, b, e, id);
    }
  }

  /** Beyond the activation event, entering a node logs quiet events only. */
  lemma EnterLogged(env: Env, s: State, n: Node)
    ensures Logged(s, Enter(env, s, n), NodeActivated(n.id, BaseOf(env, n)))
  {
    EnterLog(env, s, n);
    QuietAttachments(n.id, n.attachments, OnActivate);
    assert forall e :: e in EnterTail(env, n) ==> Quiet(e);
    QuietLog(s.log + [NodeActivated(n.id, BaseOf(env, n))], EnterTail(env, n));
  }

  lemma EnterBooks(env: Env, s: State, n: Node)
    requires Books(s) && s.status != Cancelled
    ensures Books(Enter(env, s, n)) && Enter(env, s, n).status != Cancelled
  {
    var e := NodeActivated(n.id, BaseOf(env, n));
    var s' := Enter(env, s, n);
    EnterLogged(env, s, n);
    match BaseOf(env, n) {
      case HumanTask => BookTaskRow(s, s', e);
      case FormFill => BookTaskRow(s, s', e);
      case ApprovalGate => BookApprovalRow(s, s', e);
      case _ => BookPassage(s, s', e);
    }
  }

  ghost function BooksIn(): State -> bool {
    (s: State) => Books(s) && s.status != Cancelled
  }

  lemma DrainBooks(env: Env, s: State, work: seq<Node>, fuel: nat)
    requires Books(s) && s.status != Cancelled && AllGood(FoundIn(env), work) && Drain(env, s, work, fuel).Some?
    ensures Books(Drain(env, s, work, fuel).value) && Drain(env, s, work, fuel).value.status != Cancelled
  {
    forall x: State, n: Node | BooksIn()(x) && Found(env, n) ensures BooksIn()(Enter(env, x, n)) {
      EnterBooks(env, x, n);
    }
    DrainKeeps(env, s, work, fuel, BooksIn());
  }

  /** Replacing one entry moves one unit of multiplicity. */
  lemma Replace<T>(xs: seq<T>, i: nat, x: T, y: T)
    requires i < |xs|
    ensures multiset(xs[i := x])[y]
            == multiset(xs)[y] - (if y == xs[i] then 1 else 0) + (if y == x then 1 else 0)
  {
    assert xs == xs[..i] + [xs[i]] + xs[i + 1..];
    assert xs[i := x] == xs[..i] + [x] + xs[i + 1..];
  }

  /** Task rows after one open row has been closed. */
  lemma CloseRows(s: State, i: nat, status: TaskStatus, w: Where, st: TaskStatus)
    requires i < |s.tasks|
    ensures RowsAt(CloseTask(s, i, status), w) == RowsAt(s, w)
    ensures RowsIn(CloseTask(s, i, status), w, st) == RowsIn(s, w, st)
              - (if (w, st) == (s.tasks[i].where, s.tasks[i].status) then 1 else 0)
              + (if (w, st) == (s.tasks[i].where, status) then 1 else 0)
  {
    var s' := CloseTask(s, i, status);
    assert Marks(s'.tasks) == Marks(s.tasks)[i := (s.tasks[i].where, status)];
    Replace(Marks(s.tasks), i, (s.tasks[i].where, status), (w, st));
    assert Places(s'.tasks) == Places(s.tasks);
  }

  predicate Matches(status: TaskStatus, w: Where, e: Event) {
    match status
    case Finished => e == TaskCompleted(w)
    case SentBack(t) => e == TaskSentBack(w, t)
    case _ => false
  }

  lemma ClosedRows(s: State, i: nat, status: TaskStatus, s': State, w: Where)
    requires i < |s.tasks| && IsOpen(s.tasks[i].status) && !IsOpen(status) && s'.tasks == CloseTask(s, i, status).tasks
    ensures RowsAt(s', w) == RowsAt(s, w)
    ensures forall st :: !IsOpen(st) ==>
              RowsIn(s', w, st) == RowsIn(s, w, st) + if w == s.tasks[i].where && st == status then 1 else 0
  {
    CloseRows(s, i, status, w, status);
    forall st | !IsOpen(st)
      ensures RowsIn(s', w, st) == RowsIn(s, w, st) + if w == s.tasks[i].where && st == status then 1 else 0
    {
      CloseRows(s, i, status, w, st);
    }
  }

  /** The closing event is about the row that closes, and says how. */
  lemma MatchedEvents(status: TaskStatus, at: Where, e: Event, w: Where)
    requires Matches(status, at, e)
    ensures e == TaskCompleted(w) <==> w == at && status == Finished
    ensures forall t :: e == TaskSentBack(w, t) <==> w == at && status == SentBack(t)
    ensures !e.NodeActivated? && !e.AdHocTaskCreated? && status != Withdrawn && !IsOpen(status)
  {}

  lemma StillMade(s: State, i: nat, status: TaskStatus, e: Event, s': State, w: Where)
    requires RowsMade(s, w) && i < |s.tasks| && IsOpen(s.tasks[i].status) && Matches(status, s.tasks[i].where, e)
    requires s' == Emit(CloseTask(s, i, status), e)
    ensures RowsMade(s', w)
  {
    MatchedEvents(status, s.tasks[i].where, e, w);
    SeenAfter(s.log, e);
    ClosedRows(s, i, status, s', w);
  }

  lemma NowClosed(s: State, i: nat, status: TaskStatus, e: Event, s': State, w: Where)
    requires RowsClosed(s, w) && i < |s.tasks| && IsOpen(s.tasks[i].status) && Matches(status, s.tasks[i].where, e)
    requires s' == Emit(CloseTask(s, i, status), e)
    ensures RowsClosed(s', w)
  {
    MatchedEvents(status, s.tasks[i].where, e, w);
    SeenOne(s.log, e, TaskCompleted(w));
    ClosedRows(s, i, status, s', w);
    forall t ensures Seen(s'.log, TaskSentBack(w, t)) == RowsIn(s', w, SentBack(t)) {
      SeenOne(s.log, e, TaskSentBack(w, t));
      assert !IsOpen(SentBack(t));
    }
  }

  lemma CloseTaskBooks(s: State, i: nat, status: TaskStatus, e: Event, s': State, w: Where)
    requires TaskBooks(s, w) && i < |s.tasks| && IsOpen(s.tasks[i].status) && Matches(status, s.tasks[i].where, e)
    requires s' == Emit(CloseTask(s, i, status), e)
    ensures TaskBooks(s', w)
  {
    StillMade(s, i, status, e, s', w);
    NowClosed(s, i, status, e, s', w);
  }

  /** An event that is not about approvals leaves the approval books alone. */
  lemma OtherApprovalBooks(s: State, s': State, e: Event, id: string)
    requires ApprovalBooks(s, id) && s'.approvals == s.approvals && s'.log == s.log + [e]
    requires e.TaskCompleted? || e.TaskSentBack? || e.AdHocTaskCreated?
    requires s.status == Cancelled ==> s'.status == Cancelled
    ensures ApprovalBooks(s', id)
  {
    forall q | q != e ensures Seen(s'.log, q) == Seen(s.log, q) { SeenOne(s.log, e, q); }
  }

  lemma OtherTaskBooks(s: State, s': State, e: Event, w: Where)
    requires TaskBooks(s, w) && s'.tasks == s.tasks && s'.log == s.log + [e]
    requires e.ApprovalDecided? || e.ApprovalSentBack?
    requires s.status == Cancelled ==> s'.status == Cancelled
    ensures TaskBooks(s', w)
  {
    forall q | q != e ensures Seen(s'.log, q) == Seen(s.log, q) { SeenOne(s.log, e, q); }
  }

  /** Closing an open task row together with its event. */
  lemma CloseBooks(s: State, i: nat, status: TaskStatus, e: Event)
    requires Books(s) && i < |s.tasks| && IsOpen(s.tasks[i].status) && Matches(status, s.tasks[i].where, e)
    ensures Books(Emit(CloseTask(s, i, status), e))
  {
    var s' := Emit(CloseTask(s, i, status), e);
    forall w ensures TaskBooks(s', w) {
      CloseTaskBooks(s, i, status, e, s', w);
    }
    forall id ensures ApprovalBooks(s', id) {
      OtherApprovalBooks(s, s', e, id);
    }
  }

  function Ruled(s: State, i: nat, d: ApprovalStatus, back: Option<string>): State
    requires i < |s.approvals|
  {
    s.(approvals := s.approvals[i := s.approvals[i].(status := d,
                                    sentBackTo := if back.Some? then back else s.approvals[i].sentBackTo)])
  }

  /** Approval rows after one row has been ruled on. */
  lemma RuledRows(s: State, i: nat, d: ApprovalStatus, back: Option<string>,
                  id: string, st: ApprovalStatus, b: Option<string>)
    requires i < |s.approvals| && s.approvals[i].sentBackTo == None
    ensures ApprovalsAt(Ruled(s, i, d, back), id) == ApprovalsAt(s, id)
    ensures ApprovalsIn(Ruled(s, i, d, back), id, st, b) == ApprovalsIn(s, id, st, b)
              - (if (id, st, b) == (s.approvals[i].node, s.approvals[i].status, None) then 1 else 0)
              + (if (id, st, b) == (s.approvals[i].node, d, back) then 1 else 0)
  {
    var s' := Ruled(s, i, d, back);
    var x := (s.approvals[i].node, d, back);
    assert Verdicts(s'.approvals) == Verdicts(s.approvals)[i := x];
    Replace(Verdicts(s.approvals), i, x, (id, st, b));
    assert Posts(s'.approvals) == Posts(s.approvals);
  }

  lemma PendingFresh(s: State, i: nat)
    requires Books(s) && i < |s.approvals| && s.approvals[i].status == Pending
    ensures s.approvals[i].sentBackTo == None
  {
    var v := Verdicts(s.approvals);
    assert v[i] in multiset(v);
    assert ApprovalBooks(s, s.approvals[i].node);
  }

  predicate Ruling(d: ApprovalStatus, back: Option<string>, id: string, e: Event) {
    if back.None? then e == ApprovalDecided(id, d)
    else d == NeedsMoreInformation && e == ApprovalSentBack(id, back.value)
  }

  /** Counts by verdict move with their events. */
  lemma RuledCounts(s: State, i: nat, d: ApprovalStatus, back: Option<string>, e: Event, s': State, id: string)
    requires i < |s.approvals| && s.approvals[i].status == Pending
    requires s.approvals[i].sentBackTo == None && Ruling(d, back, s.approvals[i].node, e)
    requires s' == Emit(Ruled(s, i, d, back), e)
    ensures ApprovalsAt(s', id) == ApprovalsAt(s, id)
    ensures forall st :: st != Pending ==>
              ApprovalsIn(s', id, st, None) - ApprovalsIn(s, id, st, None)
              == Seen(s'.log, ApprovalDecided(id, st)) - Seen(s.log, ApprovalDecided(id, st))
  {
    RuledRows(s, i, d, back, id, Pending, None);
    forall st | st != Pending
      ensures ApprovalsIn(s', id, st, None) - ApprovalsIn(s, id, st, None)
              == Seen(s'.log, ApprovalDecided(id, st)) - Seen(s.log, ApprovalDecided(id, st))
    {
      RuledRows(s, i, d, back, id, st, None);
      SeenOne(s.log, e, ApprovalDecided(id, st));
    }
  }

  lemma RuledBooks(s: State, i: nat, d: ApprovalStatus, back: Option<string>, e: Event, s': State, id: string)
    requires ApprovalBooks(s, id) && i < |s.approvals| && s.approvals[i].status == Pending
    requires s.approvals[i].sentBackTo == None && Ruling(d, back, s.approvals[i].node, e)
    requires s' == Emit(Ruled(s, i, d, back), e)
    ensures ApprovalBooks(s', id)
  {
    var c := Ruled(s, i, d, back);
    assert s'.approvals == c.approvals;
    RuledCounts(s, i, d, back, e, s', id);
    forall t ensures Seen(s'.log, ApprovalSentBack(id, t)) == ApprovalsIn(s', id, NeedsMoreInformation, Some(t)) {
      RuledRows(s, i, d, back, id, NeedsMoreInformation, Some(t));
      SeenOne(s.log, e, ApprovalSentBack(id, t));
      assert ApprovalsIn(s', id, NeedsMoreInformation, Some(t)) == ApprovalsIn(c, id, NeedsMoreInformation, Some(t));
    }
    forall t ensures ApprovalsIn(s', id, Pending, Some(t)) == 0 {
      RuledRows(s, i, d, back, id, Pending, Some(t));
      assert ApprovalsIn(s', id, Pending, Some(t)) == ApprovalsIn(c, id, Pending, Some(t));
    }
    SeenOne(s.log, e, NodeActivated(id, ApprovalGate));
  }

  /** Deciding a pending approval row, or sending it back, together with its event. */
  lemma DecideBooks(s: State, i: nat, d: ApprovalStatus, back: Option<string>, e: Event)
    requires Books(s) && i < |s.approvals| && s.approvals[i].status == Pending
    requires Ruling(d, back, s.approvals[i].node, e)
    ensures Books(Emit(Ruled(s, i, d, back), e))
  {
    var s' := Emit(Ruled(s, i, d, back), e);
    PendingFresh(s, i);
    forall w ensures TaskBooks(s', w) {
      OtherTaskBooks(s, s', e, w);
    }
    forall id ensures ApprovalBooks(s', id) {
      RuledBooks(s, i, d, back, e, s', id);
    }
  }

  // --- Calls ---

  /** A call that only edits rows and logs one quiet event. */
  lemma QuietEdit(a: State, b: State, e: Event)
    requires Books(a) && Quiet(e) && Edited(a, b.(log := a.log)) && b.log == a.log + [e]
    ensures Books(b)
  {
    QuietLog(a.log, [e]);
    EditedBooks(a, b);
  }

  lemma ResumeBooks(s: State)
    requires Books(s)
    ensures Books(Resume(s)) && Books(Pause(s))
  {
    if s.status == Paused { QuietEdit(s, Resume(s), InstanceResumed); }
    if s.status == Running { QuietEdit(s, Pause(s), InstancePaused); }
  }

  lemma DepartBooks(env: Env, s: State, n: Node, output: Context)
    requires Books(s)
    ensures Books(Depart(env, s, n, output)) && Depart(env, s, n, output).status == s.status
  {
    QuietAttachments(n.id, n.attachments, OnComplete);
    QuietLog(s.log, DepartEvents(n));
    EditedBooks(s, Depart(env, s, n, output));
  }

  lemma AdvanceBooks(env: Env, s: State, id: string, output: Context, fuel: nat)
    requires Books(s) && s.status != Cancelled && Advance(env, s, id, output, fuel).Some?
    ensures Books(Advance(env, s, id, output, fuel).value)
  {
    if s.status == Running && Lookup(env, id).Some? {
      DepartBooks(env, s, Lookup(env, id).value, output);
      var s1 := Depart(env, s, Lookup(env, id).value, output);
      PickedFound(env, s1.context, id);
      DrainBooks(env, s1, PickTargets(env, s1.context, id), fuel);
    }
  }

  lemma CompleteBooks(env: Env, s: State, i: nat, formData: Option<Context>, output: Option<Context>, fuel: nat)
    requires Books(s) && Sealed(s) && CompleteTask(env, s, i, formData, output, fuel).Some?
    ensures Books(CompleteTask(env, s, i, formData, output, fuel).value.state)
  {
    if i < |s.tasks| && IsOpen(s.tasks[i].status) && (IsBlockingSide(s.tasks[i]) || s.status != Paused) {
      var t := s.tasks[i];
      CloseBooks(s, i, Finished, TaskCompleted(t.where));
      ResumeBooks(Finish(s, i));
      if t.where.Graph? {
        AdvanceBooks(env, Finish(s, i), t.where.id, OutputOf(formData, output), fuel);
      }
    }
  }

  lemma DecisionBooks(env: Env, s: State, i: nat, d: ApprovalStatus, conditions: Option<string>,
                      notes: Option<string>, fuel: nat)
    requires Books(s) && Sealed(s) && Decide(env, s, i, d, conditions, notes, fuel).Some?
    ensures Books(Decide(env, s, i, d, conditions, notes, fuel).value.state)
  {
    if i < |s.approvals| && s.status != Paused && s.approvals[i].status == Pending {
      var a := s.approvals[i];
      var s1 := Emit(Ruled(s, i, d, None), ApprovalDecided(a.node, d));
      DecideBooks(s, i, d, None, ApprovalDecided(a.node, d));
      if Settles(d) {
        AdvanceBooks(env, s1, a.node, DecisionOutput(d, conditions, notes), fuel);
      }
    }
  }

  lemma RewindBooks(env: Env, s: State, source: string, target: string, e: Event, fuel: nat)
    requires Books(Emit(s, e)) && s.status != Cancelled && ValidTarget(env, target)
    requires Drain(env, Rewind(env, s, source, target, e), [Lookup(env, target).value], fuel).Some?
    ensures Books(Drain(env, Rewind(env, s, source, target, e), [Lookup(env, target).value], fuel).value)
  {
    var s1 := Rewind(env, s, source, target, e);
    EditedBooks(Emit(s, e), s1);
    assert AllGood(FoundIn(env), [Lookup(env, target).value]);
    DrainBooks(env, s1, [Lookup(env, target).value], fuel);
  }

  lemma SendBackTaskBooks(env: Env, s: State, i: nat, target: string, fuel: nat)
    requires Books(s) && Sealed(s) && SendBackTask(env, s, i, target, fuel).Some?
    ensures Books(SendBackTask(env, s, i, target, fuel).value.state)
  {
    if i < |s.tasks| && IsOpen(s.tasks[i].status) && s.status != Paused && ValidTarget(env, target) {
      var t := s.tasks[i];
      CloseBooks(s, i, SentBack(target), TaskSentBack(t.where, target));
      RewindBooks(env, CloseTask(s, i, SentBack(target)), t.where.id, target, TaskSentBack(t.where, target), fuel);
    }
  }

  lemma SendBackApprovalBooks(env: Env, s: State, i: nat, target: string, fuel: nat)
    requires Books(s) && Sealed(s) && SendBackApproval(env, s, i, target, fuel).Some?
    ensures Books(SendBackApproval(env, s, i, target, fuel).value.state)
  {
    if i < |s.approvals| && s.approvals[i].status == Pending && s.status != Paused && ValidTarget(env, target) {
      var a := s.approvals[i];
      var e := ApprovalSentBack(a.node, target);
      DecideBooks(s, i, NeedsMoreInformation, Some(target), e);
      RewindBooks(env, Ruled(s, i, NeedsMoreInformation, Some(target)), a.node, target, e, fuel);
    }
  }

  lemma SideRowBooks(a: State, b: State, w0: Where, blocking: bool, t: Task, w: Where)
    requires TaskBooks(a, w) && w0.Side? && t.where == w0 && t.status == Open
    requires b == Emit(a.(tasks := a.tasks + [t]), AdHocTaskCreated(w0, blocking))
    ensures TaskBooks(b, w)
  {
    SideRowMade(a, b, w0, blocking, t, w);
    SideRowClosed(a, b, w0, blocking, t, w);
  }

  lemma SideRowMade(a: State, b: State, w0: Where, blocking: bool, t: Task, w: Where)
    requires RowsMade(a, w) && w0.Side? && t.where == w0 && t.status == Open
    requires b == Emit(a.(tasks := a.tasks + [t]), AdHocTaskCreated(w0, blocking))
    ensures RowsMade(b, w)
  {
    var e := AdHocTaskCreated(w0, blocking);
    RowAdded(a, t, b, w);
    if w.Graph? {
      SeenOne(a.log, e, NodeActivated(w.id, HumanTask));
      SeenOne(a.log, e, NodeActivated(w.id, FormFill));
    } else {
      SeenOne(a.log, e, AdHocTaskCreated(w, true));
      SeenOne(a.log, e, AdHocTaskCreated(w, false));
    }
  }

  lemma SideRowClosed(a: State, b: State, w0: Where, blocking: bool, t: Task, w: Where)
    requires RowsClosed(a, w) && t.status == Open
    requires b == Emit(a.(tasks := a.tasks + [t]), AdHocTaskCreated(w0, blocking))
    ensures RowsClosed(b, w)
  {
    var e := AdHocTaskCreated(w0, blocking);
    RowAdded(a, t, b, w);
    SeenOne(a.log, e, TaskCompleted(w));
    forall back ensures Seen(b.log, TaskSentBack(w, back)) == RowsIn(b, w, SentBack(back)) {
      SeenOne(a.log, e, TaskSentBack(w, back));
    }
  }

  lemma AdHocBooks(s: State, token: string, blocking: bool, assignee: string)
    requires Books(s)
    ensures Books(CreateAdHoc(s, token, blocking, assignee).state)
  {
    if !Ended(s.status) {
      var w0 := Side("adhoc-" + token);
      var t := Task(w0, Open, None, assignee, blocking, false);
      var e := AdHocTaskCreated(w0, blocking);
      var s1 := Emit(s.(tasks := s.tasks + [t]), e);
      forall w ensures TaskBooks(s1, w) { SideRowBooks(s, s1, w0, blocking, t, w); }
      forall id ensures ApprovalBooks(s1, id) { OtherApprovalBooks(s, s1, e, id); }
      ResumeBooks(s1);
    }
  }

  lemma ReassignBooks(s: State, i: nat, assignee: string)
    requires Books(s)
    ensures Books(ReassignTask(s, i, assignee).state)
  {
    if i < |s.tasks| && IsOpen(s.tasks[i].status) {
      QuietEdit(s, ReassignTask(s, i, assignee).state, TaskReassigned(s.tasks[i].where));
    }
  }

  lemma FinishBooks(s: State, i: nat)
    requires Books(s) && i < |s.tasks| && IsOpen(s.tasks[i].status)
    ensures Books(Finish(s, i))
  {
    CloseBooks(s, i, Finished, TaskCompleted(s.tasks[i].where));
  }

  lemma StampBooks(s: State, k: nat)
    requires Books(s) && k < |s.timers|
    ensures Books(Stamp(s, k))
  {
    EditedBooks(s, Stamp(s, k));
  }

  lemma BlockedBooks(env: Env, s: State, n: Node)
    requires Books(s)
    ensures Books(FireAttachments(Emit(s, NodeCompleted(n.id)), n, OnComplete))
  {
    var s' := FireAttachments(Emit(s, NodeCompleted(n.id)), n, OnComplete);
    QuietAttachments(n.id, n.attachments, OnComplete);
    var more := [NodeCompleted(n.id)] + AttachmentEvents(n.id, n.attachments, OnComplete);
    assert s'.log == s.log + more;
    QuietLog(s.log, more);
    EditedBooks(s, s');
  }

  lemma AutoCompleteBooks(env: Env, s: State, i: nat)
    requires Books(s) && i < |s.tasks| && IsOpen(s.tasks[i].status)
    ensures Books(CompleteByTimer(env, s, i).state)
  {
    var s1 := Finish(s, i);
    FinishBooks(s, i);
    ResumeBooks(s1);
    if Lookup(env, s.tasks[i].where.id).Some? {
      BlockedBooks(env, s1, Lookup(env, s.tasks[i].where.id).value);
    }
  }

  lemma SweepBooks(env: Env, s: State, k: nat, delivered: bool)
    requires Books(s)
    ensures Books(SweepTimer(env, s, k, delivered).state)
  {
    if k < |s.timers| && Armed(s.timers[k]) {
      var row := s.timers[k];
      var s1 := Emit(s, AttachedTimerFired(row.node, k));
      QuietEdit(s, s1, AttachedTimerFired(row.node, k));
      var open := LatestOpen(s.tasks, row.node);
      if open.Some? {
        if row.escalateTo.Some? {
          ReassignBooks(s1, open.value, row.escalateTo.value);
        }
        AutoCompleteBooks(env, s1, open.value);
      }
      var r := FireOne(env, s, k, delivered);
      assert Books(r.state);
      StampBooks(r.state, k);
    }
  }

  lemma OverdueBooks(env: Env, s: State, i: nat, sent: nat)
    requires Books(s)
    ensures Books(SweepOverdue(env, s, i, sent).state)
  {
    if i < |s.tasks| && IsOpen(s.tasks[i].status) && !s.tasks[i].overdueNotified {
      var node := Lookup(env, s.tasks[i].where.id);
      var s' := SweepOverdue(env, s, i, sent).state;
      if node.Some? {
        var all := AttachmentEvents(node.value.id, node.value.attachments, OnOverdue);
        QuietAttachments(node.value.id, node.value.attachments, OnOverdue);
        var more := if sent < |all| then all[..sent] else all;
        assert forall e :: e in more ==> e in all;
        QuietLog(s.log, more);
      }
      EditedBooks(s, s');
    }
  }

  predicate PlainEdit(op: Op) {
    op.DoClaim? || op.DoReassignApproval? || op.DoCancel? || op.DoUpdateContext? || op.DoRemoveKeys? || op.DoAttach?
    || op.DoDetach? || op.DoNote?
  }

  /** The one event a plain edit logs. */
  function EditEvent(s: State, op: Op): Event
    requires PlainEdit(op)
  {
    match op
    case DoClaim(i, _) => TaskClaimed(if i < |s.tasks| then s.tasks[i].where else Side(""))
    case DoReassignApproval(i, _) => ApprovalReassigned(if i < |s.approvals| then s.approvals[i].node else "")
    case DoCancel => InstanceCancelled
    case DoAttach(_, _) => DocumentAttached
    case DoDetach(_) => DocumentRemoved
    case DoNote => NoteAdded
    case _ => ContextUpdated
  }

  /** A plain edit logs at most that event, and leaves metadata and the marking alone. */
  lemma PlainEditLog(env: Env, s: State, op: Op, fuel: nat)
    requires PlainEdit(op) && Step(env, s, op, fuel).Some?
    ensures var t := Step(env, s, op, fuel).value.state;
            && t.metadata == s.metadata && (t.log == s.log || t.log == s.log + [EditEvent(s, op)])
            && (t.status == s.status || t.status == Cancelled)
  {}

  lemma PlainEditBooks(env: Env, s: State, op: Op, fuel: nat)
    requires Books(s) && PlainEdit(op) && Step(env, s, op, fuel).Some?
    ensures Books(Step(env, s, op, fuel).value.state)
  {
    var s' := Step(env, s, op, fuel).value.state;
    if s' != s {
      QuietEdit(s, s', EditEvent(s, op));
    }
  }

  lemma WorkBooks(env: Env, s: State, op: Op, fuel: nat)
    requires Books(s) && Sealed(s) && MovesOn(op) && Step(env, s, op, fuel).Some?
    ensures Books(Step(env, s, op, fuel).value.state)
  {
    match op {
      case DoComplete(i, formData, output) => CompleteBooks(env, s, i, formData, output, fuel);
      case DoDecide(i, d, conditions, notes) => DecisionBooks(env, s, i, d, conditions, notes, fuel);
      case DoSendBackTask(i, target) => SendBackTaskBooks(env, s, i, target, fuel);
      case DoSendBackApproval(i, target) => SendBackApprovalBooks(env, s, i, target, fuel);
    }
  }

  lemma SideBooks(env: Env, s: State, op: Op, fuel: nat)
    requires Books(s) && !MovesOn(op) && !PlainEdit(op) && Step(env, s, op, fuel).Some?
    ensures Books(Step(env, s, op, fuel).value.state)
  {
    match op {
      case DoReassignTask(i, assignee) => ReassignBooks(s, i, assignee);
      case DoAdHoc(token, blocking, assignee) => AdHocBooks(s, token, blocking, assignee);
      case DoPause => ResumeBooks(s);
      case DoResume => ResumeBooks(s);
      case DoSweepTimer(k, delivered) => SweepBooks(env, s, k, delivered);
      case DoSweepOverdue(i, sent) => OverdueBooks(env, s, i, sent);
    }
  }

  /** Every call keeps the books. */
  lemma StepBooks(env: Env, s: State, op: Op, fuel: nat)
    requires Books(s) && Sealed(s) && Step(env, s, op, fuel).Some?
    ensures Books(Step(env, s, op, fuel).value.state)
  {
    if MovesOn(op) {
      WorkBooks(env, s, op, fuel);
    } else if PlainEdit(op) {
      PlainEditBooks(env, s, op, fuel);
    } else {
      SideBooks(env, s, op, fuel);
    }
  }

  ghost function LedgerIn(): State -> bool {
    (s: State) => Books(s) && Sealed(s)
  }

  lemma FreshBooks(ctx: Context)
    ensures Books(Fresh(ctx))
  {
    var s := Fresh(ctx);
    assert Places(s.tasks) == [] && Marks(s.tasks) == [] && Posts(s.approvals) == [] && Verdicts(s.approvals) == [];
    assert s.log == [] + [InstanceStarted];
    forall e | !Quiet(e) ensures Seen(s.log, e) == 0 { SeenOne([], InstanceStarted, e); }
    forall w ensures TaskBooks(s, w) {}
    forall id ensures ApprovalBooks(s, id) {}
  }

  lemma BeginBooks(env: Env, ctx: Context, fuel: nat)
    requires Begin(env, ctx, fuel).Some?
    ensures Books(Begin(env, ctx, fuel).value) && Begin(env, ctx, fuel).value.status != Cancelled
  {
    var start := StartNode(env.version.nodes).value;
    assert AllGood(FoundIn(env), [start]);
    FreshBooks(ctx);
    DrainBooks(env, Fresh(ctx), [start], fuel);
  }

  lemma LedgerStep(env: Env, fuel: nat)
    ensures StepKeeps(env, fuel, LedgerIn())
  {
    forall s: State, op: Op | LedgerIn()(s) && Step(env, s, op, fuel).Some?
      ensures LedgerIn()(Step(env, s, op, fuel).value.state)
    {
      StepBooks(env, s, op, fuel);
      StepSealed(env, s, op, fuel);
    }
  }

  /** In every state of every run, the log and the rows agree. */
  lemma RunBooks(env: Env, ctx: Context, ops: seq<Op>, fuel: nat)
    requires Exec(env, ctx, ops, fuel).Some?
    ensures Books(Exec(env, ctx, ops, fuel).value) && Sealed(Exec(env, ctx, ops, fuel).value)
  {
    BeginBooks(env, ctx, fuel);
    LedgerStep(env, fuel);
    ReplayKeeps(env, Begin(env, ctx, fuel).value, ops, fuel, LedgerIn());
  }
}
