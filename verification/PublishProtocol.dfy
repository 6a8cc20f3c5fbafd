/** Publishing one template, by many at once. */
module PublishProtocol {
  // Statement by statement: an unlocked read, then lock, MAX, INSERT, UPDATE and COMMIT or ROLLBACK
  // (server/businessWorkflows.ts:306-343, 367-439).

  import opened Prelude

  type Draft = string

  datatype Version = Version(number: nat, content: Draft)

  /** How far one publisher has come. `seen` and `content` come from its unlocked read. */
  datatype Phase =
    | Idle
    | HasRead(seen: nat, content: Draft)
    | HasLock(seen: nat, content: Draft)
    | HasMax(seen: nat, content: Draft, max: nat)
    | Inserted(content: Draft, number: nat)
    | Updated(content: Draft, number: nat)

  /** Committed rows, the row lock, and the publishers; what a transaction has written but not
      committed is in its phase. `drafts` lists every draft the row has held. */
  datatype State = State(current: nat, draft: Draft, versions: seq<Version>, lock: int, phases: seq<Phase>,
                         drafts: seq<Draft>)

  const FREE := -1

  datatype Move =
    | Read(p: nat)
    | Lock(p: nat)
    | SelectMax(p: nat)
    | Insert(p: nat)
    | Update(p: nat)
    | Commit(p: nat)
    | Rollback(p: nat)
    | SaveDraft(content: Draft)

  function MaxNumber(vs: seq<Version>): (r: nat)
    ensures forall i :: 0 <= i < |vs| ==> vs[i].number <= r
  {
    if vs == [] then 0
    else
      var m := MaxNumber(vs[..|vs| - 1]);
      if vs[|vs| - 1].number > m then vs[|vs| - 1].number else m
  }

  predicate Taken(vs: seq<Version>, n: nat) {
    exists i :: 0 <= i < |vs| && vs[i].number == n
  }

  /** `Math.max(existingMax, tpl.currentVersion) + 1` */
  function NextVersion(max: nat, seen: nat): nat {
    (if max > seen then max else seen) + 1
  }

  predicate Holding(ph: Phase) {
    ph.HasLock? || ph.HasMax? || ph.Inserted? || ph.Updated?
  }

  predicate Enabled(s: State, m: Move) {
    match m
    case SaveDraft(_) => s.lock == FREE
    case Read(p) => p < |s.phases| && s.phases[p].Idle?
    case Lock(p) => p < |s.phases| && s.phases[p].HasRead? && s.lock == FREE
    case SelectMax(p) => p < |s.phases| && s.phases[p].HasLock?
    case Insert(p) => p < |s.phases| && s.phases[p].HasMax?
    case Update(p) => p < |s.phases| && s.phases[p].Inserted?
    case Commit(p) => p < |s.phases| && s.phases[p].Updated?
    case Rollback(p) => p < |s.phases| && Holding(s.phases[p])
  }

  /** The INSERT fails on the primary key when the number is taken. */
  predicate KeyViolation(s: State, p: nat)
    requires p < |s.phases| && s.phases[p].HasMax?
  {
    Taken(s.versions, NextVersion(s.phases[p].max, s.phases[p].seen))
  }

  function Next(s: State, m: Move): State
    requires Enabled(s, m)
  {
    match m
    case SaveDraft(content) => s.(draft := content, drafts := s.drafts + [content])
    case Read(p) => s.(phases := s.phases[p := HasRead(s.current, s.draft)])
    case Lock(p) =>
      var ph := s.phases[p];
      s.(phases := s.phases[p := HasLock(ph.seen, ph.content)], lock := p)
    case SelectMax(p) =>
      var ph := s.phases[p];
      s.(phases := s.phases[p := HasMax(ph.seen, ph.content, MaxNumber(s.versions))])
    case Insert(p) =>
      var ph := s.phases[p];
      if KeyViolation(s, p) then s.(phases := s.phases[p := Idle], lock := FREE)
      else s.(phases := s.phases[p := Inserted(ph.content, NextVersion(ph.max, ph.seen))])
    case Update(p) =>
      var ph := s.phases[p];
      s.(phases := s.phases[p := Updated(ph.content, ph.number)])
    case Commit(p) =>
      var ph := s.phases[p];
      s.(current := ph.number, versions := s.versions + [Version(ph.number, ph.content)],
         phases := s.phases[p := Idle], lock := FREE)
    case Rollback(p) => s.(phases := s.phases[p := Idle], lock := FREE)
  }

  /** The moves in order; a move that is not possible where it stands does not belong to a run. */
  predicate IsRun(s: State, moves: seq<Move>)
    decreases |moves|
  {
    moves == [] || (Enabled(s, moves[0]) && IsRun(Next(s, moves[0]), moves[1..]))
  }

  function After(s: State, moves: seq<Move>): State
    requires IsRun(s, moves)
    decreases |moves|
  {
    if moves == [] then s else After(Next(s, moves[0]), moves[1..])
  }

  // --- Invariant ---

  predicate Distinct(vs: seq<Version>) {
    forall i, j :: 0 <= i < j < |vs| ==> vs[i].number != vs[j].number
  }

  /** A counter read outside the transaction is out of date only if the versions table knows better. */
  predicate NotMisled(s: State, seen: nat) {
    seen <= s.current && (seen == s.current || s.current <= MaxNumber(s.versions))
  }

  /** The number is new to the table and above the counter. */
  predicate Beyond(s: State, n: nat) {
    n > s.current && n > MaxNumber(s.versions)
  }

  predicate PhaseOk(s: State, ph: Phase) {
    match ph
    case Idle => true
    case HasRead(seen, content) => NotMisled(s, seen) && content in s.drafts
    case HasLock(seen, content) => NotMisled(s, seen) && content in s.drafts
    case HasMax(seen, content, max) => NotMisled(s, seen) && content in s.drafts && max == MaxNumber(s.versions)
    case Inserted(content, n) => Beyond(s, n) && content in s.drafts
    case Updated(content, n) => Beyond(s, n) && content in s.drafts
  }

  /** Template and versions table may have drifted apart in any way before anyone publishes. */
  predicate Inv(s: State) {
    && s.draft in s.drafts
    && Distinct(s.versions)
    && (forall p {:trigger s.phases[p]} :: 0 <= p < |s.phases| ==>
          PhaseOk(s, s.phases[p]) && (Holding(s.phases[p]) <==> s.lock == p))
  }

  predicate Initial(s: State) {
    && s.drafts == [s.draft] && s.lock == FREE
    && Distinct(s.versions)
    && forall p {:trigger s.phases[p]} :: 0 <= p < |s.phases| ==> s.phases[p].Idle?
  }

  lemma MaxOfMore(vs: seq<Version>, v: Version)
    ensures MaxNumber(vs + [v]) == if v.number > MaxNumber(vs) then v.number else MaxNumber(vs)
  {
    assert (vs + [v])[..|vs|] == vs;
  }

  predicate SlotOk(s: State, p: nat)
    requires p < |s.phases|
  {
    PhaseOk(s, s.phases[p]) && (Holding(s.phases[p]) <==> s.lock == p)
  }

  lemma SlotAfterCommit(s: State, p: nat, q: nat)
    requires Inv(s) && Enabled(s, Commit(p)) && q < |s.phases|
    ensures SlotOk(Next(s, Commit(p)), q)
  {
    assert SlotOk(s, p) && SlotOk(s, q);
    MaxOfMore(s.versions, Version(s.phases[p].number, s.phases[p].content));
  }

  lemma SlotAfterInsert(s: State, p: nat, q: nat)
    requires Inv(s) && Enabled(s, Insert(p)) && q < |s.phases|
    ensures SlotOk(Next(s, Insert(p)), q)
  {
    assert SlotOk(s, p) && SlotOk(s, q);
  }

  lemma SlotAfter(s: State, m: Move, q: nat)
    requires Inv(s) && Enabled(s, m) && q < |s.phases|
    ensures SlotOk(Next(s, m), q)
  {
    match m {
      case Commit(p) => SlotAfterCommit(s, p, q);
      case Insert(p) => SlotAfterInsert(s, p, q);
      case _ => assert SlotOk(s, q);
    }
  }

  lemma StepInv(s: State, m: Move)
    requires Inv(s) && Enabled(s, m)
    ensures Inv(Next(s, m))
  {
    var t := Next(s, m);
    forall q: nat | q < |t.phases| ensures SlotOk(t, q) {
      SlotAfter(s, m, q);
    }
    if m.Commit? {
      assert SlotOk(s, m.p);
    }
  }

  // --- Whole runs ---

  predicate Increasing(vs: seq<Version>, floor: nat) {
    && (forall i :: 0 <= i < |vs| ==> vs[i].number > floor)
    && (forall i, j :: 0 <= i < j < |vs| ==> vs[i].number < vs[j].number)
  }

  /** What publishing added since `s`: numbers that climb from above the counter, the last of which
      is the counter, each with a content the template really had as its draft. */
  predicate Extends(s: State, t: State) {
    && s.versions <= t.versions
    && (var added := t.versions[|s.versions|..];
        && Increasing(added, s.current)
        && t.current == (if added == [] then s.current else added[|added| - 1].number)
        && (forall v :: v in added ==> v.content in t.drafts))
    && s.drafts <= t.drafts
  }

  lemma CommitExtends(s: State, t: State, p: nat)
    requires Inv(t) && Extends(s, t) && Enabled(t, Commit(p))
    ensures Extends(s, Next(t, Commit(p)))
  {
    var ph := t.phases[p];
    assert PhaseOk(t, ph);
    var n := |s.versions|;
    var added := t.versions[n..];
    var v := Version(ph.number, ph.content);
    assert (t.versions + [v])[n..] == added + [v];
    forall i | 0 <= i < |added| ensures added[i].number < v.number {
      assert added[i] == t.versions[n + i];
    }
    assert v.number > s.current;
  }

  lemma SaveExtends(s: State, t: State, content: string)
    requires Inv(t) && Extends(s, t) && Enabled(t, SaveDraft(content))
    ensures Extends(s, Next(t, SaveDraft(content)))
  {
    var added := t.versions[|s.versions|..];
    assert forall v :: v in added ==> v.content in t.drafts + [content];
  }

  lemma StepExtends(s: State, t: State, m: Move)
    requires Inv(t) && Extends(s, t) && Enabled(t, m)
    ensures Extends(s, Next(t, m))
  {
    match m {
      case Commit(p) => CommitExtends(s, t, p);
      case SaveDraft(content) => SaveExtends(s, t, content);
      case _ =>
    }
  }

  lemma {:induction false} RunInv(s: State, t: State, moves: seq<Move>)
    requires Inv(t) && Extends(s, t) && IsRun(t, moves)
    ensures Inv(After(t, moves)) && Extends(s, After(t, moves))
    decreases |moves|
  {
    if moves != [] {
      StepInv(t, moves[0]);
      StepExtends(s, t, moves[0]);
      RunInv(s, Next(t, moves[0]), moves[1..]);
    }
  }

  /** Whatever the interleaving and whatever the drift at the start: committed numbers are pairwise
      distinct, the counter climbs strictly at each commit and ends at the last one, and no version
      holds a content that was never the draft. */
  lemma PublishingIsSerialised(s: State, moves: seq<Move>)
    requires Initial(s) && IsRun(s, moves)
    ensures Distinct(After(s, moves).versions) && Extends(s, After(s, moves))
  {
    assert s.versions[|s.versions|..] == [];
    RunInv(s, s, moves);
  }

  /** The INSERT never fails on the primary key, and each commit raises the counter above both the
      old counter and every number in the table: drift is gone after one publish. */
  lemma CommitHealsDrift(s: State, moves: seq<Move>, p: nat)
    requires Initial(s) && IsRun(s, moves) && p < |s.phases|
    ensures var t := After(s, moves);
            && |t.phases| == |s.phases|
            && (t.phases[p].HasMax? ==> !KeyViolation(t, p))
            && (Enabled(t, Commit(p)) ==>
                  var u := Next(t, Commit(p));
                  u.current > t.current && u.current > MaxNumber(t.versions) && u.current == MaxNumber(u.versions))
  {
    assert s.versions[|s.versions|..] == [];
    RunInv(s, s, moves);
    SameWidth(s, moves);
    var t := After(s, moves);
    assert SlotOk(t, p);
    if Enabled(t, Commit(p)) {
      CommitIsTop(t, p);
    }
  }

  lemma CommitIsTop(t: State, p: nat)
    requires Enabled(t, Commit(p)) && SlotOk(t, p)
    ensures var u := Next(t, Commit(p));
            u.current > t.current && u.current > MaxNumber(t.versions) && u.current == MaxNumber(u.versions)
  {
    MaxOfMore(t.versions, Version(t.phases[p].number, t.phases[p].content));
  }

  lemma {:induction false} SameWidth(s: State, moves: seq<Move>)
    requires IsRun(s, moves)
    ensures |After(s, moves).phases| == |s.phases|
    decreases |moves|
  {
    if moves != [] {
      SameWidth(Next(s, moves[0]), moves[1..]);
    }
  }

  /** At most one publisher is inside its transaction, and one that waits is only held up by a
      publisher that can still move on by itself. */
  lemma NobodyIsStuck(s: State, moves: seq<Move>, p: nat, q: nat)
    requires Initial(s) && IsRun(s, moves) && p < |s.phases| && q < |s.phases|
    ensures var t := After(s, moves);
            && |t.phases| == |s.phases|
            && (Holding(t.phases[p]) && Holding(t.phases[q]) ==> p == q)
            && (t.phases[p].HasRead? && !Enabled(t, Lock(p)) && t.lock == q ==>
                  Enabled(t, SelectMax(q)) || Enabled(t, Insert(q)) || Enabled(t, Update(q)) || Enabled(t, Commit(q)))
  {
    assert s.versions[|s.versions|..] == [];
    RunInv(s, s, moves);
    SameWidth(s, moves);
    var t := After(s, moves);
    assert Holding(t.phases[p]) <==> t.lock == p;
    assert Holding(t.phases[q]) <==> t.lock == q;
  }

  // --- Which draft is published ---

  /** The draft a publisher carries since its unlocked read. */
  function Carried(ph: Phase): Option<Draft> {
    if ph.Idle? then None else Some(ph.content)
  }

  predicate Ends(m: Move, p: nat) {
    m == Commit(p) || m == Rollback(p)
  }

  /** Until it commits or rolls back, a publisher carries what it has read. */
  lemma CarriesStep(s: State, m: Move, p: nat)
    requires Inv(s) && Enabled(s, m) && !Ends(m, p) && p < |s.phases| && !s.phases[p].Idle?
    ensures p < |Next(s, m).phases| && Carried(Next(s, m).phases[p]) == Carried(s.phases[p])
  {
    assert SlotOk(s, p);
    if m == Insert(p) {
      assert !KeyViolation(s, p);
    }
  }

  lemma {:induction false} CarriesOn(s: State, moves: seq<Move>, p: nat)
    requires Inv(s) && IsRun(s, moves) && p < |s.phases| && !s.phases[p].Idle?
    requires forall m :: m in moves ==> !Ends(m, p)
    ensures p < |After(s, moves).phases| && Carried(After(s, moves).phases[p]) == Carried(s.phases[p])
    decreases |moves|
  {
    if moves != [] {
      assert moves[0] in moves;
      assert forall m :: m in moves[1..] ==> m in moves;
      CarriesStep(s, moves[0], p);
      StepInv(s, moves[0]);
      CarriesOn(Next(s, moves[0]), moves[1..], p);
    }
  }

  /** While a publisher holds the lock the draft does not change. */
  lemma {:induction false} LockFreezesDraft(s: State, moves: seq<Move>, p: nat)
    requires Inv(s) && IsRun(s, moves) && p < |s.phases| && Holding(s.phases[p])
    requires forall m :: m in moves ==> !Ends(m, p)
    ensures After(s, moves).draft == s.draft
    decreases |moves|
  {
    if moves != [] {
      var m := moves[0];
      assert m in moves;
      assert forall x :: x in moves[1..] ==> x in moves;
      assert SlotOk(s, p);
      if m.Insert? {
        assert SlotOk(s, m.p);
        assert !KeyViolation(s, m.p);
      }
      StepInv(s, m);
      LockFreezesDraft(Next(s, m), moves[1..], p);
    }
  }

  lemma {:induction false} RunSplits(s: State, a: seq<Move>, b: seq<Move>)
    requires IsRun(s, a + b)
    ensures IsRun(s, a) && IsRun(After(s, a), b) && After(s, a + b) == After(After(s, a), b)
    decreases |a|
  {
    if a == [] {
      assert a + b == b;
    } else {
      assert (a + b)[0] == a[0] && (a + b)[1..] == a[1..] + b;
      RunSplits(Next(s, a[0]), a[1..], b);
    }
  }

  /** What a publish puts up is the draft at its read. It is the current draft at its commit if and only if
      the draft is the same at both moments. */
  lemma PublishesCurrentExactly(s: State, p: nat, moves: seq<Move>)
    requires Inv(s) && Enabled(s, Read(p)) && IsRun(Next(s, Read(p)), moves)
    requires forall m :: m in moves ==> !Ends(m, p)
    requires Enabled(After(Next(s, Read(p)), moves), Commit(p))
    ensures var t := After(Next(s, Read(p)), moves);
            var put := Next(t, Commit(p)).versions[|t.versions|];
            put.content == s.draft && (put.content == t.draft <==> s.draft == t.draft)
  {
    StepInv(s, Read(p));
    CarriesOn(Next(s, Read(p)), moves, p);
  }

  /** This is settled as soon as the publisher has the lock: the draft cannot change from there on. */
  lemma SettledAtTheLock(s: State, p: nat, before: seq<Move>, held: seq<Move>)
    requires Inv(s) && Enabled(s, Read(p)) && IsRun(Next(s, Read(p)), before + [Lock(p)] + held)
    requires forall m :: m in before + [Lock(p)] + held ==> !Ends(m, p)
    requires Enabled(After(Next(s, Read(p)), before + [Lock(p)] + held), Commit(p))
    ensures IsRun(Next(s, Read(p)), before)
    ensures var t := After(Next(s, Read(p)), before + [Lock(p)] + held);
            var put := Next(t, Commit(p)).versions[|t.versions|];
            put.content == t.draft <==> s.draft == After(Next(s, Read(p)), before).draft
  {
    var r := Next(s, Read(p));
    StepInv(s, Read(p));
    PublishesCurrentExactly(s, p, before + [Lock(p)] + held);
    RunSplits(r, before + [Lock(p)], held);
    RunSplits(r, before, [Lock(p)]);
    var u := After(r, before + [Lock(p)]);
    assert [Lock(p)][1..] == [];
    assert u == Next(After(r, before), Lock(p));
    assert r.versions[|r.versions|..] == [];
    RunInv(r, r, before + [Lock(p)]);
    LockFreezesDraft(u, held, p);
  }

  /** Numbers are in order, contents need not be: the content comes from the unlocked read, so a slow
      publisher can put an older draft under the newer number. */
  lemma NewerNumberOlderDraft()
    ensures exists s: State, moves ::
              && Initial(s) && IsRun(s, moves)
              && (var t := After(s, moves);
                  && t.draft == "new"
                  && t.versions == [Version(1, "new"), Version(2, "old")])
  {
    var s := State(0, "old", [], FREE, [Idle, Idle], ["old"]);
    var both := BothRead(s);
    var once := LatePublishes(s, both);
    var moves := EarlyPublishes(s, once);
  }

  /** The second reader publishes first. */
  lemma LatePublishes(s: State, moves: seq<Move>) returns (more: seq<Move>)
    requires IsRun(s, moves)
    requires After(s, moves) == State(0, "new", [], FREE, [HasRead(0, "old"), HasRead(0, "new")], ["old", "new"])
    ensures IsRun(s, more)
    ensures After(s, more) == State(1, "new", [Version(1, "new")], FREE, [HasRead(0, "old"), Idle], ["old", "new"])
  {
    var t;
    more, t := PublishFrom(s, moves, 1);
  }

  /** Then the first reader publishes what it has read. */
  lemma EarlyPublishes(s: State, moves: seq<Move>) returns (more: seq<Move>)
    requires IsRun(s, moves)
    requires After(s, moves) == State(1, "new", [Version(1, "new")], FREE, [HasRead(0, "old"), Idle], ["old", "new"])
    ensures IsRun(s, more) && After(s, more).draft == "new"
    ensures After(s, more).versions == [Version(1, "new"), Version(2, "old")]
  {
    var t;
    more, t := PublishFrom(s, moves, 0);
  }

  /** One publisher reads, then the draft is saved, then the other publisher reads. */
  lemma BothRead(s: State) returns (moves: seq<Move>)
    requires s == State(0, "old", [], FREE, [Idle, Idle], ["old"])
    ensures IsRun(s, moves)
    ensures After(s, moves) == State(0, "new", [], FREE, [HasRead(0, "old"), HasRead(0, "new")], ["old", "new"])
  {
    var m1, s1 := Push(s, [], Read(0));
    var m2, s2 := Push(s, m1, SaveDraft("new"));
    var s3;
    moves, s3 := Push(s, m2, Read(1));
  }

  lemma {:induction false} Push(s: State, moves: seq<Move>, m: Move) returns (more: seq<Move>, t: State)
    requires IsRun(s, moves) && Enabled(After(s, moves), m)
    ensures more == moves + [m] && IsRun(s, more)
    ensures t == After(s, more) == Next(After(s, moves), m)
    decreases |moves|
  {
    more := moves + [m];
    if moves == [] {
      assert more[1..] == [];
    } else {
      assert more[1..] == moves[1..] + [m];
      var rest, u := Push(Next(s, moves[0]), moves[1..], m);
    }
    t := After(s, more);
  }

  /** A publisher that has read carries on to its commit undisturbed. */
  lemma PublishFrom(s: State, moves: seq<Move>, p: nat) returns (more: seq<Move>, t: State)
    requires IsRun(s, moves) && Enabled(After(s, moves), Lock(p))
    requires var u := After(s, moves);
             !Taken(u.versions, NextVersion(MaxNumber(u.versions), u.phases[p].seen))
    ensures IsRun(s, more) && t == After(s, more)
    ensures var u := After(s, moves);
            var n := NextVersion(MaxNumber(u.versions), u.phases[p].seen);
            t == u.(current := n, versions := u.versions + [Version(n, u.phases[p].content)],
                    phases := u.phases[p := Idle], lock := FREE)
  {
    var u := After(s, moves);
    var m1, s1 := Push(s, moves, Lock(p));
    var m2, s2 := Push(s, m1, SelectMax(p));
    var m3, s3 := Push(s, m2, Insert(p));
    var m4, s4 := Push(s, m3, Update(p));
    more, t := Push(s, m4, Commit(p));
    assert t.phases == u.phases[p := Idle];
  }

  // --- A publish that nobody disturbs ---

  lemma {:induction false} MaxIsThere(vs: seq<Version>)
    ensures MaxNumber(vs) == 0 || Taken(vs, MaxNumber(vs))
  {
    if vs != [] {
      var before := vs[..|vs| - 1];
      MaxIsThere(before);
      if MaxNumber(vs) == MaxNumber(before) && MaxNumber(before) != 0 {
        var i :| 0 <= i < |before| && before[i].number == MaxNumber(before);
        assert vs[i].number == MaxNumber(vs);
      } else {
        assert vs[|vs| - 1].number == MaxNumber(vs) || MaxNumber(vs) == 0;
      }
    }
  }

  /** The number is the first above the counter and every number in the table. */
  predicate FirstAbove(current: nat, vs: seq<Version>, n: nat) {
    && n > current && (forall i :: 0 <= i < |vs| ==> n > vs[i].number)
    && (n == current + 1 || Taken(vs, n - 1))
  }

  /** With the lock free it can always run, and puts the draft up under the first number above all others;
      everything else is as before. */
  lemma UndisturbedPublish(s: State, p: nat) returns (moves: seq<Move>, t: State)
    requires Inv(s) && s.lock == FREE && p < |s.phases| && s.phases[p].Idle?
    ensures IsRun(s, moves) && t == After(s, moves)
    ensures FirstAbove(s.current, s.versions, t.current)
    ensures t == s.(current := t.current, versions := s.versions + [Version(t.current, s.draft)])
  {
    var read, u := Push(s, [], Read(p));
    MaxIsThere(s.versions);
    moves, t := PublishFrom(s, read, p);
    assert t.phases == s.phases;
  }

  /** Nothing shows before a commit: a move changes the committed tables only if it is one, or saves the
      draft; a rollback takes nothing back that others could have seen. */
  lemma OnlyCommitsShow(s: State, m: Move)
    requires Enabled(s, m)
    ensures !m.Commit? ==> Next(s, m).current == s.current && Next(s, m).versions == s.versions
    ensures !m.SaveDraft? ==> Next(s, m).draft == s.draft
    ensures m.Rollback? ==> Next(s, m) == s.(phases := s.phases[m.p := Idle], lock := FREE)
  {}
}
