/** What a turn answers, runs and reports. */
module ToolLoopAnswers {
  // Read off the model's replies: server/agentRuntime.ts:1301-1863.

  import opened Prelude
  import opened ToolLoop
  import JsonTree

  // --- What the replies ask for ---

  /** Reply `k` asks for an allowed tool. */
  predicate Asks(turn: Turn, k: nat) {
    IsIntent(turn, k) && !IsRejected(turn, k)
  }

  /** The execution such a reply asks for. */
  function AskedFor(turn: Turn, k: nat): Execution
    requires Asks(turn, k)
  {
    var d := turn.parse(turn.reply(k).content).value;
    Execution(d.tool.value, Chosen(turn.sign(d.tool.value, d.args)))
  }

  /** One of the first `n` replies asks for the call with this signature. */
  predicate AskedBefore(turn: Turn, n: nat, signature: string) {
    exists k: nat :: k < n && Asks(turn, k) && SignatureOf(turn, k) == signature
  }

  /** Reply `k` asks again for what an earlier reply asked for. */
  predicate Repeats(turn: Turn, k: nat) {
    Asks(turn, k) && AskedBefore(turn, k, SignatureOf(turn, k))
  }

  function RepeatsBelow(turn: Turn, n: nat): set<nat> {
    set k: nat | k < n && Repeats(turn, k)
  }

  /** What the first `n` replies ask for, each call once. */
  function AskedBelow(turn: Turn, n: nat): seq<Execution> {
    if n == 0 then []
    else AskedBelow(turn, n - 1) + if Asks(turn, n - 1) && !Repeats(turn, n - 1) then [AskedFor(turn, n - 1)] else []
  }

  /** The executions the model chose. */
  function ChosenOnes(ex: seq<Execution>): seq<Execution> {
    if ex == [] then []
    else ChosenOnes(ex[..|ex| - 1]) + if ex[|ex| - 1].origin.Chosen? then [ex[|ex| - 1]] else []
  }

  /** What reply `k` makes of the disposition, unless it repeats a call. */
  function Disposed(turn: Turn, k: nat): Disposition {
    if !IsIntent(turn, k) then Repaired
    else if IsRejected(turn, k) then Rejected
    else if AskedFor(turn, k).tool in turn.agentTools then Executed else Repaired
  }

  /** The disposition is untouched before the first reply, and then what the last reply that repeats
      nothing has made of it. */
  ghost predicate DisposedBelow(turn: Turn, n: nat, d: Disposition) {
    && (n == 0 ==> d == Untouched)
    && forall k: nat :: k < n && !Repeats(turn, k) && (forall j :: k < j < n ==> Repeats(turn, j)) ==>
         d == Disposed(turn, k)
  }

  /** No call the model chose has come with a result that there is no index. */
  ghost predicate IndexFine(turn: Turn, ex: seq<Execution>) {
    forall i, n :: 0 <= i <= n < |ex| && ex[i].origin.Chosen? ==> !turn.result(n).noIndex
  }

  /** The last call the model chose came with such a result, and none before it. */
  ghost predicate IndexGone(turn: Turn, ex: seq<Execution>) {
    exists i, n :: 0 <= i <= n < |ex| && ex[i].origin.Chosen? && turn.result(n).noIndex && IndexFine(turn, ex[..i])
                   && forall j :: i < j < |ex| ==> ex[j].origin.FollowUp?
  }

  // --- Chains ---

  lemma {:induction false} ReadsAreNotChosen(ex: seq<Execution>, paths: seq<string>)
    ensures ChosenOnes(ex + FollowUps(paths)) == ChosenOnes(ex)
    decreases |paths|
  {
    var n := |paths| - 1;
    if paths == [] {
      assert ex + FollowUps(paths) == ex;
    } else {
      ReadsAreNotChosen(ex, paths[..n]);
      assert paths == paths[..n] + [paths[n]];
      ReadsSnoc(ex, paths[..n], paths[n]);
      assert ((ex + FollowUps(paths[..n])) + [Read(paths[n])])[..|ex + FollowUps(paths[..n])|]
             == ex + FollowUps(paths[..n]);
    }
  }

  lemma ChainChosen(turn: Turn, ex: seq<Execution>, tool: string, origin: Origin)
    ensures ChosenOnes(ex + Chain(turn, ex, tool, origin))
            == ChosenOnes(ex) + if origin.Chosen? then [Execution(tool, origin)] else []
  {
    var e := Execution(tool, origin);
    var none: seq<string> := [];
    var paths := if tool in {"browse_code", "workspace_search"}
                 then Reads(turn.result(|ex|), Tools(ex) + [tool]) else none;
    assert FollowUps(none) == [];
    assert ex + Chain(turn, ex, tool, origin) == ex + [e] + FollowUps(paths);
    assert (ex + [e])[..|ex|] == ex;
    ReadsAreNotChosen(ex + [e], paths);
  }

  lemma ChainParts(turn: Turn, ex: seq<Execution>, tool: string, origin: Origin)
    ensures var more := ex + Chain(turn, ex, tool, origin);
            && more[..|ex|] == ex && |more| > |ex| && more[|ex|] == Execution(tool, origin)
            && forall j :: |ex| < j < |more| ==> more[j].origin.FollowUp?
  {}

  lemma ChainIndex(turn: Turn, ex: seq<Execution>, tool: string, origin: Origin)
    requires IndexFine(turn, ex)
    ensures var more := ex + Chain(turn, ex, tool, origin);
            && (origin.Chosen? && AnyNoIndex(turn, |ex|, |more|) ==> IndexGone(turn, more))
            && (origin.Chosen? && !AnyNoIndex(turn, |ex|, |more|) ==> IndexFine(turn, more))
            && (ex == [] && !origin.Chosen? ==> IndexFine(turn, more))
  {
    var more := ex + Chain(turn, ex, tool, origin);
    ChainParts(turn, ex, tool, origin);
    if origin.Chosen? && AnyNoIndex(turn, |ex|, |more|) {
      var n :| |ex| <= n < |more| && turn.result(n).noIndex;
      LastIsGone(turn, more, |ex|, n);
    } else {
      StaysFine(turn, more, |ex|);
    }
  }

  lemma LastIsGone(turn: Turn, more: seq<Execution>, i: nat, n: nat)
    requires i <= n < |more| && turn.result(n).noIndex && IndexFine(turn, more[..i]) && more[i].origin.Chosen?
    requires forall j :: i < j < |more| ==> more[j].origin.FollowUp?
    ensures IndexGone(turn, more)
  {}

  lemma StaysFine(turn: Turn, more: seq<Execution>, m: nat)
    requires m < |more| && IndexFine(turn, more[..m])
    requires forall j :: m < j < |more| ==> more[j].origin.FollowUp?
    ensures !AnyNoIndex(turn, m, |more|) ==> IndexFine(turn, more)
    ensures m == 0 && !more[0].origin.Chosen? ==> IndexFine(turn, more)
  {
    if !AnyNoIndex(turn, m, |more|) {
      forall i, n | 0 <= i <= n < |more| && more[i].origin.Chosen? ensures !turn.result(n).noIndex {
        if n < m {
          assert more[..m][i] == more[i];
        }
      }
    }
  }

  // --- One iteration ---

  /** What the loop's variables say about the replies so far. */
  ghost predicate Traced(turn: Turn, st: Loop) {
    && ChosenOnes(st.executed) == AskedBelow(turn, st.calls)
    && (forall s :: s in st.signatures <==> AskedBefore(turn, st.calls, s))
    && st.duplicates == |RepeatsBelow(turn, st.calls)|
  }

  ghost predicate TracedBetween(turn: Turn, st: Loop) {
    && Traced(turn, st) && st.duplicates < 2 && IndexFine(turn, st.executed)
    && DisposedBelow(turn, st.calls, st.disposition)
  }

  /** The exit of a turn is its last reply, read. */
  ghost predicate Passes(turn: Turn, text: string, exit: Exit) {
    match exit
    case Text(c) => c == text && turn.parse(text) == None
    case Answered(c) => turn.parse(text) == Some(Answer(c))
    case Clarified(m) => turn.parse(text) == Some(Clarify(m))
    case Unblocked(s) => turn.parse(text) == Some(Unblock(s))
  }

  ghost predicate TracedOut(turn: Turn, v: Verdict) {
    var n := v.next.calls;
    && n > 0 && Traced(turn, v.next) && |RepeatsBelow(turn, n - 1)| < 2
    && match v
       case Continue(st) => TracedBetween(turn, st)
       case Break(st) =>
         || (st.duplicates == 2 && Repeats(turn, n - 1) && IndexFine(turn, st.executed))
         || (Asks(turn, n - 1) && !Repeats(turn, n - 1) && st.duplicates < 2 && IndexGone(turn, st.executed))
         || (n == 5 && TracedBetween(turn, st))
       case Return(st, exit) =>
         && Passes(turn, turn.reply(n - 1).content, exit) && IndexFine(turn, st.executed)
         && DisposedBelow(turn, n - 1, st.disposition)
  }

  lemma OneMoreOf(less: set<nat>, all: set<nat>, n: nat, added: bool)
    requires forall k: nat :: k in all <==> k in less || (k == n && added)
    requires n !in less
    ensures |all| == |less| + if added then 1 else 0
  {
    if added {
      assert all == less + {n};
    } else {
      assert all == less;
    }
  }

  lemma RepeatsGrow(turn: Turn, n: nat)
    ensures |RepeatsBelow(turn, n + 1)| == |RepeatsBelow(turn, n)| + if Repeats(turn, n) then 1 else 0
  {
    OneMoreOf(RepeatsBelow(turn, n), RepeatsBelow(turn, n + 1), n, Repeats(turn, n));
  }

  lemma DisposedFurther(turn: Turn, n: nat, d: Disposition)
    ensures DisposedBelow(turn, n, d) && Repeats(turn, n) && n > 0 ==> DisposedBelow(turn, n + 1, d)
    ensures !Repeats(turn, n) ==> DisposedBelow(turn, n + 1, Disposed(turn, n))
  {
    if DisposedBelow(turn, n, d) && Repeats(turn, n) {
      forall k: nat | k < n + 1 && !Repeats(turn, k) && (forall j :: k < j < n + 1 ==> Repeats(turn, j))
        ensures d == Disposed(turn, k)
      {
        assert forall j :: k < j < n ==> Repeats(turn, j);
      }
    }
    if !Repeats(turn, n) {
      forall k: nat | k < n + 1 && !Repeats(turn, k) && (forall j :: k < j < n + 1 ==> Repeats(turn, j))
        ensures k == n
      {}
    }
  }

  lemma AskedGrow(turn: Turn, n: nat)
    ensures forall s :: AskedBefore(turn, n + 1, s)
                        <==> AskedBefore(turn, n, s) || (Asks(turn, n) && SignatureOf(turn, n) == s)
  {
    forall s | AskedBefore(turn, n, s) ensures AskedBefore(turn, n + 1, s) {
      var k: nat :| k < n && Asks(turn, k) && SignatureOf(turn, k) == s;
      assert k < n + 1;
    }
    forall s | AskedBefore(turn, n + 1, s) && !AskedBefore(turn, n, s)
      ensures Asks(turn, n) && SignatureOf(turn, n) == s
    {
      var k: nat :| k < n + 1 && Asks(turn, k) && SignatureOf(turn, k) == s;
      assert k == n;
    }
    if Asks(turn, n) {
      assert n < n + 1;
      assert AskedBefore(turn, n + 1, SignatureOf(turn, n));
    }
  }

  /** A reply that asks for nothing allowed adds nothing to the trace. */
  lemma CalledTraced(turn: Turn, before: Loop)
    requires TracedBetween(turn, before) && !Asks(turn, before.calls)
    ensures Traced(turn, Called(turn, before)) && |RepeatsBelow(turn, before.calls + 1)| < 2
  {
    RepeatsGrow(turn, before.calls);
    AskedGrow(turn, before.calls);
  }

  lemma TalkTraced(turn: Turn, before: Loop)
    requires TracedBetween(turn, before) && !IsIntent(turn, before.calls)
    ensures TracedOut(turn, Iterate(turn, before)) && Iterate(turn, before).next.calls == before.calls + 1
  {
    var exit := TalkIs(turn, before);
    var st := Called(turn, before);
    CalledTraced(turn, before);
    if WantsDiscovery(turn, st) && !exit.Clarified? && !exit.Unblocked? {
      var tool := DiscoveryTool(turn).value;
      ChainChosen(turn, st.executed, tool, Discovery);
      ChainIndex(turn, st.executed, tool, Discovery);
      DisposedFurther(turn, before.calls, before.disposition);
    }
  }

  lemma RefusedTraced(turn: Turn, before: Loop)
    requires TracedBetween(turn, before) && IsRejected(turn, before.calls)
    ensures TracedOut(turn, Iterate(turn, before)) && Iterate(turn, before).next.calls == before.calls + 1
  {
    CalledTraced(turn, before);
    var next := Called(turn, before).(disposition := Rejected);
    assert Iterate(turn, before) == Continue(next);
    DisposedFurther(turn, before.calls, before.disposition);
  }

  lemma AskedAgain(turn: Turn, before: Loop)
    requires TracedBetween(turn, before) && Asks(turn, before.calls)
    ensures SignatureOf(turn, before.calls) in before.signatures <==> Repeats(turn, before.calls)
  {}

  /** The variables after a repeated call. */
  function Skipped(turn: Turn, before: Loop): Loop {
    Called(turn, before).(duplicates := before.duplicates + 1)
  }

  lemma SkippedTraced(turn: Turn, before: Loop)
    requires TracedBetween(turn, before) && Repeats(turn, before.calls)
    ensures Traced(turn, Skipped(turn, before))
  {
    AskedGrow(turn, before.calls);
    RepeatsGrow(turn, before.calls);
  }

  lemma RepeatIs(turn: Turn, before: Loop)
    requires TracedBetween(turn, before) && Repeats(turn, before.calls)
    ensures var s1 := Skipped(turn, before);
            Iterate(turn, before) == if s1.duplicates >= 2 then Break(s1) else Continue(s1)
  {
    AskedAgain(turn, before);
  }

  lemma RepeatTraced(turn: Turn, before: Loop)
    requires TracedBetween(turn, before) && Repeats(turn, before.calls)
    ensures TracedOut(turn, Iterate(turn, before)) && Iterate(turn, before).next.calls == before.calls + 1
  {
    RepeatIs(turn, before);
    SkippedTraced(turn, before);
    DisposedFurther(turn, before.calls, before.disposition);
  }

  /** The variables after running what reply `before.calls` asks for. */
  function Ran(turn: Turn, before: Loop): Loop
    requires Asks(turn, before.calls)
  {
    var e := AskedFor(turn, before.calls);
    Called(turn, before).(executed := before.executed + Chain(turn, before.executed, e.tool, e.origin),
                          signatures := before.signatures + {SignatureOf(turn, before.calls)},
                          disposition := if e.tool in turn.agentTools then Executed else Repaired)
  }

  lemma RanTraced(turn: Turn, before: Loop)
    requires TracedBetween(turn, before) && Asks(turn, before.calls) && !Repeats(turn, before.calls)
    ensures Traced(turn, Ran(turn, before)) && Ran(turn, before).duplicates < 2
  {
    var e := AskedFor(turn, before.calls);
    AskedGrow(turn, before.calls);
    RepeatsGrow(turn, before.calls);
    ChainChosen(turn, before.executed, e.tool, e.origin);
  }

  lemma RanIs(turn: Turn, before: Loop)
    requires TracedBetween(turn, before) && Asks(turn, before.calls) && !Repeats(turn, before.calls)
    ensures var s1 := Ran(turn, before);
            Iterate(turn, before) == if AnyNoIndex(turn, |before.executed|, |s1.executed|)
                                     then Break(s1.(noIndex := true)) else Continue(s1)
  {
    AskedAgain(turn, before);
  }

  lemma AskedTraced(turn: Turn, before: Loop)
    requires TracedBetween(turn, before) && Asks(turn, before.calls) && !Repeats(turn, before.calls)
    ensures TracedOut(turn, Iterate(turn, before)) && Iterate(turn, before).next.calls == before.calls + 1
  {
    var e := AskedFor(turn, before.calls);
    RanTraced(turn, before);
    RanIs(turn, before);
    ChainIndex(turn, before.executed, e.tool, e.origin);
    DisposedFurther(turn, before.calls, before.disposition);
  }

  lemma {:induction false} IterationsTraced(turn: Turn, st: Loop)
    requires TracedBetween(turn, st) && 0 <= st.calls <= 5
    ensures st.calls < 5 || st.calls == 5
    ensures TracedOut(turn, Iterations(turn, st)) && !Iterations(turn, st).Continue?
    decreases 5 - st.calls
  {
    if st.calls < 5 {
      if !IsIntent(turn, st.calls) {
        TalkTraced(turn, st);
      } else if IsRejected(turn, st.calls) {
        RefusedTraced(turn, st);
      } else if Repeats(turn, st.calls) {
        RepeatTraced(turn, st);
      } else {
        AskedTraced(turn, st);
      }
      var v := Iterate(turn, st);
      if v.Continue? {
        IterationsTraced(turn, v.next);
      }
    } else {
      RepeatsGrow(turn, 4);
    }
  }

  lemma Trace(turn: Turn) returns (v: Verdict)
    ensures v == Iterations(turn, START) && TracedOut(turn, v) && !v.Continue?
  {
    assert TracedBetween(turn, START) by {
      assert RepeatsBelow(turn, 0) == {};
    }
    IterationsTraced(turn, START);
    v := Iterations(turn, START);
  }

  // --- What every turn guarantees ---

  /** How many of its model calls a turn made inside the loop. */
  function LoopCalls(o: Outcome): int {
    if o.ending.Forced? || (o.ending.SafeMessage? && o.executed != []) then o.calls - 1 else o.calls
  }

  /** The outcome of a turn whose loop came out as `v`. */
  function EndOf(turn: Turn, v: Verdict): Outcome
    requires v.next.calls > 0
  {
    if v.Return? then Outcome(InLoop(v.exit), v.next.usage, v.next.calls, v.next.executed, v.next.disposition)
    else AfterLoop(turn, v.next)
  }

  lemma PlayEnds(turn: Turn) returns (v: Verdict)
    ensures TracedOut(turn, v) && !v.Continue? && ComesOut(turn, v) && v == Iterations(turn, START)
    ensures Play(turn) == EndOf(turn, v)
  {
    v := Trace(turn);
    var w := LoopEnd(turn);
    assert v == w;
  }

  lemma LoopCallsAre(turn: Turn, v: Verdict)
    requires TracedOut(turn, v) && !v.Continue? && ComesOut(turn, v)
    ensures LoopCalls(EndOf(turn, v)) == v.next.calls && EndOf(turn, v).executed == v.next.executed
    ensures EndOf(turn, v).ending.InLoop? <==> v.Return?
  {}

  /** What a turn answers with. Inside the loop it is the last reply: its text when it is no decision, or
      the field of the decision it is. Behind the loop it is what the forced reply shows, trimmed text, answer
      or question, when that is not empty, and else the safe message with the tool that the last loop reply
      names. A turn never ends by passing on such a reply. */
  ghost predicate AnswersWith(turn: Turn, o: Outcome) {
    && o.calls > 0
    && var text := turn.reply(o.calls - 1).content;
       match o.ending
       case InLoop(Text(c)) => c == text && turn.parse(text) == None
       case InLoop(Answered(c)) => turn.parse(text) == Some(Answer(c))
       case InLoop(Clarified(m)) => turn.parse(text) == Some(Clarify(m))
       case InLoop(Unblocked(s)) => turn.parse(text) == Some(Unblock(s))
       case Forced(c) =>
         && o.executed != [] && c != ""
         && (turn.parse(text) == Some(Answer(c)) || turn.parse(text) == Some(Clarify(c))
             || (turn.parse(text) == None && c == JsonTree.Trim(text)))
       case SafeMessage(tool) =>
         && (o.executed != [] ==> o.calls > 1 && ShowsNothing(turn, text))
         && var last := turn.parse(turn.reply(if o.executed == [] then o.calls - 1 else o.calls - 2).content);
            last.Some? && last.value.Invoke? && tool == if last.value.tool.Some? then last.value.tool
                                                        else last.value.requested
       case LastText(_) => false
  }

  predicate ShowsNothing(turn: Turn, text: string) {
    match turn.parse(text)
    case None => JsonTree.Trim(text) == ""
    case Some(Answer(c)) => c == ""
    case Some(Clarify(m)) => m == ""
    case Some(Unblock(_)) => true
    case Some(Invoke(_, _, _)) => true
  }

  lemma AnswersAreReplies(turn: Turn)
    ensures AnswersWith(turn, Play(turn))
  {
    var v := PlayEnds(turn);
    EndAnswers(turn, v);
  }

  lemma EndAnswers(turn: Turn, v: Verdict)
    requires TracedOut(turn, v) && !v.Continue? && ComesOut(turn, v)
    ensures AnswersWith(turn, EndOf(turn, v))
  {
    if v.Break? {
      AfterAnswers(turn, v.next);
    } else {
      LoopAnswers(turn, EndOf(turn, v), v.exit);
    }
  }

  lemma LoopAnswers(turn: Turn, o: Outcome, exit: Exit)
    requires o.calls > 0 && o.ending == InLoop(exit) && Passes(turn, turn.reply(o.calls - 1).content, exit)
    ensures AnswersWith(turn, o)
  {}

  lemma AfterAnswers(turn: Turn, st: Loop)
    requires st.calls > 0 && IsIntent(turn, st.calls - 1)
    ensures AnswersWith(turn, AfterLoop(turn, st))
  {}

  /** The calls the model chose that ran are exactly those its replies in the loop asked for, in this
      order, each signature once; rejected requests run nothing. */
  lemma RunsWhatIsAsked(turn: Turn)
    ensures LoopCalls(Play(turn)) > 0
    ensures ChosenOnes(Play(turn).executed) == AskedBelow(turn, LoopCalls(Play(turn)))
  {
    var v := PlayEnds(turn);
    LoopCallsAre(turn, v);
  }

  /** A turn that no reply ends inside the loop leaves it with the second repetition of a call, with the
      first chosen call that finds no index, or after five replies, whichever comes first. */
  ghost predicate LeavesInTime(turn: Turn, o: Outcome) {
    var n := LoopCalls(o);
    && 0 < n <= 5 && |RepeatsBelow(turn, n - 1)| < 2
    && (o.ending.InLoop? ==> IndexFine(turn, o.executed))
    && (!o.ending.InLoop? ==>
          || (|RepeatsBelow(turn, n)| == 2 && IndexFine(turn, o.executed))
          || (|RepeatsBelow(turn, n)| < 2 && Asks(turn, n - 1) && !Repeats(turn, n - 1) && IndexGone(turn, o.executed))
          || (n == 5 && |RepeatsBelow(turn, n)| < 2 && IndexFine(turn, o.executed)))
  }

  lemma EndsInTime(turn: Turn, v: Verdict)
    requires TracedOut(turn, v) && !v.Continue? && ComesOut(turn, v)
    ensures LeavesInTime(turn, EndOf(turn, v))
  {
    LoopCallsAre(turn, v);
  }

  lemma WhenItLeaves(turn: Turn)
    ensures LeavesInTime(turn, Play(turn))
  {
    var v := PlayEnds(turn);
    EndsInTime(turn, v);
  }

  /** What became of the model's tool requests, as the turn reports it. */
  ghost predicate TellsDisposition(turn: Turn, o: Outcome) {
    match o.ending
    case InLoop(_) => o.calls > 0 && DisposedBelow(turn, o.calls - 1, o.disposition)
    case Forced(_) => o.disposition == Repaired
    case SafeMessage(_) => o.disposition == Stripped
    case LastText(_) => false
  }

  lemma EndTellsDisposition(turn: Turn, v: Verdict)
    requires TracedOut(turn, v) && !v.Continue? && ComesOut(turn, v)
    ensures TellsDisposition(turn, EndOf(turn, v))
  {}

  lemma DispositionsTell(turn: Turn)
    ensures TellsDisposition(turn, Play(turn))
  {
    var v := PlayEnds(turn);
    EndTellsDisposition(turn, v);
  }

  // --- Automatic discovery ---

  ghost predicate DiscoveredWith(turn: Turn, st: Loop) {
    && (st.calls > 0 && !IsIntent(turn, 0) && DiscoveryTool(turn).Some? ==> st.discovered)
    && (st.discovered ==> DiscoveryTool(turn).Some? && st.executed != []
                          && st.executed[0] == Execution(DiscoveryTool(turn).value, Discovery))
  }

  lemma TalkStands(turn: Turn, st: Loop)
    requires Between(turn, st) && DiscoveredWith(turn, st) && st.calls < MAX_READ_ONLY_TOOL_LOOPS
    requires !IsIntent(turn, st.calls) && st.discovered
    ensures DiscoveredWith(turn, Iterate(turn, st).next) && Iterate(turn, st).next.discovered
  {
    var exit := TalkIs(turn, st);
  }

  lemma AskStands(turn: Turn, st: Loop)
    requires DiscoveredWith(turn, st) && IsIntent(turn, st.calls) && st.discovered
    ensures DiscoveredWith(turn, Iterate(turn, st).next) && Iterate(turn, st).next.discovered
  {
    if !IsRejected(turn, st.calls) {
      ChosenIs(turn, st);
    }
  }

  lemma {:induction false} DiscoveryStands(turn: Turn, st: Loop)
    requires Between(turn, st) && DiscoveredWith(turn, st) && st.discovered
    ensures DiscoveredWith(turn, Iterations(turn, st).next) && Iterations(turn, st).next.discovered
    decreases MAX_READ_ONLY_TOOL_LOOPS - st.calls
  {
    if st.calls < MAX_READ_ONLY_TOOL_LOOPS {
      if !IsIntent(turn, st.calls) {
        TalkStands(turn, st);
        TalkComesOut(turn, st);
      } else {
        AskStands(turn, st);
        if IsRejected(turn, st.calls) {
          RefusedComesOut(turn, st);
        } else {
          ChosenComesOut(turn, st);
        }
      }
      var v := Iterate(turn, st);
      if v.Continue? {
        DiscoveryStands(turn, v.next);
      }
    }
  }

  lemma StartIsBetween(turn: Turn)
    ensures Between(turn, START)
  {
    assert Signatures([]) == [] && ReadPaths([]) == [] && Primaries([]) == 0;
  }

  lemma StartsWithDiscovery(turn: Turn) returns (next: Loop)
    requires var d := turn.parse(turn.reply(0).content); d.None? || d.value.Answer?
    requires DiscoveryTool(turn).Some?
    ensures Between(turn, next) && DiscoveredWith(turn, next) && next.discovered
    ensures Iterations(turn, START) == Iterations(turn, next)
  {
    next := Discover(turn, Called(turn, START));
    StartIsBetween(turn);
    DiscoveryBetween(turn, START);
    DiscoveredFirst(turn);
    FirstDiscovers(turn);
    GoesOn(turn, START, next);
  }

  lemma GoesOn(turn: Turn, st: Loop, next: Loop)
    requires st.calls < MAX_READ_ONLY_TOOL_LOOPS && Iterate(turn, st) == Continue(next)
    ensures Iterations(turn, st) == Iterations(turn, next)
  {}

  lemma DiscoveredFirst(turn: Turn)
    requires DiscoveryTool(turn).Some?
    ensures DiscoveredWith(turn, Discover(turn, Called(turn, START)))
  {
    ChainParts(turn, [], DiscoveryTool(turn).value, Discovery);
  }

  lemma FirstDiscovers(turn: Turn)
    requires var d := turn.parse(turn.reply(0).content); d.None? || d.value.Answer?
    requires DiscoveryTool(turn).Some?
    ensures Iterate(turn, START) == Continue(Discover(turn, Called(turn, START)))
  {}

  /** The first reply is no decision or an answer: with a message that is not blank, `browse_code` runs by
      itself if it is allowed, and else `workspace_search` if that is. */
  lemma DiscoveryRuns(turn: Turn)
    requires var d := turn.parse(turn.reply(0).content); d.None? || d.value.Answer?
    requires JsonTree.Trim(turn.message) != ""
    requires "browse_code" in turn.allowed || "workspace_search" in turn.allowed
    ensures var ex := Play(turn).executed;
            ex != [] && ex[0] == Execution(if "browse_code" in turn.allowed then "browse_code" else "workspace_search",
                                           Discovery)
  {
    var next := StartsWithDiscovery(turn);
    DiscoveryStands(turn, next);
    var v := PlayEnds(turn);
    LoopCallsAre(turn, v);
  }
}
