/** One chat turn: the bounded read-only tool loop and the forced answer behind it
    (server/agentRuntime.ts:158-168, 567-849, 1301-1863). */
module ToolLoop {
  // The loop has automatic discovery, a rejection and a duplicate guard. The model's replies, the tools'
  // results, the decision parser and the call signature are arbitrary.

  import opened Prelude
  import JsonTree

  const MAX_READ_ONLY_TOOL_LOOPS := 5
  const MAX_DUPLICATE_TOOL_ATTEMPTS := 2
  const AUTO_READS := 2

  type Args = JsonTree.Context

  datatype Decision =
    | Answer(content: string)
    | Clarify(message: string)
    | Unblock(summary: string)
    | Invoke(tool: Option<string>, requested: Option<string>, args: Args)

  datatype Reply = Reply(content: string, tokens: int)

  datatype Symbol = Symbol(filePath: string, preferred: bool)

  /** What the loop looks at in a tool's result. `codeQuestion` is the verdict of
      `shouldAutoReadFromBrowseCode`, `matches` the paths extracted from search matches. */
  datatype ToolResult = ToolResult(noIndex: bool, codeQuestion: bool, symbols: seq<Symbol>, files: seq<string>,
                                   matches: seq<string>)

  /** Why a tool ran: the model chose the call, the loop discovered by itself, or a read followed. */
  datatype Origin = Chosen(signature: string) | Discovery | FollowUp(path: string)

  datatype Execution = Execution(tool: string, origin: Origin)

  datatype Disposition = Untouched | Rejected | Repaired | Executed | Stripped

  /** Everything a turn depends on: reply `k` answers model call `k`, result `n` belongs to tool
      execution `n`. */
  datatype Turn = Turn(message: string, allowed: seq<string>, agentTools: seq<string>,
                       parse: string -> Option<Decision>, sign: (string, Args) -> string,
                       reply: nat -> Reply, result: nat -> ToolResult)

  // --- Automatic calls ---

  /** `buildAutomaticDiscoveryToolCall` */
  function DiscoveryTool(turn: Turn): Option<string> {
    if JsonTree.Trim(turn.message) == "" then None
    else if "browse_code" in turn.allowed then Some("browse_code")
    else if "workspace_search" in turn.allowed then Some("workspace_search")
    else None
  }

  /** The tool an intent names: the recognised one, else the name it was asked for by. */
  function Named(d: Decision): Option<string>
    requires d.Invoke?
  {
    if d.tool.Some? then d.tool else d.requested
  }

  function Tools(executed: seq<Execution>): seq<string> {
    seq(|executed|, i requires 0 <= i < |executed| => executed[i].tool)
  }

  function Paths(symbols: seq<Symbol>, preferred: bool): seq<string> {
    if symbols == [] then []
    else (if symbols[0].preferred == preferred then [symbols[0].filePath] else []) + Paths(symbols[1..], preferred)
  }

  /** The stable sort that puts preferred kinds first. */
  function RankedPaths(symbols: seq<Symbol>): seq<string> {
    Paths(symbols, true) + Paths(symbols, false)
  }

  /** New paths are added until the list has the cap; the cap is looked at after an addition only. */
  function Gather(found: seq<string>, paths: seq<string>): seq<string>
    decreases |paths|
  {
    if paths == [] then found
    else
      var p := JsonTree.Trim(paths[0]);
      if p == "" || p in found then Gather(found, paths[1..])
      else if |found| + 1 >= AUTO_READS then found + [p]
      else Gather(found + [p], paths[1..])
  }

  /** The paths `buildAutomaticWorkspaceReadCalls` reads, in order. */
  function Reads(r: ToolResult, attempted: seq<string>): seq<string> {
    if !r.codeQuestion || "workspace_read" in attempted then []
    else
      var a := Gather([], RankedPaths(r.symbols));
      if |a| >= AUTO_READS then a else Gather(Gather(a, r.files), r.matches)
  }

  method BuildAutomaticWorkspaceReadCalls(r: ToolResult, attempted: seq<string>) returns (calls: seq<string>)
    ensures calls == Reads(r, attempted)
  {
    calls := [];
    if !r.codeQuestion || "workspace_read" in attempted {
      return;
    }
    var ranked := RankedPaths(r.symbols);
    var i := 0;
    while i < |ranked|
      invariant 0 <= i <= |ranked| && |calls| < AUTO_READS
      invariant Gather(calls, ranked[i..]) == Gather([], ranked)
    {
      var path := JsonTree.Trim(ranked[i]);
      if path != "" && path !in calls {
        calls := calls + [path];
        if |calls| >= AUTO_READS {
          return;
        }
      }
      i := i + 1;
    }
    ghost var symbolReads := calls;
    i := 0;
    while i < |r.files|
      invariant 0 <= i <= |r.files| && |calls| < AUTO_READS
      invariant Gather(calls, r.files[i..]) == Gather(symbolReads, r.files)
    {
      var path := JsonTree.Trim(r.files[i]);
      i := i + 1;
      if path != "" && path !in calls {
        calls := calls + [path];
        if |calls| >= AUTO_READS {
          break;
        }
      }
    }
    ghost var fileReads := calls;
    i := 0;
    while i < |r.matches|
      invariant 0 <= i <= |r.matches|
      invariant Gather(calls, r.matches[i..]) == Gather(fileReads, r.matches)
    {
      var path := JsonTree.Trim(r.matches[i]);
      i := i + 1;
      if path != "" && path !in calls {
        calls := calls + [path];
        if |calls| >= AUTO_READS {
          break;
        }
      }
    }
  }

  predicate Distinct(ps: seq<string>) {
    forall i, j :: 0 <= i < j < |ps| ==> ps[i] != ps[j]
  }

  lemma {:induction false} GatherBounds(found: seq<string>, paths: seq<string>)
    requires Distinct(found) && "" !in found
    ensures var g := Gather(found, paths);
            Distinct(g) && "" !in g && found <= g && |g| <= if |found| + 1 > AUTO_READS then |found| + 1 else AUTO_READS
    decreases |paths|
  {
    if paths != [] {
      var p := JsonTree.Trim(paths[0]);
      if p == "" || p in found {
        GatherBounds(found, paths[1..]);
      } else if |found| + 1 < AUTO_READS {
        GatherBounds(found + [p], paths[1..]);
      }
    }
  }

  /** Some path is new: non-empty and not in the list yet. */
  predicate AddsOne(found: seq<string>, paths: seq<string>) {
    exists i :: 0 <= i < |paths| && JsonTree.Trim(paths[i]) != "" && JsonTree.Trim(paths[i]) !in found
  }

  /** A list at the cap or one short of it gains one path exactly if there is a new one. */
  lemma {:induction false} GatherAddsOne(found: seq<string>, paths: seq<string>)
    requires |found| + 1 >= AUTO_READS
    ensures |Gather(found, paths)| == |found| + if AddsOne(found, paths) then 1 else 0
    decreases |paths|
  {
    if paths != [] {
      var p := JsonTree.Trim(paths[0]);
      if p == "" || p in found {
        GatherAddsOne(found, paths[1..]);
        assert forall i :: 1 <= i < |paths| ==> paths[i] == paths[1..][i - 1];
        assert AddsOne(found, paths[1..]) ==> AddsOne(found, paths);
      }
    }
  }

  /** What the symbols give, and what symbols and files give. */
  function SymbolReads(r: ToolResult): seq<string> {
    Gather([], RankedPaths(r.symbols))
  }

  function FileReads(r: ToolResult): seq<string> {
    Gather(SymbolReads(r), r.files)
  }

  /** The cap of two is really three, exactly if the reads are due, symbols alone give fewer than two and
      with the files two, and some match names a new path. */
  predicate ReadsThree(r: ToolResult, attempted: seq<string>) {
    && r.codeQuestion && "workspace_read" !in attempted
    && |SymbolReads(r)| < AUTO_READS && |FileReads(r)| == AUTO_READS
    && AddsOne(FileReads(r), r.matches)
  }

  /** There are at most three reads, on distinct non-empty paths, and three exactly in that case. */
  lemma ReadsBounds(r: ToolResult, attempted: seq<string>)
    ensures var g := Reads(r, attempted);
            Distinct(g) && "" !in g && |g| <= 3 && (|g| == 3 <==> ReadsThree(r, attempted))
  {
    var a, b := SymbolReads(r), FileReads(r);
    GatherBounds([], RankedPaths(r.symbols));
    if |a| < AUTO_READS {
      GatherBounds(a, r.files);
      GatherBounds(b, r.matches);
      if |b| + 1 >= AUTO_READS {
        GatherAddsOne(b, r.matches);
      }
    }
  }

  /** Three reads do happen. */
  lemma ThreeReads()
    ensures Reads(ToolResult(false, true, [], ["a", "b"], ["c"]), []) == ["a", "b", "c"]
  {
    assert JsonTree.Trim("a") == "a" && JsonTree.Trim("b") == "b" && JsonTree.Trim("c") == "c" by {
      assert JsonTree.TrimStart("a") == "a" && JsonTree.TrimStart("b") == "b" && JsonTree.TrimStart("c") == "c";
    }
    assert Paths([], true) == [] && Paths([], false) == [];
    var none: seq<string> := [];
    assert Gather(none, RankedPaths([])) == [];
    assert ["a", "b"][1..] == ["b"] && ["c"][1..] == none;
    assert none + ["a"] == ["a"];
    assert Gather(none, ["a", "b"]) == Gather(["a"], ["b"]) == ["a", "b"];
    assert Gather(["a", "b"], ["c"]) == ["a", "b", "c"];
  }

  // --- The loop ---

  function FollowUps(paths: seq<string>): seq<Execution> {
    seq(|paths|, i requires 0 <= i < |paths| => Execution("workspace_read", FollowUp(paths[i])))
  }

  /** `executeReadOnlyToolChain`: the call itself, then its follow-up reads. */
  function Chain(turn: Turn, executed: seq<Execution>, tool: string, origin: Origin): seq<Execution> {
    [Execution(tool, origin)]
    + if tool in {"browse_code", "workspace_search"}
      then FollowUps(Reads(turn.result(|executed|), Tools(executed) + [tool])) else []
  }

  predicate AnyNoIndex(turn: Turn, from: nat, to: nat) {
    exists n :: from <= n < to && turn.result(n).noIndex
  }

  /** The loop's variables. `calls` counts model calls, `usage` what they cost. */
  datatype Loop = Loop(calls: nat, usage: int, executed: seq<Execution>, signatures: set<string>, duplicates: nat,
                       disposition: Disposition, discovered: bool, noIndex: bool)

  datatype Exit =
    | Text(content: string)
    | Answered(content: string)
    | Clarified(message: string)
    | Unblocked(summary: string)

  datatype Verdict = Continue(next: Loop) | Break(next: Loop) | Return(next: Loop, exit: Exit)

  const START := Loop(0, 0, [], {}, 0, Untouched, false, false)

  predicate WantsDiscovery(turn: Turn, st: Loop) {
    !st.discovered && st.executed == [] && st.disposition == Untouched && DiscoveryTool(turn).Some?
  }

  function Discover(turn: Turn, st: Loop): Loop
    requires DiscoveryTool(turn).Some?
  {
    st.(discovered := true, disposition := Repaired,
        executed := st.executed + Chain(turn, st.executed, DiscoveryTool(turn).value, Discovery))
  }

  /** One iteration, given the reply to its model call. */
  function Iterate(turn: Turn, before: Loop): Verdict {
    var reply := turn.reply(before.calls);
    var st := before.(calls := before.calls + 1, usage := before.usage + reply.tokens);
    var decision := turn.parse(reply.content);
    if decision.None? then
      if WantsDiscovery(turn, st) then Continue(Discover(turn, st)) else Return(st, Text(reply.content))
    else
      match decision.value
      case Unblock(summary) => Return(st, Unblocked(summary))
      case Answer(content) =>
        if WantsDiscovery(turn, st) then Continue(Discover(turn, st)) else Return(st, Answered(content))
      case Clarify(message) => Return(st, Clarified(message))
      case Invoke(tool, _, args) =>
        if tool.None? || tool.value !in turn.allowed then Continue(st.(disposition := Rejected))
        else
          var signature := turn.sign(tool.value, args);
          if signature in st.signatures then
            var s1 := st.(duplicates := st.duplicates + 1);
            if s1.duplicates >= MAX_DUPLICATE_TOOL_ATTEMPTS then Break(s1) else Continue(s1)
          else
            var ran := Chain(turn, st.executed, tool.value, Chosen(signature));
            var s1 := st.(executed := st.executed + ran, signatures := st.signatures + {signature},
                          disposition := if tool.value in turn.agentTools then Executed else Repaired);
            if AnyNoIndex(turn, |st.executed|, |s1.executed|) then Break(s1.(noIndex := true)) else Continue(s1)
  }

  /** The `for` loop from iteration `st.calls` on; running out of iterations is a Break. */
  function Iterations(turn: Turn, st: Loop): Verdict
    decreases MAX_READ_ONLY_TOOL_LOOPS - st.calls
  {
    if st.calls >= MAX_READ_ONLY_TOOL_LOOPS then Break(st)
    else
      var v := Iterate(turn, st);
      if v.Continue? then Iterations(turn, v.next) else v
  }

  datatype Ending =
    | InLoop(exit: Exit)
    | Forced(content: string)
    | SafeMessage(tool: Option<string>)
    | LastText(content: string)

  datatype Outcome = Outcome(ending: Ending, usage: int, calls: nat, executed: seq<Execution>, disposition: Disposition)

  /** `extractUserFacingContent`, with empty content counted as none. */
  function Extract(turn: Turn, content: string): Option<string> {
    var shown := match turn.parse(content)
                 case None => JsonTree.Trim(content)
                 case Some(Answer(c)) => c
                 case Some(Clarify(m)) => m
                 case _ => "";
    if shown == "" then None else Some(shown)
  }

  /** After the loop: a forced answer when there is evidence, else the last reply or the safe message. */
  function AfterLoop(turn: Turn, st: Loop): Outcome
    requires st.calls > 0
  {
    var last := turn.reply(st.calls - 1);
    var decision := turn.parse(last.content);
    var intent := decision.Some? && decision.value.Invoke?;
    var force := (intent || st.duplicates >= MAX_DUPLICATE_TOOL_ATTEMPTS) && st.executed != [];
    var forced := turn.reply(st.calls);
    var content := Extract(turn, forced.content);
    if force && content.Some? then
      Outcome(Forced(content.value), st.usage + forced.tokens, st.calls + 1, st.executed, Repaired)
    else
      Outcome(if intent then SafeMessage(Named(decision.value)) else LastText(last.content), st.usage + last.tokens,
              st.calls + (if force then 1 else 0), st.executed, if intent then Stripped else st.disposition)
  }

  lemma {:induction false} SomeCallMade(turn: Turn, st: Loop)
    ensures Iterations(turn, st).Break? || Iterations(turn, st).Return?
    ensures st.calls < MAX_READ_ONLY_TOOL_LOOPS ==> Iterations(turn, st).next.calls > st.calls
    ensures st.calls >= MAX_READ_ONLY_TOOL_LOOPS ==> Iterations(turn, st) == Break(st)
    decreases MAX_READ_ONLY_TOOL_LOOPS - st.calls
  {
    if st.calls < MAX_READ_ONLY_TOOL_LOOPS {
      var v := Iterate(turn, st);
      if v.Continue? {
        SomeCallMade(turn, v.next);
      }
    }
  }

  /** The turn from start to end. */
  function Play(turn: Turn): (o: Outcome)
    ensures o.calls > 0
  {
    SomeCallMade(turn, START);
    var v := Iterations(turn, START);
    if v.Return? then Outcome(InLoop(v.exit), v.next.usage, v.next.calls, v.next.executed, v.next.disposition)
    else AfterLoop(turn, v.next)
  }

  method ExecuteReadOnlyToolChain(turn: Turn, executed: seq<Execution>, tool: string, origin: Origin)
    returns (ran: seq<Execution>)
    ensures ran == Chain(turn, executed, tool, origin)
  {
    var primary := turn.result(|executed|);
    ran := [Execution(tool, origin)];
    if tool == "browse_code" || tool == "workspace_search" {
      var calls := BuildAutomaticWorkspaceReadCalls(primary, Tools(executed) + [tool]);
      var i := 0;
      while i < |calls|
        invariant 0 <= i <= |calls| && ran == [Execution(tool, origin)] + FollowUps(calls[..i])
      {
        assert FollowUps(calls[..i + 1]) == FollowUps(calls[..i]) + [Execution("workspace_read", FollowUp(calls[i]))];
        ran := ran + [Execution("workspace_read", FollowUp(calls[i]))];
        i := i + 1;
      }
      assert calls[..|calls|] == calls;
    }
  }

  /** The loop body of `invokeCommonAgentRuntime`: one model call and what it leads to. */
  method RunIteration(turn: Turn, before: Loop) returns (v: Verdict)
    ensures v == Iterate(turn, before)
  {
    var reply := turn.reply(before.calls);
    var st := before.(calls := before.calls + 1, usage := before.usage + reply.tokens);
    var decision := turn.parse(reply.content);
    if decision.None? || decision.value.Answer? {
      var discovery := DiscoveryTool(turn);
      if !st.discovered && st.executed == [] && st.disposition == Untouched && discovery.Some? {
        var ran := ExecuteReadOnlyToolChain(turn, st.executed, discovery.value, Discovery);
        return Continue(st.(discovered := true, disposition := Repaired, executed := st.executed + ran));
      }
      return Return(st, if decision.None? then Text(reply.content) else Answered(decision.value.content));
    }
    if decision.value.Unblock? {
      return Return(st, Unblocked(decision.value.summary));
    }
    if decision.value.Clarify? {
      return Return(st, Clarified(decision.value.message));
    }
    var tool, args := decision.value.tool, decision.value.args;
    if tool.None? || tool.value !in turn.allowed {
      return Continue(st.(disposition := Rejected));
    }
    var signature := turn.sign(tool.value, args);
    if signature in st.signatures {
      st := st.(duplicates := st.duplicates + 1);
      return if st.duplicates >= MAX_DUPLICATE_TOOL_ATTEMPTS then Break(st) else Continue(st);
    }
    var from := |st.executed|;
    var ran := ExecuteReadOnlyToolChain(turn, st.executed, tool.value, Chosen(signature));
    st := st.(disposition := if tool.value in turn.agentTools then Executed else Repaired,
              executed := st.executed + ran, signatures := st.signatures + {signature});
    var noIndex := false;
    var n := from;
    while n < |st.executed|
      invariant from <= n <= |st.executed|
      invariant noIndex <==> AnyNoIndex(turn, from, n)
    {
      noIndex := noIndex || turn.result(n).noIndex;
      n := n + 1;
    }
    return if noIndex then Break(st.(noIndex := true)) else Continue(st);
  }

  /** The whole turn. */
  method InvokeToolLoop(turn: Turn) returns (out: Outcome)
    ensures out == Play(turn)
  {
    SomeCallMade(turn, START);
    var st := START;
    var left := false;
    while !left && st.calls < MAX_READ_ONLY_TOOL_LOOPS
      invariant Iterations(turn, START) == if left then Break(st) else Iterations(turn, st)
      decreases !left, MAX_READ_ONLY_TOOL_LOOPS - st.calls
    {
      var v := RunIteration(turn, st);
      if v.Return? {
        return Outcome(InLoop(v.exit), v.next.usage, v.next.calls, v.next.executed, v.next.disposition);
      }
      left := v.Break?;
      st := v.next;
    }
    out := AfterLoop(turn, st);
  }

  // --- What has run ---

  function Primaries(ex: seq<Execution>): nat {
    if ex == [] then 0 else Primaries(ex[..|ex| - 1]) + if ex[|ex| - 1].origin.FollowUp? then 0 else 1
  }

  function ReadPaths(ex: seq<Execution>): seq<string> {
    if ex == [] then []
    else ReadPaths(ex[..|ex| - 1]) + if ex[|ex| - 1].origin.FollowUp? then [ex[|ex| - 1].origin.path] else []
  }

  function Signatures(ex: seq<Execution>): seq<string> {
    if ex == [] then []
    else Signatures(ex[..|ex| - 1]) + if ex[|ex| - 1].origin.Chosen? then [ex[|ex| - 1].origin.signature] else []
  }

  lemma {:induction false} SizesAddUp(ex: seq<Execution>)
    ensures |ex| == Primaries(ex) + |ReadPaths(ex)|
  {
    if ex != [] {
      SizesAddUp(ex[..|ex| - 1]);
    }
  }

  lemma OneMore(ex: seq<Execution>, e: Execution)
    ensures Primaries(ex + [e]) == Primaries(ex) + if e.origin.FollowUp? then 0 else 1
    ensures ReadPaths(ex + [e]) == ReadPaths(ex) + if e.origin.FollowUp? then [e.origin.path] else []
    ensures Signatures(ex + [e]) == Signatures(ex) + if e.origin.Chosen? then [e.origin.signature] else []
  {
    assert (ex + [e])[..|ex|] == ex;
  }

  function Read(path: string): Execution {
    Execution("workspace_read", FollowUp(path))
  }

  lemma ReadsSnoc(ex: seq<Execution>, paths: seq<string>, path: string)
    ensures ex + FollowUps(paths + [path]) == (ex + FollowUps(paths)) + [Read(path)]
  {
    assert FollowUps(paths + [path]) == FollowUps(paths) + [Read(path)];
  }

  lemma {:induction false} ReadsRun(ex: seq<Execution>, paths: seq<string>)
    ensures Primaries(ex + FollowUps(paths)) == Primaries(ex)
    ensures ReadPaths(ex + FollowUps(paths)) == ReadPaths(ex) + paths
    ensures Signatures(ex + FollowUps(paths)) == Signatures(ex)
    decreases |paths|
  {
    var n := |paths| - 1;
    if paths == [] {
      assert ex + FollowUps(paths) == ex;
    } else {
      ReadsRun(ex, paths[..n]);
      assert paths == paths[..n] + [paths[n]];
      ReadsSnoc(ex, paths[..n], paths[n]);
      OneMore(ex + FollowUps(paths[..n]), Read(paths[n]));
    }
  }

  /** Reads follow automatically at most once per turn, three at most, on distinct paths. */
  predicate ReadsOk(ex: seq<Execution>) {
    && |ReadPaths(ex)| <= 3 && Distinct(ReadPaths(ex))
    && (ReadPaths(ex) != [] ==> "workspace_read" in Tools(ex))
  }

  lemma ToolsMore(ex: seq<Execution>, more: seq<Execution>)
    ensures Tools(ex + more) == Tools(ex) + Tools(more)
  {}

  /** One chain adds one primary call, and keeps the reads within their bounds. */
  lemma ChainRuns(turn: Turn, ex: seq<Execution>, tool: string, origin: Origin)
    requires ReadsOk(ex) && !origin.FollowUp?
    ensures var more := ex + Chain(turn, ex, tool, origin);
            && more != [] && Primaries(more) == Primaries(ex) + 1 && ReadsOk(more)
            && Signatures(more) == Signatures(ex) + (if origin.Chosen? then [origin.signature] else [])
  {
    var e := Execution(tool, origin);
    var paths := if tool in {"browse_code", "workspace_search"}
                 then Reads(turn.result(|ex|), Tools(ex) + [tool]) else [];
    var none: seq<string> := [];
    assert FollowUps(none) == [];
    assert ex + Chain(turn, ex, tool, origin) == ex + [e] + FollowUps(paths);
    OneMore(ex, e);
    ReadsRun(ex + [e], paths);
    ReadsBounds(turn.result(|ex|), Tools(ex) + [tool]);
    ToolsMore(ex, [e]);
    ToolsMore(ex + [e], FollowUps(paths));
    if paths != [] {
      assert "workspace_read" !in Tools(ex);
      assert Tools(FollowUps(paths))[0] == "workspace_read";
      assert "workspace_read" in Tools(FollowUps(paths));
      assert ReadPaths(ex) + paths == paths;
    } else {
      assert ReadPaths(ex) + paths == ReadPaths(ex);
      assert forall x :: x in Tools(ex) ==> x in Tools(ex + [e] + FollowUps(paths));
    }
  }

  // --- What every iteration keeps ---

  predicate IsIntent(turn: Turn, k: nat) {
    var d := turn.parse(turn.reply(k).content);
    d.Some? && d.value.Invoke?
  }

  /** Reply `k` asks for a tool that is unknown or not allowed. */
  predicate IsRejected(turn: Turn, k: nat) {
    IsIntent(turn, k)
    && (var d := turn.parse(turn.reply(k).content).value; d.tool.None? || d.tool.value !in turn.allowed)
  }

  predicate AllRejected(turn: Turn, n: nat) {
    forall k: nat :: k < n ==> IsRejected(turn, k)
  }

  function Cost(turn: Turn, n: nat): int {
    if n == 0 then 0 else Cost(turn, n - 1) + turn.reply(n - 1).tokens
  }

  /** The first execution, if any, is the only one that may be a discovery. */
  predicate DiscoveryFirst(st: Loop) {
    && (st.discovered <==> st.executed != [] && st.executed[0].origin.Discovery?)
    && forall i :: 0 < i < |st.executed| ==> !st.executed[i].origin.Discovery?
  }

  /** True of the variables whether an iteration goes on, breaks or returns. */
  ghost predicate Sound(turn: Turn, st: Loop) {
    && st.calls <= MAX_READ_ONLY_TOOL_LOOPS && Primaries(st.executed) <= st.calls && ReadsOk(st.executed)
    && Distinct(Signatures(st.executed)) && (forall s :: s in Signatures(st.executed) <==> s in st.signatures)
    && st.usage == Cost(turn, st.calls)
    && DiscoveryFirst(st) && (st.discovered ==> !IsIntent(turn, 0))
    && (st.duplicates > 0 ==> st.executed != [])
  }

  /** What holds between iterations: once a call has been answered and the loop goes on, the
      disposition is set; and nothing has run exactly when every reply so far was rejected. */
  ghost predicate Between(turn: Turn, st: Loop) {
    && Sound(turn, st)
    && (st.calls > 0 ==> st.disposition != Untouched)
    && (st.calls == 0 ==> st == START)
    && (st.calls > 0 ==> IsIntent(turn, st.calls - 1) || (st.calls == 1 && st.discovered))
    && (st.executed == [] <==> AllRejected(turn, st.calls))
  }

  lemma ChainSound(turn: Turn, st: Loop, tool: string, origin: Origin)
    requires DiscoveryFirst(st) && ReadsOk(st.executed)
    requires origin.Chosen? || (origin.Discovery? && st.executed == [])
    ensures var s1 := st.(executed := st.executed + Chain(turn, st.executed, tool, origin),
                          discovered := st.discovered || origin.Discovery?);
            DiscoveryFirst(s1)
  {
    var more := Chain(turn, st.executed, tool, origin);
    assert more[0].origin == origin;
    assert forall i :: 0 < i < |more| ==> more[i].origin.FollowUp?;
  }

  lemma DiscoverKeeps(turn: Turn, st: Loop)
    requires Sound(turn, st) && WantsDiscovery(turn, st) && st.calls == 1 && !IsIntent(turn, 0)
    ensures Sound(turn, Discover(turn, st)) && Discover(turn, st).executed != []
    ensures Discover(turn, st).calls == 1
  {
    ChainRuns(turn, st.executed, DiscoveryTool(turn).value, Discovery);
    ChainSound(turn, st, DiscoveryTool(turn).value, Discovery);
    assert Primaries(st.executed) == 0;
  }

  lemma ChosenKeeps(turn: Turn, st: Loop, tool: string, signature: string, s1: Loop)
    requires Sound(turn, st) && signature !in st.signatures && Primaries(st.executed) < st.calls
    requires s1 == st.(executed := st.executed + Chain(turn, st.executed, tool, Chosen(signature)),
                       signatures := st.signatures + {signature}, disposition := s1.disposition, noIndex := s1.noIndex)
    ensures Sound(turn, s1) && s1.executed != []
  {
    ChainRuns(turn, st.executed, tool, Chosen(signature));
    ChainSound(turn, st, tool, Chosen(signature));
    assert Signatures(s1.executed) == Signatures(st.executed) + [signature];
  }

  /** How an iteration, or the whole loop, may come out. */
  ghost predicate ComesOut(turn: Turn, v: Verdict) {
    var n := v.next.calls;
    && n > 0 && Sound(turn, v.next)
    && match v
       case Continue(st) => Between(turn, st)
       case Break(st) => IsIntent(turn, n - 1) && (st.executed == [] ==> AllRejected(turn, n))
       case Return(st, exit) =>
         && !IsIntent(turn, n - 1) && (st.executed == [] <==> AllRejected(turn, n - 1))
         && (n == 1 && DiscoveryTool(turn).Some? ==> exit.Clarified? || exit.Unblocked?)
  }

  /** The variables right after the model call. */
  function Called(turn: Turn, before: Loop): Loop {
    before.(calls := before.calls + 1, usage := before.usage + turn.reply(before.calls).tokens)
  }

  lemma CalledSound(turn: Turn, before: Loop)
    requires Between(turn, before) && before.calls < MAX_READ_ONLY_TOOL_LOOPS
    ensures Sound(turn, Called(turn, before)) && Primaries(before.executed) < Called(turn, before).calls
    ensures AllRejected(turn, before.calls + 1) <==> AllRejected(turn, before.calls) && IsRejected(turn, before.calls)
    ensures WantsDiscovery(turn, Called(turn, before)) ==> before.calls == 0
  {}

  /** A reply that is no tool intent either starts the discovery or ends the turn. */
  lemma TalkIs(turn: Turn, before: Loop) returns (exit: Exit)
    requires !IsIntent(turn, before.calls)
    ensures var st := Called(turn, before);
            if WantsDiscovery(turn, st) && !exit.Clarified? && !exit.Unblocked?
            then Iterate(turn, before) == Continue(Discover(turn, st))
            else Iterate(turn, before) == Return(st, exit)
  {
    var reply := turn.reply(before.calls);
    var decision := turn.parse(reply.content);
    exit := if decision.None? then Text(reply.content)
            else match decision.value
                 case Answer(content) => Answered(content)
                 case Clarify(message) => Clarified(message)
                 case Unblock(summary) => Unblocked(summary)
                 case Invoke(_, _, _) => Text("");
  }

  lemma DiscoveryBetween(turn: Turn, before: Loop)
    requires Between(turn, before) && before.calls < MAX_READ_ONLY_TOOL_LOOPS && !IsIntent(turn, before.calls)
    requires WantsDiscovery(turn, Called(turn, before))
    ensures Between(turn, Discover(turn, Called(turn, before))) && Discover(turn, Called(turn, before)).calls == 1
  {
    CalledSound(turn, before);
    DiscoverKeeps(turn, Called(turn, before));
    assert !AllRejected(turn, 1) by { assert !IsRejected(turn, 0); }
  }

  lemma TalkComesOut(turn: Turn, before: Loop)
    requires Between(turn, before) && before.calls < MAX_READ_ONLY_TOOL_LOOPS && !IsIntent(turn, before.calls)
    ensures ComesOut(turn, Iterate(turn, before)) && Iterate(turn, before).next.calls == before.calls + 1
  {
    var exit := TalkIs(turn, before);
    var st := Called(turn, before);
    CalledSound(turn, before);
    if WantsDiscovery(turn, st) && !exit.Clarified? && !exit.Unblocked? {
      DiscoveryBetween(turn, before);
    } else if st.calls == 1 && DiscoveryTool(turn).Some? {
      assert before == START;
    }
  }

  lemma RefusedComesOut(turn: Turn, before: Loop)
    requires Between(turn, before) && before.calls < MAX_READ_ONLY_TOOL_LOOPS && IsRejected(turn, before.calls)
    ensures ComesOut(turn, Iterate(turn, before)) && Iterate(turn, before).next.calls == before.calls + 1
  {
    CalledSound(turn, before);
  }

  lemma RepeatedSound(turn: Turn, st: Loop, signature: string)
    requires Sound(turn, st) && signature in st.signatures
    ensures st.executed != [] && Sound(turn, st.(duplicates := st.duplicates + 1))
  {
    assert st.executed == [] ==> Signatures(st.executed) == [];
  }

  /** The call of an intent that is not rejected, and the variables after running it. */
  function SignatureOf(turn: Turn, k: nat): string
    requires IsIntent(turn, k) && !IsRejected(turn, k)
  {
    var d := turn.parse(turn.reply(k).content).value;
    turn.sign(d.tool.value, d.args)
  }

  lemma ChosenIs(turn: Turn, before: Loop)
    requires IsIntent(turn, before.calls) && !IsRejected(turn, before.calls)
    ensures var st := Called(turn, before);
            var tool := turn.parse(turn.reply(before.calls).content).value.tool.value;
            var signature := SignatureOf(turn, before.calls);
            var s1 := Iterate(turn, before).next;
            && !Iterate(turn, before).Return?
            && if signature in st.signatures then s1 == st.(duplicates := st.duplicates + 1)
               else s1 == st.(executed := st.executed + Chain(turn, st.executed, tool, Chosen(signature)),
                              signatures := st.signatures + {signature}, disposition := s1.disposition,
                              noIndex := s1.noIndex)
                    && s1.disposition != Untouched
  {}

  lemma ChosenSound(turn: Turn, before: Loop)
    requires Between(turn, before) && before.calls < MAX_READ_ONLY_TOOL_LOOPS
    requires IsIntent(turn, before.calls) && !IsRejected(turn, before.calls)
    ensures var v := Iterate(turn, before);
            !v.Return? && Sound(turn, v.next) && v.next.executed != [] && v.next.calls == before.calls + 1
            && (v.next.disposition != Untouched)
  {
    CalledSound(turn, before);
    ChosenIs(turn, before);
    var st := Called(turn, before);
    var signature := SignatureOf(turn, before.calls);
    if signature in st.signatures {
      RepeatedSound(turn, st, signature);
      assert before.calls > 0;
    } else {
      ChosenKeeps(turn, st, turn.parse(turn.reply(before.calls).content).value.tool.value, signature,
                  Iterate(turn, before).next);
    }
  }

  lemma ChosenComesOut(turn: Turn, before: Loop)
    requires Between(turn, before) && before.calls < MAX_READ_ONLY_TOOL_LOOPS
    requires IsIntent(turn, before.calls) && !IsRejected(turn, before.calls)
    ensures ComesOut(turn, Iterate(turn, before)) && Iterate(turn, before).next.calls == before.calls + 1
  {
    ChosenSound(turn, before);
    assert !AllRejected(turn, before.calls + 1);
  }

  lemma {:induction false} IterationsComeOut(turn: Turn, st: Loop)
    requires Between(turn, st)
    ensures st.calls < MAX_READ_ONLY_TOOL_LOOPS || !(st.calls == 1 && st.discovered)
    ensures ComesOut(turn, Iterations(turn, st)) && !Iterations(turn, st).Continue?
    decreases MAX_READ_ONLY_TOOL_LOOPS - st.calls
  {
    if st.calls < MAX_READ_ONLY_TOOL_LOOPS {
      if !IsIntent(turn, st.calls) {
        TalkComesOut(turn, st);
      } else if IsRejected(turn, st.calls) {
        RefusedComesOut(turn, st);
      } else {
        ChosenComesOut(turn, st);
      }
      var v := Iterate(turn, st);
      if v.Continue? {
        IterationsComeOut(turn, v.next);
      }
    }
  }

  // --- What every turn guarantees ---

  /** How the loop ended, for every turn. */
  lemma LoopEnd(turn: Turn) returns (v: Verdict)
    ensures v == Iterations(turn, START) && !v.Continue? && ComesOut(turn, v)
  {
    assert Between(turn, START) by {
      assert Signatures([]) == [] && ReadPaths([]) == [] && Primaries([]) == 0;
    }
    IterationsComeOut(turn, START);
    v := Iterations(turn, START);
  }

  /** One turn makes at most six model calls and eight tool executions: five calls of its own and at
      most three automatic reads, on distinct paths; no two calls the model chose share a signature. */
  lemma TurnBounds(turn: Turn)
    ensures var o := Play(turn);
            && 1 <= o.calls <= MAX_READ_ONLY_TOOL_LOOPS + 1
            && Primaries(o.executed) <= MAX_READ_ONLY_TOOL_LOOPS
            && |ReadPaths(o.executed)| <= 3 && Distinct(ReadPaths(o.executed))
            && |o.executed| <= 8
            && Distinct(Signatures(o.executed))
  {
    var v := LoopEnd(turn);
    SizesAddUp(v.next.executed);
  }

  /** Automatic discovery runs at most once, before anything else, and only after a first reply that
      asked for no tool. */
  lemma DiscoveryIsFirst(turn: Turn, i: nat)
    ensures var ex := Play(turn).executed;
            i < |ex| && ex[i].origin.Discovery? ==> i == 0 && !IsIntent(turn, 0)
  {
    var v := LoopEnd(turn);
  }

  /** The end of a turn that is not passed on from inside the loop. */
  ghost predicate SafelyEnded(turn: Turn, o: Outcome) {
    && o.calls > 0
    && (o.ending.Forced? || o.ending.SafeMessage?)
    && (o.ending.Forced? ==>
          o.executed != [] && o.calls > 1 && IsIntent(turn, o.calls - 2)
          && Extract(turn, turn.reply(o.calls - 1).content) == Some(o.ending.content))
    && (o.ending.SafeMessage? ==>
          (o.executed == [] && AllRejected(turn, o.calls) && IsIntent(turn, o.calls - 1))
          || (o.executed != [] && o.calls > 1 && IsIntent(turn, o.calls - 2)
              && Extract(turn, turn.reply(o.calls - 1).content).None?))
  }

  lemma AfterIntent(turn: Turn, st: Loop)
    requires st.calls > 0 && IsIntent(turn, st.calls - 1) && (st.executed == [] ==> AllRejected(turn, st.calls))
    ensures SafelyEnded(turn, AfterLoop(turn, st))
  {}

  /** A turn that falls out of its loop has just been asked for a tool again, so it never passes that
      reply on: it ends with a forced answer, which needs evidence, or with the fixed safe message. */
  lemma FallThroughIsSafe(turn: Turn)
    ensures Play(turn).ending.InLoop? || SafelyEnded(turn, Play(turn))
  {
    var v := LoopEnd(turn);
    if v.Break? {
      AfterIntent(turn, v.next);
    }
  }

  predicate IsAnswer(e: Ending) {
    e.InLoop? && (e.exit.Answered? || e.exit.Text?)
  }

  /** With discovery available, an answer or plain text accepted inside the loop rests on a tool
      execution, except exactly when every earlier reply, of at least one, asked for a tool that was
      rejected. */
  lemma AnswersAreGrounded(turn: Turn)
    requires DiscoveryTool(turn).Some? && IsAnswer(Play(turn).ending)
    ensures var o := Play(turn);
            o.calls > 1 && (o.executed == [] <==> AllRejected(turn, o.calls - 1))
  {
    var v := LoopEnd(turn);
  }

  /** The exception happens: a rejected request marks the turn as touched, and the discovery that
      would have preceded the answer is skipped. */
  lemma RejectedThenAnswered(turn: Turn, content: string)
    requires DiscoveryTool(turn).Some? && IsRejected(turn, 0)
    requires turn.parse(turn.reply(1).content) == Some(Answer(content))
    ensures Play(turn).ending == InLoop(Answered(content)) && Play(turn).executed == []
  {
    var st := Called(turn, START).(disposition := Rejected);
    assert Iterate(turn, START) == Continue(st);
    assert Iterate(turn, st) == Return(Called(turn, st), Answered(content));
    assert Iterations(turn, st) == Iterate(turn, st);
    assert Iterations(turn, START) == Iterations(turn, st);
  }

  ghost predicate Accounted(turn: Turn, o: Outcome) {
    if o.ending.SafeMessage? && o.executed != [] then
      o.calls > 1 && o.usage == Cost(turn, o.calls) + turn.reply(o.calls - 2).tokens - turn.reply(o.calls - 1).tokens
    else if o.ending.SafeMessage? then
      o.calls > 0 && o.usage == Cost(turn, o.calls) + turn.reply(o.calls - 1).tokens
    else o.usage == Cost(turn, o.calls)
  }

  lemma AfterAccounted(turn: Turn, st: Loop)
    requires st.calls > 0 && IsIntent(turn, st.calls - 1) && st.usage == Cost(turn, st.calls)
    ensures Accounted(turn, AfterLoop(turn, st))
  {
    assert Cost(turn, st.calls + 1) == Cost(turn, st.calls) + turn.reply(st.calls).tokens;
  }

  /** What the turn reports as used is what its model calls cost, except behind a safe message: there
      the last loop reply is counted twice and a forced reply not at all, so the report is right
      exactly when these balance. */
  lemma UsageIsExactUnlessSafe(turn: Turn)
    ensures Accounted(turn, Play(turn))
  {
    var v := LoopEnd(turn);
    if v.Break? {
      AfterAccounted(turn, v.next);
    }
  }
}
