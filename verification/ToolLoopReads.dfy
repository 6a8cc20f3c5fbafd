/** Which files the automatic reads of a chain take, and where in a turn they run. */
module ToolLoopReads {
  // server/agentRuntime.ts:620-849.

  import opened Prelude
  import opened ToolLoop
  import opened ToolLoopAnswers
  import JsonTree

  // --- The order of the symbols ---

  /** `ks` lists indices of `symbols`, the preferred symbols before the others, each group in its order. */
  ghost predicate Ranks(symbols: seq<Symbol>, ks: seq<nat>) {
    && |ks| == |symbols| && (forall i :: 0 <= i < |ks| ==> ks[i] < |symbols|)
    && forall i, j :: 0 <= i < j < |ks| ==>
         || (symbols[ks[i]].preferred && !symbols[ks[j]].preferred)
         || (symbols[ks[i]].preferred == symbols[ks[j]].preferred && ks[i] < ks[j])
  }

  /** The symbols of one group, as increasing indices with their paths. */
  ghost predicate Lists(symbols: seq<Symbol>, preferred: bool, ks: seq<nat>, paths: seq<string>) {
    && |paths| == |ks|
    && (forall i :: 0 <= i < |ks| ==>
          ks[i] < |symbols| && symbols[ks[i]].preferred == preferred && paths[i] == symbols[ks[i]].filePath)
    && forall i, j :: 0 <= i < j < |ks| ==> ks[i] < ks[j]
  }

  function Shifted(ks: seq<nat>): (r: seq<nat>)
    ensures |r| == |ks| && forall i :: 0 <= i < |ks| ==> r[i] == ks[i] + 1
  {
    seq(|ks|, i requires 0 <= i < |ks| => ks[i] + 1)
  }

  function CountOf(symbols: seq<Symbol>, preferred: bool): nat {
    if symbols == [] then 0
    else (if symbols[0].preferred == preferred then 1 else 0) + CountOf(symbols[1..], preferred)
  }

  lemma {:induction false} CountsAddUp(symbols: seq<Symbol>)
    ensures CountOf(symbols, true) + CountOf(symbols, false) == |symbols|
  {
    if symbols != [] {
      CountsAddUp(symbols[1..]);
    }
  }

  lemma ListsLater(symbols: seq<Symbol>, preferred: bool, js: seq<nat>, paths: seq<string>)
    requires symbols != [] && Lists(symbols[1..], preferred, js, paths)
    ensures Lists(symbols, preferred, Shifted(js), paths)
  {
    assert forall k: nat :: k < |symbols| - 1 ==> symbols[1..][k] == symbols[k + 1];
  }

  lemma ListsFirst(symbols: seq<Symbol>, preferred: bool, ks: seq<nat>, paths: seq<string>)
    requires symbols != [] && symbols[0].preferred == preferred && Lists(symbols, preferred, ks, paths) && 0 !in ks
    ensures Lists(symbols, preferred, [0] + ks, [symbols[0].filePath] + paths)
  {}

  lemma {:induction false} PathsList(symbols: seq<Symbol>, preferred: bool) returns (ks: seq<nat>)
    ensures Lists(symbols, preferred, ks, Paths(symbols, preferred)) && |ks| == CountOf(symbols, preferred)
  {
    ks := [];
    if symbols != [] {
      var js := PathsList(symbols[1..], preferred);
      var paths := Paths(symbols[1..], preferred);
      ListsLater(symbols, preferred, js, paths);
      ks := Shifted(js);
      if symbols[0].preferred == preferred {
        ListsFirst(symbols, preferred, ks, paths);
        ks := [0] + ks;
      } else {
        assert [] + paths == paths;
      }
    }
  }

  /** The symbols are read as a stable sort with the preferred ones first leaves them. */
  lemma RankedAre(symbols: seq<Symbol>) returns (ks: seq<nat>)
    ensures Ranks(symbols, ks) && |RankedPaths(symbols)| == |ks|
    ensures forall i :: 0 <= i < |ks| ==> RankedPaths(symbols)[i] == symbols[ks[i]].filePath
  {
    var a := PathsList(symbols, true);
    var b := PathsList(symbols, false);
    CountsAddUp(symbols);
    ks := a + b;
  }

  // --- What is taken from a list of paths ---

  function At(paths: seq<string>, k: nat): string
    requires k < |paths|
  {
    JsonTree.Trim(paths[k])
  }

  /** `taken` continues `found` with the paths at `ks`, trimmed, from left to right; none is blank or in the
      list already, and only the last may bring it to two or more. */
  ghost predicate Picks(found: seq<string>, paths: seq<string>, ks: seq<nat>, taken: seq<string>) {
    && |taken| == |found| + |ks| && taken[..|found|] == found && (|ks| > 1 ==> |taken| <= 2)
    && (forall i :: 0 <= i < |ks| ==> ks[i] < |paths| && taken[|found| + i] == At(paths, ks[i])
                                      && At(paths, ks[i]) != "" && At(paths, ks[i]) !in taken[..|found| + i])
    && forall i, j :: 0 <= i < j < |ks| ==> ks[i] < ks[j]
  }

  /** Path `k` is looked at: the list is not full before it. */
  predicate Looked(ks: seq<nat>, taken: seq<string>, k: nat) {
    ks == [] || |taken| < 2 || k <= ks[|ks| - 1]
  }

  /** No path looked at is passed over that is not blank and not in the list. */
  ghost predicate MissesNone(paths: seq<string>, ks: seq<nat>, taken: seq<string>) {
    forall k :: 0 <= k < |paths| && Looked(ks, taken, k) ==> At(paths, k) == "" || At(paths, k) in taken
  }

  ghost predicate Takes(found: seq<string>, paths: seq<string>, ks: seq<nat>, taken: seq<string>) {
    Picks(found, paths, ks, taken) && MissesNone(paths, ks, taken)
  }

  lemma {:induction false} GatherTakes(found: seq<string>, paths: seq<string>) returns (ks: seq<nat>)
    ensures Takes(found, paths, ks, Gather(found, paths))
    decreases |paths|
  {
    ks := [];
    if paths != [] {
      var p := JsonTree.Trim(paths[0]);
      if p == "" || p in found {
        var js := GatherTakes(found, paths[1..]);
        ks := Shifted(js);
        PicksLater(found, paths, js, Gather(found, paths[1..]));
        MissesNoneLater(paths, js, ks, Gather(found, paths[1..]));
      } else if |found| + 1 >= 2 {
        ks := [0];
        OnlyFirst(found, paths);
      } else {
        var js := GatherTakes(found + [p], paths[1..]);
        PicksLater(found + [p], paths, js, Gather(found + [p], paths[1..]));
        ks := [0] + Shifted(js);
        PicksFirst(found, paths, Shifted(js), Gather(found + [p], paths[1..]));
        MissesNoneLater(paths, js, ks, Gather(found + [p], paths[1..]));
      }
    }
  }

  lemma OnlyFirst(found: seq<string>, paths: seq<string>)
    requires paths != [] && At(paths, 0) != "" && At(paths, 0) !in found && |found| + 1 >= 2
    ensures Takes(found, paths, [0], found + [At(paths, 0)])
  {
    assert (found + [At(paths, 0)])[..|found|] == found;
  }

  lemma PicksLater(found: seq<string>, paths: seq<string>, js: seq<nat>, taken: seq<string>)
    requires paths != [] && Picks(found, paths[1..], js, taken)
    ensures Picks(found, paths, Shifted(js), taken)
  {
    assert forall k: nat :: k < |paths| - 1 ==> At(paths[1..], k) == At(paths, k + 1);
  }

  lemma PicksFirst(found: seq<string>, paths: seq<string>, ks: seq<nat>, taken: seq<string>)
    requires paths != [] && At(paths, 0) != "" && At(paths, 0) !in found && |found| + 1 < 2 && 0 !in ks
    requires Picks(found + [At(paths, 0)], paths, ks, taken)
    ensures Picks(found, paths, [0] + ks, taken)
  {
    var p, all, n := At(paths, 0), [0] + ks, |found|;
    assert found == [];
    assert taken[..1] == [p] && taken[0] == taken[..1][0];
    forall i | 0 <= i < |all|
      ensures all[i] < |paths| && taken[n + i] == At(paths, all[i])
      ensures At(paths, all[i]) != "" && At(paths, all[i]) !in taken[..n + i]
    {
      if i > 0 {
        assert all[i] == ks[i - 1];
        assert taken[1 + (i - 1)] == At(paths, ks[i - 1]);
      }
    }
  }

  lemma MissesNoneLater(paths: seq<string>, js: seq<nat>, ks: seq<nat>, taken: seq<string>)
    requires paths != [] && MissesNone(paths[1..], js, taken) && (At(paths, 0) == "" || At(paths, 0) in taken)
    requires ks == Shifted(js) || (ks == [0] + Shifted(js) && (js == [] ==> |taken| < 2))
    ensures MissesNone(paths, ks, taken)
  {
    forall k | 0 <= k < |paths| && Looked(ks, taken, k) ensures At(paths, k) == "" || At(paths, k) in taken {
      if k > 0 {
        assert Looked(js, taken, k - 1);
        assert At(paths[1..], k - 1) == At(paths, k);
      }
    }
  }

  /** What is read: nothing unless the reads are due, and else first from the symbols, then, with fewer
      than two so far, from the files and from the matches, in this order. */
  lemma ReadsTake(r: ToolResult, attempted: seq<string>)
    returns (a: seq<string>, b: seq<string>, ka: seq<nat>, kb: seq<nat>, kc: seq<nat>)
    ensures Takes([], RankedPaths(r.symbols), ka, a) && Takes(a, r.files, kb, b)
    ensures if !r.codeQuestion || "workspace_read" in attempted then Reads(r, attempted) == []
            else if |a| >= 2 then Reads(r, attempted) == a
            else Takes(b, r.matches, kc, Reads(r, attempted))
  {
    a, b := SymbolReads(r), FileReads(r);
    ka := GatherTakes([], RankedPaths(r.symbols));
    kb := GatherTakes(a, r.files);
    kc := GatherTakes(b, r.matches);
  }

  // --- Where reads run ---

  /** Behind the call at `p` run exactly the reads that its result names, if it is a discovery tool. */
  ghost predicate Followed(turn: Turn, ex: seq<Execution>, p: nat, q: nat)
    requires p < q <= |ex|
  {
    && var paths := if ex[p].tool in {"browse_code", "workspace_search"}
                    then Reads(turn.result(p), Tools(ex[..p]) + [ex[p].tool]) else [];
       && q - p - 1 == |paths|
       && forall i :: 0 <= i < |paths| ==> ex[p + 1 + i] == Execution("workspace_read", FollowUp(paths[i]))
  }

  /** The executions of a turn are calls, each with its reads. */
  ghost predicate Chained(turn: Turn, ex: seq<Execution>) {
    && (ex != [] ==> !ex[0].origin.FollowUp?)
    && forall p :: 0 <= p < |ex| && !ex[p].origin.FollowUp? ==> HasReads(turn, ex, p)
  }

  lemma ChainFollows(turn: Turn, ex: seq<Execution>, tool: string, origin: Origin)
    ensures var more := ex + Chain(turn, ex, tool, origin); Followed(turn, more, |ex|, |more|)
  {
    var more := ex + Chain(turn, ex, tool, origin);
    ChainParts(turn, ex, tool, origin);
    assert Tools(more[..|ex|]) == Tools(ex);
  }

  lemma StillFollowed(turn: Turn, ex: seq<Execution>, more: seq<Execution>, p: nat, q: nat)
    requires p < q <= |ex| <= |more| && more[..|ex|] == ex && Followed(turn, ex, p, q)
    ensures Followed(turn, more, p, q)
  {
    assert more[..p] == ex[..p];
    assert forall i :: 0 <= i < |ex| ==> more[i] == ex[i];
  }

  ghost predicate HasReads(turn: Turn, ex: seq<Execution>, p: nat)
    requires p < |ex|
  {
    exists q :: p < q <= |ex| && Followed(turn, ex, p, q) && (q < |ex| ==> !ex[q].origin.FollowUp?)
  }

  lemma StillHasReads(turn: Turn, ex: seq<Execution>, more: seq<Execution>, p: nat)
    requires p < |ex| < |more| && more[..|ex|] == ex && !more[|ex|].origin.FollowUp? && HasReads(turn, ex, p)
    ensures HasReads(turn, more, p)
  {
    var q :| p < q <= |ex| && Followed(turn, ex, p, q) && (q < |ex| ==> !ex[q].origin.FollowUp?);
    StillFollowed(turn, ex, more, p, q);
    assert q < |ex| ==> more[q] == ex[q];
  }

  lemma ChainChains(turn: Turn, ex: seq<Execution>, tool: string, origin: Origin)
    requires Chained(turn, ex) && !origin.FollowUp?
    ensures Chained(turn, ex + Chain(turn, ex, tool, origin))
  {
    var more := ex + Chain(turn, ex, tool, origin);
    ChainParts(turn, ex, tool, origin);
    ChainFollows(turn, ex, tool, origin);
    forall p | 0 <= p < |more| && !more[p].origin.FollowUp? ensures HasReads(turn, more, p) {
      if p < |ex| {
        assert more[p] == ex[p];
        StillHasReads(turn, ex, more, p);
      }
    }
    assert ex != [] ==> more[0] == ex[0];
  }

  lemma IterateChains(turn: Turn, st: Loop)
    requires Chained(turn, st.executed)
    ensures Chained(turn, Iterate(turn, st).next.executed)
  {
    var ex := st.executed;
    if IsIntent(turn, st.calls) {
      if !IsRejected(turn, st.calls) {
        var e := AskedFor(turn, st.calls);
        ChosenIs(turn, st);
        ChainChains(turn, ex, e.tool, e.origin);
      }
    } else {
      var exit := TalkIs(turn, st);
      if DiscoveryTool(turn).Some? {
        ChainChains(turn, ex, DiscoveryTool(turn).value, Discovery);
      }
    }
  }

  lemma {:induction false} IterationsChain(turn: Turn, st: Loop)
    requires Chained(turn, st.executed)
    ensures Chained(turn, Iterations(turn, st).next.executed)
    decreases MAX_READ_ONLY_TOOL_LOOPS - st.calls
  {
    if st.calls < MAX_READ_ONLY_TOOL_LOOPS {
      IterateChains(turn, st);
      var v := Iterate(turn, st);
      if v.Continue? && v.next.calls > st.calls {
        IterationsChain(turn, v.next);
      }
    }
  }

  /** In every turn the automatic reads stand exactly behind the calls whose results name them. */
  lemma ReadsFollow(turn: Turn)
    ensures Chained(turn, Play(turn).executed)
  {
    IterationsChain(turn, START);
    var v := PlayEnds(turn);
    LoopCallsAre(turn, v);
  }
}
