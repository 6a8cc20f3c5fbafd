/** The one-pass scanner that cuts brace-balanced JSON objects out of free text
    (server/agentRuntime.ts:189-243; the same loop in server/chatEvidence.ts:128-182). */
module Scanner {
  import opened CodeUnits
  import opened StableJson

  // --- Depth inside an object ---

  /** Where reading stands: brace depth, inside a string, right after a backslash in one. */
  datatype Level = Level(depth: int, inString: bool, escaping: bool)

  function Step(l: Level, c: CodeUnit): Level {
    if l.escaping then l.(escaping := false)
    else if c == BACKSLASH && l.inString then l.(escaping := true)
    else if c == QUOTE then l.(inString := !l.inString)
    else if l.inString then l
    else if c == OPEN_BRACE then l.(depth := l.depth + 1)
    else if c == CLOSE_BRACE then l.(depth := l.depth - 1)
    else l
  }

  function Read(l: Level, t: Text): Level {
    if t == [] then l else Step(Read(l, t[..|t| - 1]), t[|t| - 1])
  }

  const OUTSIDE := Level(0, false, false)

  function Depth(t: Text): int {
    Read(OUTSIDE, t).depth
  }

  /** Braces outside strings are open on every proper non-empty prefix. */
  predicate StaysOpen(t: Text) {
    forall n :: 0 < n < |t| ==> Depth(t[..n]) > 0
  }

  /** An opening brace up to the brace that closes it. */
  predicate Balanced(t: Text) {
    t != [] && t[0] == OPEN_BRACE && StaysOpen(t) && Depth(t) == 0
  }

  /** Outside strings only quotes and braces count; in a string a quote ends it, a backslash hides the next
      unit, whatever it is, and nothing else counts. */
  lemma WhatCounts(depth: int, c: CodeUnit)
    ensures var outside, inside := Level(depth, false, false), Level(depth, true, false);
            && Step(outside, 0x22) == inside && Step(inside, 0x22) == outside
            && Step(outside, 0x7b) == Level(depth + 1, false, false)
            && Step(outside, 0x7d) == Level(depth - 1, false, false)
            && (c !in {0x22, 0x7b, 0x7d} ==> Step(outside, c) == outside)
            && (c !in {0x22, 0x5c} ==> Step(inside, c) == inside)
            && Step(Step(inside, 0x5c), c) == inside
  {}

  // --- What a scan is ---

  datatype Slice = Slice(from: nat, to: nat)

  predicate InOrder(slices: seq<Slice>, n: nat) {
    && (forall i :: 0 <= i < |slices| ==> slices[i].from < slices[i].to <= n)
    && (forall i, j :: 0 <= i < j < |slices| ==> slices[i].to <= slices[j].from)
  }

  function EndOf(slices: seq<Slice>): nat {
    if slices == [] then 0 else slices[|slices| - 1].to
  }

  /** No brace opens in the text between two positions. */
  predicate NoOpening(t: Text, from: nat, to: nat) {
    forall k :: from <= k < to && k < |t| ==> t[k] != OPEN_BRACE
  }

  predicate GapsClear(t: Text, slices: seq<Slice>) {
    slices == []
    || (var n := |slices| - 1;
        GapsClear(t, slices[..n]) && NoOpening(t, EndOf(slices[..n]), slices[n].from))
  }

  /** After the last slice nothing opens, or what opens never closes. */
  predicate TailUnclosed(t: Text, from: nat) {
    || NoOpening(t, from, |t|)
    || exists k :: from <= k < |t| && NoOpening(t, from, k) && t[k] == OPEN_BRACE
                   && forall m :: k < m <= |t| ==> Depth(t[k..m]) > 0
  }

  predicate AllBalanced(t: Text, slices: seq<Slice>)
    requires InOrder(slices, |t|)
  {
    forall i :: 0 <= i < |slices| ==> Balanced(t[slices[i].from..slices[i].to])
  }

  /** The slices are disjoint, in order and balanced, and nothing that opens outside them closes. */
  predicate IsScan(t: Text, slices: seq<Slice>) {
    && InOrder(slices, |t|) && AllBalanced(t, slices) && GapsClear(t, slices)
    && TailUnclosed(t, EndOf(slices))
  }

  function Cut(t: Text, slices: seq<Slice>): seq<Text>
    requires InOrder(slices, |t|)
  {
    seq(|slices|, i requires 0 <= i < |slices| => t[slices[i].from..slices[i].to])
  }

  /** The texts of the scan's slices. */
  ghost predicate AreCandidates(t: Text, candidates: seq<Text>) {
    exists slices :: IsScan(t, slices) && candidates == Cut(t, slices)
  }

  // --- The loop ---

  lemma ReadMore(l: Level, t: Text, c: CodeUnit)
    ensures Read(l, t + [c]) == Step(Read(l, t), c)
  {
    assert (t + [c])[..|t|] == t;
  }

  /** The slices found so far are right. */
  predicate Found(t: Text, slices: seq<Slice>, candidates: seq<Text>) {
    InOrder(slices, |t|) && AllBalanced(t, slices) && GapsClear(t, slices) && candidates == Cut(t, slices)
  }

  /** An object opened at `start` and is still open at `index`. */
  predicate Inside(t: Text, slices: seq<Slice>, start: int, index: nat, l: Level) {
    && EndOf(slices) <= start < index <= |t| && NoOpening(t, EndOf(slices), start) && t[start] == OPEN_BRACE
    && Read(OUTSIDE, t[start..index]) == l
    && forall m :: start < m <= index ==> Depth(t[start..m]) > 0
  }

  predicate Scanning(t: Text, slices: seq<Slice>, start: int, index: nat, l: Level) {
    if start == -1 then EndOf(slices) <= index && NoOpening(t, EndOf(slices), index)
    else Inside(t, slices, start, index, l)
  }

  lemma Opens(t: Text, slices: seq<Slice>, index: nat)
    requires EndOf(slices) <= index < |t| && NoOpening(t, EndOf(slices), index) && t[index] == OPEN_BRACE
    ensures Scanning(t, slices, index, index + 1, Level(1, false, false))
  {
    assert t[index..index + 1] == [] + [OPEN_BRACE];
    ReadMore(OUTSIDE, [], OPEN_BRACE);
  }

  lemma Passes(t: Text, slices: seq<Slice>, index: nat, l: Level)
    requires Scanning(t, slices, -1, index, l) && index < |t| && t[index] != OPEN_BRACE
    ensures Scanning(t, slices, -1, index + 1, l)
  {}

  /** An object that is open has not fallen below depth 0 one character later. */
  lemma NotBelow(t: Text, slices: seq<Slice>, start: int, index: nat, l: Level)
    requires Inside(t, slices, start, index, l) && index < |t|
    ensures Step(l, t[index]).depth >= 0
  {
    assert Depth(t[start..index]) > 0;
  }

  lemma ReadOn(t: Text, start: nat, index: nat)
    requires start <= index < |t|
    ensures Read(OUTSIDE, t[start..index + 1]) == Step(Read(OUTSIDE, t[start..index]), t[index])
  {
    assert t[start..index + 1] == t[start..index] + [t[index]];
    ReadMore(OUTSIDE, t[start..index], t[index]);
  }

  lemma StaysInside(t: Text, slices: seq<Slice>, start: int, index: nat, l: Level)
    requires Inside(t, slices, start, index, l) && index < |t| && Step(l, t[index]).depth > 0
    ensures Scanning(t, slices, start, index + 1, Step(l, t[index]))
  {
    ReadOn(t, start, index);
  }

  lemma BalancedHere(t: Text, slices: seq<Slice>, start: int, index: nat, l: Level)
    requires Inside(t, slices, start, index, l) && index < |t| && Step(l, t[index]).depth == 0
    ensures Balanced(t[start..index + 1])
  {
    ReadOn(t, start, index);
    var s := t[start..index + 1];
    forall n | 0 < n < |s| ensures Depth(s[..n]) > 0 {
      assert s[..n] == t[start..start + n];
    }
  }

  lemma EndsBefore(slices: seq<Slice>, n: nat)
    requires InOrder(slices, n)
    ensures forall i :: 0 <= i < |slices| ==> slices[i].to <= EndOf(slices)
  {}

  lemma OneMoreInOrder(slices: seq<Slice>, from: nat, to: nat, n: nat)
    requires InOrder(slices, n) && EndOf(slices) <= from < to <= n
    ensures InOrder(slices + [Slice(from, to)], n)
  {
    EndsBefore(slices, n);
  }

  lemma OneMoreBalanced(t: Text, slices: seq<Slice>, from: nat, to: nat)
    requires InOrder(slices, |t|) && AllBalanced(t, slices) && InOrder(slices + [Slice(from, to)], |t|)
    requires from < to <= |t| && Balanced(t[from..to])
    ensures AllBalanced(t, slices + [Slice(from, to)])
  {
    var more := slices + [Slice(from, to)];
    forall i | 0 <= i < |more| ensures Balanced(t[more[i].from..more[i].to]) {
      if i < |slices| {
        assert more[i] == slices[i];
      }
    }
  }

  lemma OneMoreCut(t: Text, slices: seq<Slice>, from: nat, to: nat)
    requires InOrder(slices, |t|) && InOrder(slices + [Slice(from, to)], |t|) && from < to <= |t|
    ensures Cut(t, slices + [Slice(from, to)]) == Cut(t, slices) + [t[from..to]]
  {}

  lemma OneMoreGap(t: Text, slices: seq<Slice>, from: nat, to: nat)
    requires GapsClear(t, slices) && NoOpening(t, EndOf(slices), from)
    ensures GapsClear(t, slices + [Slice(from, to)])
  {
    assert (slices + [Slice(from, to)])[..|slices|] == slices;
  }

  lemma OneMore(t: Text, slices: seq<Slice>, candidates: seq<Text>, from: nat, to: nat)
    requires Found(t, slices, candidates) && EndOf(slices) <= from < to <= |t|
    requires NoOpening(t, EndOf(slices), from) && Balanced(t[from..to])
    ensures Found(t, slices + [Slice(from, to)], candidates + [t[from..to]])
  {
    OneMoreInOrder(slices, from, to, |t|);
    OneMoreBalanced(t, slices, from, to);
    OneMoreGap(t, slices, from, to);
    OneMoreCut(t, slices, from, to);
  }

  lemma Closes(t: Text, slices: seq<Slice>, candidates: seq<Text>, start: int, index: nat, l: Level)
    returns (more: seq<Slice>)
    requires Inside(t, slices, start, index, l) && index < |t| && Step(l, t[index]).depth == 0
    requires Found(t, slices, candidates)
    ensures Found(t, more, candidates + [t[start..index + 1]]) && Scanning(t, more, -1, index + 1, Step(l, t[index]))
  {
    more := slices + [Slice(start, index + 1)];
    BalancedHere(t, slices, start, index, l);
    OneMore(t, slices, candidates, start, index + 1);
  }

  lemma ScanIsDone(t: Text, slices: seq<Slice>, start: int, l: Level)
    requires Scanning(t, slices, start, |t|, l)
    ensures TailUnclosed(t, EndOf(slices))
  {
    if start != -1 {
      assert t[start] == OPEN_BRACE && NoOpening(t, EndOf(slices), start);
    }
  }

  /** The loop body once an object is open. */
  method ReadCharacter(depth: int, inString: bool, escaping: bool, character: CodeUnit)
    returns (depth': int, inString': bool, escaping': bool)
    ensures Level(depth', inString', escaping') == Step(Level(depth, inString, escaping), character)
  {
    depth', inString', escaping' := depth, inString, escaping;
    if escaping {
      escaping' := false;
    } else if character == BACKSLASH && inString {
      escaping' := true;
    } else if character == QUOTE {
      inString' := !inString;
    } else if inString {
      return;
    } else if character == OPEN_BRACE {
      depth' := depth + 1;
    } else if character == CLOSE_BRACE {
      depth' := depth - 1;
    }
  }

  /** `extractBalancedJsonCandidates`. An open object has positive depth, so depth 0 is reached at a
      closing brace only. */
  method ExtractBalancedJsonCandidates(t: Text) returns (candidates: seq<Text>)
    ensures AreCandidates(t, candidates)
  {
    candidates := [];
    ghost var slices: seq<Slice> := [];
    var start := -1;
    var depth, inString, escaping := 0, false, false;
    var index := 0;
    while index < |t|
      invariant 0 <= index <= |t| && start >= -1
      invariant Found(t, slices, candidates)
      invariant Scanning(t, slices, start, index, Level(depth, inString, escaping))
    {
      var character := t[index];
      if start == -1 {
        if character == OPEN_BRACE {
          start, depth, inString, escaping := index, 1, false, false;
          Opens(t, slices, index);
        } else {
          Passes(t, slices, index, Level(depth, inString, escaping));
        }
      } else {
        ghost var l := Level(depth, inString, escaping);
        NotBelow(t, slices, start, index, l);
        depth, inString, escaping := ReadCharacter(depth, inString, escaping, character);
        if depth == 0 {
          slices := Closes(t, slices, candidates, start, index, l);
          candidates := candidates + [t[start..index + 1]];
          start := -1;
        } else {
          StaysInside(t, slices, start, index, l);
        }
      }
      index := index + 1;
    }
    ScanIsDone(t, slices, start, Level(depth, inString, escaping));
  }

  // --- A text has one scan ---

  lemma {:induction false} GapAt(t: Text, slices: seq<Slice>, i: nat)
    requires GapsClear(t, slices) && i < |slices|
    ensures NoOpening(t, EndOf(slices[..i]), slices[i].from)
  {
    var n := |slices| - 1;
    if i < n {
      GapAt(t, slices[..n], i);
      assert slices[..n][..i] == slices[..i];
    }
  }

  lemma NotEarlier(t: Text, from: nat, p: nat, q: nat)
    requires from < p < q <= |t| && Balanced(t[from..q])
    ensures !Balanced(t[from..p])
  {
    assert t[from..q][..p - from] == t[from..p];
  }

  /** The slice that starts at the next opening brace is determined. */
  lemma NextSliceIsUnique(t: Text, e: nat, a: Slice, b: Slice)
    requires e <= a.from < a.to <= |t| && e <= b.from < b.to <= |t|
    requires NoOpening(t, e, a.from) && NoOpening(t, e, b.from)
    requires Balanced(t[a.from..a.to]) && Balanced(t[b.from..b.to])
    ensures a == b
  {
    assert t[a.from] == t[a.from..a.to][0] && t[b.from] == t[b.from..b.to][0];
    assert a.from == b.from;
    if a.to < b.to {
      NotEarlier(t, a.from, a.to, b.to);
    } else if b.to < a.to {
      NotEarlier(t, a.from, b.to, a.to);
    }
  }

  lemma NoFurtherSlice(t: Text, e: nat, s: Slice)
    requires TailUnclosed(t, e) && e <= s.from < s.to <= |t| && NoOpening(t, e, s.from)
    ensures !Balanced(t[s.from..s.to])
  {
    assert t[s.from] == t[s.from..s.to][0];
  }

  lemma EndOfPrefix(slices: seq<Slice>, i: nat, n: nat)
    requires InOrder(slices, n) && i < |slices|
    ensures EndOf(slices[..i]) <= slices[i].from < slices[i].to <= n
  {}

  lemma NextAgrees(t: Text, a: seq<Slice>, b: seq<Slice>, k: nat)
    requires IsScan(t, a) && IsScan(t, b) && k < |a| && k < |b| && a[..k] == b[..k]
    ensures a[k] == b[k]
  {
    GapAt(t, a, k);
    GapAt(t, b, k);
    EndOfPrefix(a, k, |t|);
    EndOfPrefix(b, k, |t|);
    NextSliceIsUnique(t, EndOf(a[..k]), a[k], b[k]);
  }

  lemma OneLonger(a: seq<Slice>, b: seq<Slice>, k: nat)
    requires k < |a| && k < |b| && a[..k] == b[..k] && a[k] == b[k]
    ensures a[..k + 1] == b[..k + 1]
  {
    assert a[..k + 1] == a[..k] + [a[k]] && b[..k + 1] == b[..k] + [b[k]];
  }

  /** Lists that agree wherever all before agrees. */
  predicate NextSame(a: seq<Slice>, b: seq<Slice>) {
    forall k: nat :: k < |a| && k < |b| && a[..k] == b[..k] ==> a[k] == b[k]
  }

  lemma {:induction false} SamePrefixes(a: seq<Slice>, b: seq<Slice>, k: nat)
    requires NextSame(a, b) && k <= |a| && k <= |b|
    ensures a[..k] == b[..k]
  {
    if k > 0 {
      SamePrefixes(a, b, k - 1);
      OneLonger(a, b, k - 1);
    }
  }

  lemma ScansAgree(t: Text, a: seq<Slice>, b: seq<Slice>, k: nat)
    requires IsScan(t, a) && IsScan(t, b) && k <= |a| && k <= |b|
    ensures a[..k] == b[..k]
  {
    forall j: nat | j < |a| && j < |b| && a[..j] == b[..j] ensures a[j] == b[j] {
      NextAgrees(t, a, b, j);
    }
    SamePrefixes(a, b, k);
  }

  lemma NotLonger(t: Text, a: seq<Slice>, b: seq<Slice>)
    requires IsScan(t, a) && IsScan(t, b)
    ensures |b| <= |a|
  {
    if |a| < |b| {
      ScansAgree(t, a, b, |a|);
      assert a[..|a|] == a;
      GapAt(t, b, |a|);
      EndOfPrefix(b, |a|, |t|);
      NoFurtherSlice(t, EndOf(a), b[|a|]);
      assert false;
    }
  }

  /** So the scanner's result says everything there is to say about a text. */
  lemma ScanIsUnique(t: Text, a: seq<Slice>, b: seq<Slice>)
    requires IsScan(t, a) && IsScan(t, b)
    ensures a == b
  {
    NotLonger(t, a, b);
    NotLonger(t, b, a);
    ScansAgree(t, a, b, |a|);
    assert a[..|a|] == a && b[..|b|] == b;
  }

  // --- Printed values keep the level ---

  /** Reading the text ends where it began, and never below it. */
  predicate KeepsLevel(l: Level, t: Text) {
    Read(l, t) == l && forall n :: 0 <= n <= |t| ==> Read(l, t[..n]).depth >= l.depth
  }

  lemma {:induction false} ReadConcat(l: Level, a: Text, b: Text)
    ensures Read(l, a + b) == Read(Read(l, a), b)
    decreases |b|
  {
    if b == [] {
      assert a + b == a;
    } else {
      var n := |b| - 1;
      assert a + b == (a + b[..n]) + [b[n]];
      ReadMore(l, a + b[..n], b[n]);
      ReadConcat(l, a, b[..n]);
    }
  }

  lemma KeepsConcat(l: Level, a: Text, b: Text)
    requires KeepsLevel(l, a) && KeepsLevel(l, b)
    ensures KeepsLevel(l, a + b)
  {
    ReadConcat(l, a, b);
    forall n | 0 <= n <= |a + b| ensures Read(l, (a + b)[..n]).depth >= l.depth {
      if n <= |a| {
        assert (a + b)[..n] == a[..n];
      } else {
        assert (a + b)[..n] == a + b[..n - |a|];
        ReadConcat(l, a, b[..n - |a|]);
      }
    }
  }

  lemma KeepsNothing(l: Level)
    ensures KeepsLevel(l, [])
  {}

  lemma ReadOne(l: Level, c: CodeUnit)
    ensures Read(l, [c]) == Step(l, c)
  {
    assert [c] == [] + [c];
    ReadMore(l, [], c);
  }

  lemma KeepsUnit(l: Level, c: CodeUnit)
    requires Step(l, c) == l
    ensures KeepsLevel(l, [c])
  {
    ReadOne(l, c);
    assert forall n :: 0 <= n <= 1 ==> [c][..n] == [] || [c][..n] == [c];
  }

  /** A text kept at the level its opening unit leads to, closed by a unit that leads back. */
  lemma KeepsEnclosed(l: Level, open: CodeUnit, m: Level, t: Text, close: CodeUnit)
    requires Step(l, open) == m && KeepsLevel(m, t) && Step(m, close) == l && m.depth >= l.depth
    ensures KeepsLevel(l, [open] + t + [close])
  {
    var s := [open] + t + [close];
    ReadOne(l, open);
    ReadConcat(l, [open], t);
    ReadMore(l, [open] + t, close);
    forall n | 0 <= n <= |s| ensures Read(l, s[..n]).depth >= l.depth {
      if n == 0 {
        assert s[..n] == [];
      } else if n < |s| {
        assert s[..n] == [open] + t[..n - 1];
        ReadConcat(l, [open], t[..n - 1]);
      } else {
        assert s[..n] == s;
      }
    }
  }

  /** A backslash and the unit it escapes. */
  lemma KeepsEscape(l: Level, c: CodeUnit)
    requires l.inString && !l.escaping
    ensures KeepsLevel(l, [BACKSLASH, c])
  {
    var none: Text := [];
    KeepsNothing(l.(escaping := true));
    KeepsEnclosed(l, BACKSLASH, l.(escaping := true), none, c);
    assert [BACKSLASH] + none + [c] == [BACKSLASH, c];
  }

  predicate Inert(c: CodeUnit) {
    c != QUOTE && c != BACKSLASH && c != OPEN_BRACE && c != CLOSE_BRACE
  }

  lemma {:induction false} KeepsInert(l: Level, t: Text)
    requires !l.escaping && forall c :: c in t ==> Inert(c)
    ensures KeepsLevel(l, t)
  {
    if t == [] {
      KeepsNothing(l);
    } else {
      var n := |t| - 1;
      KeepsInert(l, t[..n]);
      assert Inert(t[n]) by { assert t[n] in t; }
      KeepsUnit(l, t[n]);
      KeepsConcat(l, t[..n], [t[n]]);
      assert t == t[..n] + [t[n]];
    }
  }

  lemma KeepsEscapeUnit(l: Level, c: CodeUnit)
    requires l.inString && !l.escaping
    ensures KeepsLevel(l, EscapeUnit(c))
  {
    var e := EscapeUnit(c);
    if ShortEscape(c).Some? {
      KeepsEscape(l, e[1]);
    } else if |e| == 6 {
      KeepsEscape(l, e[1]);
      KeepsInert(l, e[2..]);
      KeepsConcat(l, e[..2], e[2..]);
      assert e[..2] == [BACKSLASH, e[1]] && e == e[..2] + e[2..];
    } else {
      KeepsUnit(l, c);
    }
  }

  lemma {:induction false} KeepsEscaped(l: Level, s: Text)
    requires l.inString && !l.escaping
    ensures KeepsLevel(l, Escape(s))
    decreases |s|
  {
    if s == [] {
      KeepsNothing(l);
    } else if StartsPair(s) {
      KeepsUnit(l, s[0]);
      KeepsUnit(l, s[1]);
      KeepsConcat(l, [s[0]], [s[1]]);
      assert [s[0]] + [s[1]] == [s[0], s[1]];
      KeepsEscaped(l, s[2..]);
      KeepsConcat(l, [s[0], s[1]], Escape(s[2..]));
    } else {
      KeepsEscapeUnit(l, s[0]);
      KeepsEscaped(l, s[1..]);
      KeepsConcat(l, EscapeUnit(s[0]), Escape(s[1..]));
    }
  }

  function At(d: int): Level {
    Level(d, false, false)
  }

  lemma KeepsQuote(d: int, s: Text)
    ensures KeepsLevel(At(d), Quote(s))
  {
    KeepsEscaped(Level(d, true, false), s);
    KeepsEnclosed(At(d), QUOTE, Level(d, true, false), Escape(s), QUOTE);
  }

  lemma {:induction false} KeepsJoin(l: Level, parts: seq<Text>)
    requires Step(l, COMMA) == l && forall i :: 0 <= i < |parts| ==> KeepsLevel(l, parts[i])
    ensures KeepsLevel(l, Join(parts))
  {
    if parts == [] {
      KeepsNothing(l);
    } else if |parts| > 1 {
      KeepsUnit(l, COMMA);
      KeepsConcat(l, parts[0], [COMMA]);
      KeepsJoin(l, parts[1..]);
      KeepsConcat(l, parts[0] + [COMMA], Join(parts[1..]));
    }
  }

  lemma {:induction false} KeepsStable(d: int, v: Value)
    requires WellFormed(v)
    ensures KeepsLevel(At(d), Stable(v))
    decreases v, 1
  {
    match v {
      case Str(s) => KeepsQuote(d, s);
      case Arr(items) =>
        KeepsItems(d, v);
        StableArr(items);
        KeepsEnclosed(At(d), OPEN_BRACKET, At(d), Join(ItemParts(items)), CLOSE_BRACKET);
      case Obj(fields) =>
        KeepsFields(d + 1, v);
        StableObj(fields);
        KeepsEnclosed(At(d), OPEN_BRACE, At(d + 1), Join(FieldParts(Sorted(fields))), CLOSE_BRACE);
      case _ => KeepsInert(At(d), Stable(v));
    }
  }

  lemma {:induction false} KeepsItems(d: int, v: Value)
    requires v.Arr? && WellFormed(v)
    ensures KeepsLevel(At(d), Join(ItemParts(v.items)))
    decreases v, 0
  {
    forall i | 0 <= i < |v.items| ensures KeepsLevel(At(d), ItemParts(v.items)[i]) {
      KeepsStable(d, v.items[i]);
    }
    KeepsJoin(At(d), ItemParts(v.items));
  }

  lemma {:induction false} KeepsFields(d: int, v: Value)
    requires v.Obj? && WellFormed(v)
    ensures KeepsLevel(At(d), Join(FieldParts(Sorted(v.fields))))
    decreases v, 0
  {
    var fs := Sorted(v.fields);
    forall i | 0 <= i < |fs| ensures KeepsLevel(At(d), FieldParts(fs)[i]) {
      SortedWellFormed(v, i);
      KeepsQuote(d, fs[i].key);
      KeepsUnit(At(d), COLON);
      KeepsConcat(At(d), Quote(fs[i].key), [COLON]);
      KeepsStable(d, fs[i].value);
      KeepsConcat(At(d), Quote(fs[i].key) + [COLON], Stable(fs[i].value));
    }
    KeepsJoin(At(d), FieldParts(fs));
  }

  /** Text that never falls below the level inside, between braces. */
  lemma BracesBalance(inner: Text, t: Text)
    requires KeepsLevel(At(1), inner) && t == [OPEN_BRACE] + inner + [CLOSE_BRACE]
    ensures Balanced(t)
  {
    ReadOne(OUTSIDE, OPEN_BRACE);
    ReadConcat(OUTSIDE, [OPEN_BRACE], inner);
    ReadMore(OUTSIDE, [OPEN_BRACE] + inner, CLOSE_BRACE);
    forall n | 0 < n < |t| ensures Depth(t[..n]) > 0 {
      assert t[..n] == [OPEN_BRACE] + inner[..n - 1];
      ReadConcat(OUTSIDE, [OPEN_BRACE], inner[..n - 1]);
    }
  }

  /** A printed object is one balanced slice, whatever braces, quotes and backslashes its strings hold. */
  lemma PrintedObjectIsBalanced(v: Value)
    requires v.Obj? && WellFormed(v)
    ensures Balanced(Stable(v))
  {
    var inner := Join(FieldParts(Sorted(v.fields)));
    StableObj(v.fields);
    KeepsFields(1, v);
    BracesBalance(inner, Stable(v));
  }

  // --- The scanner undoes the printer ---

  /** Separators and parts in turn, a separator at either end. */
  function Weave(seps: seq<Text>, parts: seq<Text>): Text
    requires |seps| == |parts| + 1
    decreases |parts|
  {
    var n := |parts|;
    if n == 0 then seps[0] else Weave(seps[..n], parts[..n - 1]) + parts[n - 1] + seps[n]
  }

  lemma {:induction false} FoundInMore(t: Text, more: Text, slices: seq<Slice>, candidates: seq<Text>)
    requires Found(t, slices, candidates)
    ensures Found(t + more, slices, candidates)
    decreases |slices|
  {
    var u := t + more;
    forall i | 0 <= i < |slices| ensures u[slices[i].from..slices[i].to] == t[slices[i].from..slices[i].to] {}
    assert Cut(u, slices) == Cut(t, slices);
    GapsInMore(t, more, slices);
  }

  lemma {:induction false} GapsInMore(t: Text, more: Text, slices: seq<Slice>)
    requires InOrder(slices, |t|) && GapsClear(t, slices)
    ensures GapsClear(t + more, slices)
    decreases |slices|
  {
    if slices != [] {
      GapsInMore(t, more, slices[..|slices| - 1]);
    }
  }

  /** The slices are right, and nothing opens after the last of them. */
  predicate Woven(t: Text, slices: seq<Slice>, parts: seq<Text>) {
    Found(t, slices, parts) && EndOf(slices) <= |t| && NoOpening(t, EndOf(slices), |t|)
  }

  lemma NoneOpensIn(sep: Text)
    requires OPEN_BRACE !in sep
    ensures NoOpening(sep, 0, |sep|)
  {
    assert forall k :: 0 <= k < |sep| ==> sep[k] in sep;
  }

  lemma ClearAfter(u: Text, sep: Text)
    requires OPEN_BRACE !in sep
    ensures NoOpening(u + sep, |u|, |u + sep|)
  {
    NoneOpensIn(sep);
  }

  lemma StillClear(u: Text, more: Text, from: nat)
    requires NoOpening(u, from, |u|)
    ensures NoOpening(u + more, from, |u|)
  {}

  lemma PartInPlace(u: Text, part: Text, sep: Text)
    ensures u + part + sep == u + (part + sep) && (u + part + sep)[|u|..|u| + |part|] == part
  {}

  lemma LastPart(parts: seq<Text>)
    requires parts != []
    ensures parts[..|parts| - 1] + [parts[|parts| - 1]] == parts
  {}

  lemma PartFound(u: Text, slices: seq<Slice>, ps: seq<Text>, part: Text, sep: Text)
    requires Woven(u, slices, ps) && Balanced(part)
    ensures Found(u + part + sep, slices + [Slice(|u|, |u| + |part|)], ps + [part])
  {
    var t := u + part + sep;
    PartInPlace(u, part, sep);
    FoundInMore(u, part + sep, slices, ps);
    StillClear(u, part + sep, EndOf(slices));
    OneMore(t, slices, ps, |u|, |u| + |part|);
  }

  lemma WeaveStep(u: Text, slices: seq<Slice>, ps: seq<Text>, part: Text, sep: Text) returns (more: seq<Slice>)
    requires Woven(u, slices, ps) && Balanced(part) && OPEN_BRACE !in sep
    ensures Woven(u + part + sep, more, ps + [part])
  {
    more := slices + [Slice(|u|, |u| + |part|)];
    PartFound(u, slices, ps, part, sep);
    ClearAfter(u + part, sep);
  }

  lemma {:induction false} WeaveIsScanned(seps: seq<Text>, parts: seq<Text>) returns (slices: seq<Slice>)
    requires |seps| == |parts| + 1
    requires forall i :: 0 <= i < |seps| ==> OPEN_BRACE !in seps[i]
    requires forall i :: 0 <= i < |parts| ==> Balanced(parts[i])
    ensures Woven(Weave(seps, parts), slices, parts)
    decreases |parts|
  {
    var n := |parts|;
    if n == 0 {
      NoneOpensIn(seps[0]);
      slices := [];
    } else {
      slices := WeaveIsScanned(seps[..n], parts[..n - 1]);
      slices := WeaveStep(Weave(seps[..n], parts[..n - 1]), slices, parts[..n - 1], parts[n - 1], seps[n]);
      LastPart(parts);
    }
  }

  /** Whatever the scanner returns on printed objects between brace-free separators is those objects'
      texts, in order. */
  lemma ScannerUndoesPrinter(seps: seq<Text>, objects: seq<Value>, candidates: seq<Text>)
    requires |seps| == |objects| + 1 && forall i :: 0 <= i < |seps| ==> OPEN_BRACE !in seps[i]
    requires forall i :: 0 <= i < |objects| ==> objects[i].Obj? && WellFormed(objects[i])
    requires AreCandidates(Weave(seps, ItemParts(objects)), candidates)
    ensures candidates == ItemParts(objects)
  {
    var parts := ItemParts(objects);
    var t := Weave(seps, parts);
    forall i | 0 <= i < |parts| ensures Balanced(parts[i]) {
      PrintedObjectIsBalanced(objects[i]);
    }
    var places := WeaveIsScanned(seps, parts);
    var slices :| IsScan(t, slices) && candidates == Cut(t, slices);
    ScanIsUnique(t, slices, places);
  }
}
