/** JSON contexts as trees, dotted paths and writes. */
module JsonTree {
  // The writes of `setPath` and `applyOutputBindings` (server/businessWorkflows.ts:516-555).

  import opened Prelude

  datatype Json =
    | Null
    | Bool(b: bool)
    | Num(n: int)
    | Str(s: string)
    | Arr(items: seq<Json>)
    | Obj(fields: map<string, Json>)

  type Context = map<string, Json>

  // --- Dotted paths: path.split(".").map(trim).filter(Boolean) ---

  /** The white space that JavaScript's `trim` removes. */
  predicate IsSpace(c: char) {
    c in {' ', '\t', '\n', '\r', '\U{000B}', '\U{000C}', '\U{00A0}', '\U{1680}', '\U{2000}', '\U{2001}',
          '\U{2002}', '\U{2003}', '\U{2004}', '\U{2005}', '\U{2006}', '\U{2007}', '\U{2008}', '\U{2009}',
          '\U{200A}', '\U{2028}', '\U{2029}', '\U{202F}', '\U{205F}', '\U{3000}', '\U{FEFF}'}
  }

  /** By code: the white space and line ends of ECMAScript. */
  lemma SpaceCodes(c: char)
    ensures IsSpace(c) <==> var n := c as int;
              || 9 <= n <= 13 || n == 32 || n == 160 || n == 5760 || 8192 <= n <= 8202
              || n in {8232, 8233, 8239, 8287, 12288, 65279}
  {}

  function TrimStart(s: string): string {
    if s != [] && IsSpace(s[0]) then TrimStart(s[1..]) else s
  }

  function TrimEnd(s: string): string {
    if s != [] && IsSpace(s[|s| - 1]) then TrimEnd(s[..|s| - 1]) else s
  }

  function Trim(s: string): string {
    TrimEnd(TrimStart(s))
  }

  /** `s.split(".")`: never empty. */
  function Pieces(s: string): (r: seq<string>)
    ensures |r| >= 1
  {
    if s == "" then [""]
    else if s[0] == '.' then [""] + Pieces(s[1..])
    else var r := Pieces(s[1..]); [[s[0]] + r[0]] + r[1..]
  }

  /** `.map(trim).filter(Boolean)` */
  function Kept(ps: seq<string>): seq<string> {
    if ps == [] then []
    else (if Trim(ps[0]) == "" then [] else [Trim(ps[0])]) + Kept(ps[1..])
  }

  function SplitPath(path: string): seq<string> {
    Kept(Pieces(path))
  }

  lemma {:induction false} PiecesOfDot(a: string, b: string)
    ensures Pieces(a + "." + b) == Pieces(a) + Pieces(b)
  {
    var s := a + "." + b;
    if a == "" {
      assert s[1..] == b;
    } else {
      assert s[1..] == a[1..] + "." + b;
      PiecesOfDot(a[1..], b);
    }
  }

  lemma {:induction false} KeptConcat(ps: seq<string>, qs: seq<string>)
    ensures Kept(ps + qs) == Kept(ps) + Kept(qs)
  {
    if ps == [] {
      assert ps + qs == qs;
    } else {
      assert (ps + qs)[1..] == ps[1..] + qs;
      KeptConcat(ps[1..], qs);
    }
  }

  /** Joining two dotted paths with a dot concatenates their keys, whatever dots, blanks or
      empty pieces the halves contain. */
  lemma SplitPathOfDot(a: string, b: string)
    ensures SplitPath(a + "." + b) == SplitPath(a) + SplitPath(b)
  {
    PiecesOfDot(a, b);
    KeptConcat(Pieces(a), Pieces(b));
  }

  /** A path without a dot is one key, trimmed, or none when it is blank. */
  lemma OneKey(s: string)
    requires '.' !in s
    ensures SplitPath(s) == if Trim(s) == "" then [] else [Trim(s)]
  {
    OnePiece(s);
    assert [s][1..] == [];
    assert Kept([]) == [];
  }

  lemma {:induction false} OnePiece(s: string)
    requires '.' !in s
    ensures Pieces(s) == [s]
  {
    if s != "" {
      OnePiece(s[1..]);
      assert [s[0]] + s[1..] == s;
    }
  }

  predicate Blank(s: string) {
    forall i :: 0 <= i < |s| ==> IsSpace(s[i])
  }

  lemma {:induction false} TrimStartIs(s: string) returns (n: nat)
    ensures n <= |s| && TrimStart(s) == s[n..] && Blank(s[..n]) && (n < |s| ==> !IsSpace(s[n]))
  {
    if s != [] && IsSpace(s[0]) {
      var m := TrimStartIs(s[1..]);
      n := m + 1;
      assert s[..n] == [s[0]] + s[1..][..m];
    } else {
      n := 0;
    }
  }

  lemma {:induction false} TrimEndIs(s: string) returns (n: nat)
    ensures n <= |s| && TrimEnd(s) == s[..n] && Blank(s[n..]) && (n > 0 ==> !IsSpace(s[n - 1]))
  {
    if s != [] && IsSpace(s[|s| - 1]) {
      var before := s[..|s| - 1];
      n := TrimEndIs(before);
      assert before[..n] == s[..n];
      assert s[n..] == before[n..] + [s[|s| - 1]];
    } else {
      n := |s|;
      assert s[..n] == s;
    }
  }

  /** Trimming drops white space at both ends, all of it, and nothing else. */
  lemma TrimIs(s: string) returns (before: string, after: string)
    ensures s == before + Trim(s) + after && Blank(before) && Blank(after)
    ensures Trim(s) != "" ==> !IsSpace(Trim(s)[0]) && !IsSpace(Trim(s)[|Trim(s)| - 1])
  {
    var n := TrimStartIs(s);
    var rest := TrimStart(s);
    var m := TrimEndIs(rest);
    before, after := s[..n], rest[m..];
    assert rest == rest[..m] + rest[m..];
  }

  lemma BlankTrims(s: string)
    ensures Trim(s) == "" <==> Blank(s)
  {
    var n := TrimStartIs(s);
    var rest := TrimStart(s);
    var m := TrimEndIs(rest);
    assert Blank(s) ==> n == |s|;
    assert s == s[..n] + rest;
    assert !Blank(s) ==> rest != "" && m > 0 by {
      assert rest != "" ==> rest[m..] == rest || m > 0;
    }
  }

  // --- Reading and writing through plain objects ---

  /** The value at a path, reached through plain objects only. */
  function GetAt(o: Context, p: seq<string>): Option<Json>
    decreases |p|
  {
    if p == [] then Some(Obj(o))
    else if p[0] !in o then None
    else if |p| == 1 then Some(o[p[0]])
    else if o[p[0]].Obj? then GetAt(o[p[0]].fields, p[1..])
    else None
  }

  /** What hangs below key `k` once it has been made a plain object. */
  function Below(o: Context, k: string): Context {
    if k in o && o[k].Obj? then o[k].fields else map[]
  }

  /** The write of `setPath`. With no key at all JavaScript writes under the name "undefined". */
  function SetAt(o: Context, p: seq<string>, v: Json): Context
    decreases |p|
  {
    if p == [] then o["undefined" := v]
    else if |p| == 1 then o[p[0] := v]
    else o[p[0] := Obj(SetAt(Below(o, p[0]), p[1..], v))]
  }

  function SetPath(o: Context, path: string, v: Json): Context {
    if path == "" then o else SetAt(o, SplitPath(path), v)
  }

  predicate Prefix(p: seq<string>, q: seq<string>) {
    |p| <= |q| && q[..|p|] == p
  }

  predicate Comparable(p: seq<string>, q: seq<string>) {
    Prefix(p, q) || Prefix(q, p)
  }

  lemma {:induction false} ReadBack(o: Context, p: seq<string>, v: Json)
    requires p != []
    ensures GetAt(SetAt(o, p, v), p) == Some(v)
    decreases |p|
  {
    if |p| > 1 {
      ReadBack(Below(o, p[0]), p[1..], v);
    }
  }

  lemma {:induction false} ReadElsewhere(o: Context, p: seq<string>, v: Json, q: seq<string>)
    requires !Comparable(p, q)
    ensures GetAt(SetAt(o, p, v), q) == GetAt(o, q)
    decreases |p|
  {
    if p[0] == q[0] {
      assert !Comparable(p[1..], q[1..]) by {
        assert p == [p[0]] + p[1..] && q == [q[0]] + q[1..];
      }
      if |p| > 1 && |q| > 1 {
        ReadElsewhere(Below(o, p[0]), p[1..], v, q[1..]);
        EmptyReads(q[1..]);
      }
    }
  }

  lemma EmptyReads(q: seq<string>)
    requires q != []
    ensures GetAt(map[], q) == None
  {}

  /** Every proper prefix of a written path becomes a plain object: whatever scalar, null or
      array stood there is gone. */
  lemma {:induction false} PrefixBecomesObject(o: Context, p: seq<string>, v: Json, k: nat)
    requires 0 < k < |p|
    ensures GetAt(SetAt(o, p, v), p[..k]).Some? && GetAt(SetAt(o, p, v), p[..k]).value.Obj?
    decreases |p|
  {
    if k > 1 {
      PrefixBecomesObject(Below(o, p[0]), p[1..], v, k - 1);
      assert p[..k][1..] == p[1..][..k - 1];
    }
  }

  /** The value at a path inside a value. */
  function Inside(v: Json, p: seq<string>): Option<Json> {
    if p == [] then Some(v) else if v.Obj? then GetAt(v.fields, p) else None
  }

  /** The plain object something turns into when a path goes on through it. */
  function AsObject(found: Option<Json>): Context {
    if found.Some? && found.value.Obj? then found.value.fields else map[]
  }

  /** What stands at `p` after `w` was written to `q`, given what stood there before. */
  function ReadAfter(found: Option<Json>, p: seq<string>, q: seq<string>, w: Json): Option<Json> {
    if Prefix(q, p) then Inside(w, p[|q|..])
    else if Prefix(p, q) then Some(Obj(SetAt(AsObject(found), q[|p|..], w)))
    else found
  }

  /** At or below the written path stands what is inside the written value. */
  lemma {:induction false} ReadBelow(o: Context, q: seq<string>, w: Json, r: seq<string>)
    requires q != []
    ensures GetAt(SetAt(o, q, w), q + r) == Inside(w, r)
    decreases |q|
  {
    assert (q + r)[1..] == q[1..] + r;
    if |q| == 1 {
      assert q[1..] + r == r;
    } else {
      ReadBelow(Below(o, q[0]), q[1..], w, r);
    }
  }

  /** Above it stands the object that was there, or a new one, with the rest of the write inside. */
  lemma {:induction false} ReadAbove(o: Context, p: seq<string>, r: seq<string>, w: Json)
    requires p != [] && r != []
    ensures GetAt(SetAt(o, p + r, w), p) == Some(Obj(SetAt(AsObject(GetAt(o, p)), r, w)))
    decreases |p|
  {
    assert (p + r)[1..] == p[1..] + r;
    if |p| == 1 {
      assert p[1..] + r == r;
    } else {
      ReadAbove(Below(o, p[0]), p[1..], r, w);
      EmptyReads(p[1..]);
    }
  }

  /** Reading after writing, for any two paths: equal, one inside the other, or apart. */
  lemma ReadAfterWrite(o: Context, p: seq<string>, q: seq<string>, w: Json)
    requires p != [] && q != []
    ensures GetAt(SetAt(o, q, w), p) == ReadAfter(GetAt(o, p), p, q, w)
  {
    if Prefix(q, p) {
      assert p == q + p[|q|..];
      ReadBelow(o, q, w, p[|q|..]);
    } else if Prefix(p, q) {
      ProperPrefix(p, q);
      assert q == p + q[|p|..];
      ReadAbove(o, p, q[|p|..], w);
    } else {
      ReadElsewhere(o, q, w, p);
    }
  }

  lemma ProperPrefix(p: seq<string>, q: seq<string>)
    requires Prefix(p, q) && !Prefix(q, p)
    ensures |p| < |q|
  {
    assert q[..|q|] == q && p[..|p|] == p;
  }

  /** A write changes nothing exactly when its value was already there. */
  lemma {:induction false} WriteIsIdle(o: Context, p: seq<string>, v: Json)
    requires p != []
    ensures SetAt(o, p, v) == o <==> GetAt(o, p) == Some(v)
    decreases |p|
  {
    ReadBack(o, p, v);
    if GetAt(o, p) == Some(v) && |p| > 1 {
      WriteIsIdle(Below(o, p[0]), p[1..], v);
    }
  }

  // --- Output bindings ---

  datatype Binding = Binding(name: string, contextPath: string)

  function BindAll(o: Context, bindings: seq<Binding>, output: Context): Context
    decreases |bindings|
  {
    if bindings == [] then o
    else
      var b := bindings[0];
      BindAll(if b.name in output then SetPath(o, b.contextPath, output[b.name]) else o, bindings[1..], output)
  }

  function ApplyOutputBindings(o: Context, nodeId: string, bindings: seq<Binding>, output: Context): Context {
    if bindings == [] then SetPath(o, "nodeOutputs." + nodeId, Obj(output))
    else BindAll(o, bindings, output)
  }

  /** The binding writes its output somewhere. */
  predicate Writes(b: Binding, output: Context) {
    b.name in output && b.contextPath != ""
  }

  /** No binding that writes touches `p`: none of their paths lies on, above or below it. */
  predicate ClearOf(bindings: seq<Binding>, output: Context, p: seq<string>) {
    forall i :: 0 <= i < |bindings| && Writes(bindings[i], output) ==>
      !Comparable(SplitPath(bindings[i].contextPath), p)
  }

  lemma {:induction false} BindAllElsewhere(o: Context, bindings: seq<Binding>, output: Context, q: seq<string>)
    requires ClearOf(bindings, output, q)
    ensures GetAt(BindAll(o, bindings, output), q) == GetAt(o, q)
    decreases |bindings|
  {
    if bindings != [] {
      var b := bindings[0];
      var p := SplitPath(b.contextPath);
      if Writes(b, output) {
        ReadElsewhere(o, p, output[b.name], q);
      }
      var next := if b.name in output then SetPath(o, b.contextPath, output[b.name]) else o;
      assert forall k :: 0 <= k < |bindings[1..]| ==> bindings[1..][k] == bindings[k + 1];
      BindAllElsewhere(next, bindings[1..], output, q);
    }
  }

  /** The bindings in two goes. */
  lemma {:induction false} BindAllConcat(o: Context, a: seq<Binding>, b: seq<Binding>, output: Context)
    ensures BindAll(o, a + b, output) == BindAll(BindAll(o, a, output), b, output)
    decreases |a|
  {
    if a == [] {
      assert a + b == b;
    } else {
      assert (a + b)[1..] == a[1..] + b;
      var next := if a[0].name in output then SetPath(o, a[0].contextPath, output[a[0].name]) else o;
      BindAllConcat(next, a[1..], b, output);
    }
  }

  /** One binding that writes, read at any path. */
  lemma BindOneReads(o: Context, b: Binding, output: Context, p: seq<string>)
    requires Writes(b, output) && SplitPath(b.contextPath) != [] && p != []
    ensures GetAt(BindAll(o, [b], output), p)
            == ReadAfter(GetAt(o, p), p, SplitPath(b.contextPath), output[b.name])
  {
    assert [b][1..] == [];
    assert BindAll(o, [b], output) == SetAt(o, SplitPath(b.contextPath), output[b.name]);
    ReadAfterWrite(o, p, SplitPath(b.contextPath), output[b.name]);
  }

  lemma EmptyPath(path: string)
    requires SplitPath(path) != []
    ensures path != ""
  {
    assert Kept([""]) == [];
  }

  /** A defined output is delivered if no later binding that writes touches its path. */
  lemma BindingsDeliver(o: Context, bindings: seq<Binding>, output: Context, i: nat)
    requires i < |bindings| && bindings[i].name in output && SplitPath(bindings[i].contextPath) != []
    requires ClearOf(bindings[i + 1..], output, SplitPath(bindings[i].contextPath))
    ensures GetAt(BindAll(o, bindings, output), SplitPath(bindings[i].contextPath))
            == Some(output[bindings[i].name])
  {
    var b, before, rest := bindings[i], bindings[..i], bindings[i + 1..];
    var p := SplitPath(b.contextPath);
    EmptyPath(b.contextPath);
    assert bindings == before + ([b] + rest);
    BindAllConcat(o, before, [b] + rest, output);
    BindAllConcat(BindAll(o, before, output), [b], rest, output);
    BindOneReads(BindAll(o, before, output), b, output, p);
    assert p[|p|..] == [];
    BindAllElsewhere(BindAll(BindAll(o, before, output), [b], output), rest, output, p);
  }

  /** Writing `w` to `q` leaves `v` standing at `p`: `w` brings it along, or `w` was part of it. */
  predicate Survives(v: Json, p: seq<string>, q: seq<string>, w: Json) {
    if Prefix(q, p) then Inside(w, p[|q|..]) == Some(v)
    else Prefix(p, q) ==> Inside(v, q[|p|..]) == Some(w)
  }

  lemma SurvivesExactly(v: Json, p: seq<string>, q: seq<string>, w: Json)
    ensures ReadAfter(Some(v), p, q, w) == Some(v) <==> Survives(v, p, q, w)
  {
    if !Prefix(q, p) && Prefix(p, q) {
      ProperPrefix(p, q);
      if v.Obj? {
        WriteIsIdle(v.fields, q[|p|..], w);
      }
    }
  }

  /** Where a write to a dotted path ends up; without any key JavaScript uses the name "undefined". */
  function Landing(path: string): (r: seq<string>)
    ensures r != []
  {
    if SplitPath(path) == [] then ["undefined"] else SplitPath(path)
  }

  lemma WriteLands(o: Context, path: string, v: Json)
    requires path != ""
    ensures SetPath(o, path, v) == SetAt(o, Landing(path), v)
  {}

  /** What stands at `p` after all bindings, given what stood there before: their writes in turn. */
  function AfterBindings(found: Option<Json>, p: seq<string>, bindings: seq<Binding>, output: Context): Option<Json>
    decreases |bindings|
  {
    if bindings == [] then found
    else
      var b := bindings[0];
      var next := if Writes(b, output) then ReadAfter(found, p, Landing(b.contextPath), output[b.name]) else found;
      AfterBindings(next, p, bindings[1..], output)
  }

  /** Any path after any list of bindings reads as its own value taken through their writes. */
  lemma {:induction false} ReadAfterBindings(o: Context, bindings: seq<Binding>, output: Context, p: seq<string>)
    requires p != []
    ensures GetAt(BindAll(o, bindings, output), p) == AfterBindings(GetAt(o, p), p, bindings, output)
    decreases |bindings|
  {
    if bindings != [] {
      var b := bindings[0];
      var next := if b.name in output then SetPath(o, b.contextPath, output[b.name]) else o;
      if Writes(b, output) {
        WriteLands(o, b.contextPath, output[b.name]);
        ReadAfterWrite(o, p, Landing(b.contextPath), output[b.name]);
      }
      ReadAfterBindings(next, bindings[1..], output, p);
    }
  }

  /** For every list of bindings: the output of binding `i` is delivered exactly when the writes of the
      later bindings, in turn, leave it standing. */
  lemma BindingLostExactly(o: Context, bindings: seq<Binding>, output: Context, i: nat)
    requires i < |bindings| && Writes(bindings[i], output)
    ensures var p, v := Landing(bindings[i].contextPath), output[bindings[i].name];
            GetAt(BindAll(o, bindings, output), p) == Some(v)
            <==> AfterBindings(Some(v), p, bindings[i + 1..], output) == Some(v)
  {
    var b, p := bindings[i], Landing(bindings[i].contextPath);
    var mid := BindAll(o, bindings[..i], output);
    assert bindings == bindings[..i] + ([b] + bindings[i + 1..]);
    BindAllConcat(o, bindings[..i], [b] + bindings[i + 1..], output);
    assert ([b] + bindings[i + 1..])[1..] == bindings[i + 1..];
    var written := SetPath(mid, b.contextPath, output[b.name]);
    WriteLands(mid, b.contextPath, output[b.name]);
    ReadBack(mid, p, output[b.name]);
    ReadAfterBindings(written, bindings[i + 1..], output, p);
  }

  /** With one later binding `j` that touches its path, that binding decides. */
  lemma OneTouchExactly(o: Context, bindings: seq<Binding>, output: Context, i: nat, j: nat)
    requires i < j < |bindings| && bindings[i].name in output && SplitPath(bindings[i].contextPath) != []
    requires Writes(bindings[j], output) && SplitPath(bindings[j].contextPath) != []
    requires ClearOf(bindings[i + 1..j], output, SplitPath(bindings[i].contextPath))
    requires ClearOf(bindings[j + 1..], output, SplitPath(bindings[i].contextPath))
    ensures GetAt(BindAll(o, bindings, output), SplitPath(bindings[i].contextPath)) == Some(output[bindings[i].name])
            <==> Survives(output[bindings[i].name], SplitPath(bindings[i].contextPath),
                          SplitPath(bindings[j].contextPath), output[bindings[j].name])
  {
    var p, v := SplitPath(bindings[i].contextPath), output[bindings[i].name];
    var q, w := SplitPath(bindings[j].contextPath), output[bindings[j].name];
    var before, b, rest := bindings[..j], bindings[j], bindings[j + 1..];
    assert before[i + 1..] == bindings[i + 1..j];
    BindingsDeliver(o, before, output, i);
    assert bindings == before + ([b] + rest);
    BindAllConcat(o, before, [b] + rest, output);
    var mid := BindAll(o, before, output);
    BindAllConcat(mid, [b], rest, output);
    BindOneReads(mid, b, output, p);
    BindAllElsewhere(BindAll(mid, [b], output), rest, output, p);
    SurvivesExactly(v, p, q, w);
  }

  lemma NestedPath()
    ensures SplitPath("x.y") == ["x", "y"] && SplitPath("x") == ["x"]
  {
    assert "x.y" == "x" + "." + "y";
    SplitPathOfDot("x", "y");
    SingleKey("x");
    SingleKey("y");
  }

  /** Two bindings on comparable paths that lose an output: the later, shorter write wins. */
  lemma ComparableBindingsLose()
    ensures var bs := [Binding("a", "x.y"), Binding("b", "x")];
            var out := map["a" := Num(1), "b" := Num(2)];
            && SplitPath("x.y") == ["x", "y"] && SplitPath("x") == ["x"]
            && GetAt(BindAll(map[], bs, out), ["x", "y"]) == None
  {
    var a, b := Binding("a", "x.y"), Binding("b", "x");
    var out := map["a" := Num(1), "b" := Num(2)];
    NestedPath();
    assert [a, b] == [a] + [b];
    BindAllConcat(map[], [a], [b], out);
    BindOneReads(BindAll(map[], [a], out), b, out, ["x", "y"]);
    assert ["x", "y"][1..] == ["y"];
  }

  /** A one-character key that is neither a dot nor white space is its own path. */
  lemma SingleKey(k: string)
    requires |k| == 1 && k[0] != '.' && !IsSpace(k[0])
    ensures SplitPath(k) == [k]
  {
    assert k[1..] == "";
    assert Pieces(k[1..]) == [""];
    assert Pieces(k) == [[k[0]] + ""] + [];
    assert [k[0]] + "" == k;
    assert TrimStart(k) == k && TrimEnd(k) == k;
    assert Pieces(k) == [k];
    assert Kept([k]) == [Trim(k)] + Kept([k][1..]);
    assert [k][1..] == [];
    assert Kept([]) == [];
  }
}
