/** Which path a request resolves to, read off the names in it. */
module CodeRootAnswers {
  // server/codeRoots.ts:281-385.

  import opened Prelude
  import opened CodeRoots
  import JsonTree

  // --- The names in a request ---

  /** The request as it is read: trimmed. */
  function Text(requested: string): string {
    JsonTree.Trim(requested)
  }

  function Names(text: string): seq<string> {
    NonEmpty(Split(DropDotSlash(Slashed(text))))
  }

  lemma {:induction false} NonEmptyConcat(a: seq<string>, b: seq<string>)
    ensures NonEmpty(a + b) == NonEmpty(a) + NonEmpty(b)
  {
    if a == [] {
      assert a + b == b;
    } else {
      assert (a + b)[1..] == a[1..] + b;
      NonEmptyConcat(a[1..], b);
    }
  }

  lemma {:induction false} NonEmptyKeeps(segs: seq<string>)
    requires "" !in segs
    ensures NonEmpty(segs) == segs
  {
    if segs != [] {
      assert forall x :: x in segs[1..] ==> x in segs;
      NonEmptyKeeps(segs[1..]);
    }
  }

  lemma {:induction false} OnlyNames(segs: seq<string>)
    requires forall x :: x in segs ==> '/' !in x
    ensures forall x :: x in NonEmpty(segs) ==> x != "" && '/' !in x
  {
    if segs != [] {
      OnlyNames(segs[1..]);
    }
  }

  /** Text before the first slash, and the rest: the names of both, one after the other. */
  lemma {:induction false} NamesSplit(a: string, b: string)
    ensures NonEmpty(Split(a + "/" + b)) == NonEmpty(Split(a)) + NonEmpty(Split(b))
    decreases |a|
  {
    var s := a + "/" + b;
    SplitConcat(a, b);
    NonEmptyConcat(Split(a), Split(b));
  }

  lemma {:induction false} SplitConcat(a: string, b: string)
    ensures Split(a + "/" + b) == Split(a) + Split(b)
  {
    var s := a + "/" + b;
    if a == "" {
      assert s[1..] == b;
    } else {
      assert s[1..] == a[1..] + "/" + b;
      SplitConcat(a[1..], b);
    }
  }

  lemma DotSlash(s: string)
    ensures StartsWith(s, "./") <==> |s| >= 2 && s[0] == '.' && s[1] == '/'
  {
    if |s| >= 2 {
      assert s[..2] == [s[0], s[1]];
    }
  }

  /** A leading "./" or ".\" is dropped, slashes after it do not matter, and elsewhere a dot is a name. */
  lemma LeadingDot(text: string)
    ensures Names("./" + text) == Names(".\\" + text) == NonEmpty(Split(Slashed(text)))
    ensures (text == "" || text[0] != '.') ==> Names(text) == NonEmpty(Split(Slashed(text)))
  {
    assert Slashed("./" + text) == "./" + Slashed(text) == Slashed(".\\" + text);
    assert ("./" + Slashed(text))[2..] == Slashed(text) && ("./" + Slashed(text))[..2] == "./";
    DropSlashesIs(Slashed(text));
    DotSlash(Slashed(text));
  }

  /** Names joined by slashes or backslashes are read back. */
  lemma NamesRead(names: seq<string>, text: string)
    requires names != [] && (forall x :: x in names ==> x != "" && '/' !in x && '\\' !in x)
    requires |text| == |Join(names)|
    requires forall i :: 0 <= i < |text| ==> Join(names)[i] == if text[i] == '\\' then '/' else text[i]
    requires |names| > 1 ==> names[0] != "."
    ensures Names(text) == names
  {
    assert Slashed(text) == Join(names);
    SplitJoin(names);
    NonEmptyKeeps(names);
    FirstSlash(names);
    DotSlash(Join(names));
    assert |names[0]| == 1 && names[0][0] == '.' ==> names[0] == ".";
  }

  // --- Where a request leads below a root ---

  /** The path of the names below a root; a request that starts with a backslash is a path from the top. */
  function Target(w: World, root: CodeRoot, text: string): seq<string>
    requires text != ""
  {
    Walk(if text[0] == '\\' then [] else Resolve(w.cwd, root.checkoutPath), Names(text))
  }

  predicate Stays(w: World, root: CodeRoot, target: seq<string>) {
    Resolve(w.cwd, root.checkoutPath) <= target
  }

  lemma {:induction false} WalkNames(dir: seq<string>, segs: seq<string>)
    ensures Walk(dir, NonEmpty(segs)) == Walk(dir, segs)
    decreases |segs|
  {
    if segs != [] {
      var rest := segs[1..];
      if segs[0] == "" {
        assert NonEmpty(segs) == NonEmpty(rest);
        WalkNames(dir, rest);
      } else {
        assert NonEmpty(segs) == [segs[0]] + NonEmpty(rest);
        assert NonEmpty(segs)[0] == segs[0] && NonEmpty(segs)[1..] == NonEmpty(rest);
        WalkNames(if segs[0] == "." then dir else if segs[0] != ".." then dir + [segs[0]]
                  else if dir == [] then [] else dir[..|dir| - 1], rest);
      }
    }
  }

  /** ".." takes back the name before it, and stops at the top. */
  lemma {:induction false} UpTakesBack(dir: seq<string>, before: seq<string>, name: string, after: seq<string>)
    requires Plain(name)
    ensures Walk(dir, before + [name, ".."] + after) == Walk(dir, before + after)
    ensures Walk([], [".."] + after) == Walk([], after)
    decreases |before|
  {
    assert ([".."] + after)[1..] == after;
    var all, short := before + [name, ".."] + after, before + after;
    if before == [] {
      assert all[0] == name && all[1..] == [".."] + after;
      assert ([".."] + after)[0] == "..";
      assert (dir + [name])[..|dir|] == dir;
      assert short == after;
    } else {
      var b, rest := before[0], before[1..];
      assert all[0] == b == short[0] && all[1..] == rest + [name, ".."] + after && short[1..] == rest + after;
      UpTakesBack(if b == "" || b == "." then dir else if b != ".." then dir + [b]
                  else if dir == [] then [] else dir[..|dir| - 1], rest, name, after);
    }
  }

  lemma {:induction false} DropSlashesIs(s: string)
    ensures !IsAbsolute(DropSlashes(s))
    ensures NonEmpty(Split(DropSlashes(s))) == NonEmpty(Split(s))
  {
    if s != "" && s[0] == '/' {
      DropSlashesIs(s[1..]);
      assert ([""] + Split(s[1..]))[1..] == Split(s[1..]);
    }
  }

  lemma RelativeStart(text: string)
    requires text != "" && text[0] != '/'
    ensures IsAbsolute(DropDotSlash(Slashed(text))) <==> text[0] == '\\'
  {
    var s := Slashed(text);
    DotSlash(s);
    if StartsWith(s, "./") {
      DropSlashesIs(s[2..]);
    }
  }

  lemma TargetIs(w: World, root: CodeRoot, text: string)
    requires text != "" && text[0] != '/'
    ensures ResolveIn(w.cwd, root.checkoutPath, DropDotSlash(Slashed(text))) == Target(w, root, text)
  {
    RelativeStart(text);
    var rel := DropDotSlash(Slashed(text));
    WalkNames(if IsAbsolute(rel) then [] else Resolve(w.cwd, root.checkoutPath), Split(rel));
  }

  lemma RestIs(w: World, root: CodeRoot, names: seq<string>)
    requires names != [] && forall x :: x in names ==> x != "" && '/' !in x
    ensures ResolveIn(w.cwd, root.checkoutPath, Join(names)) == Walk(Resolve(w.cwd, root.checkoutPath), names)
  {
    assert names[0] in names;
    JoinStart(names);
    SplitJoin(names);
  }

  // --- The answers ---

  /** Root `i` is the first that answers to the first of several names. */
  ghost predicate IsPrefixed(w: World, text: string, roots: seq<CodeRoot>, i: nat) {
    && i < |roots| && |Names(text)| > 1 && w.token(Names(text)[0]) in roots[i].lookupTokens
    && forall j :: 0 <= j < i ==> w.token(Names(text)[0]) !in roots[j].lookupTokens
  }

  /** Below root `i` the path stays but does not exist. */
  ghost predicate Missing(w: World, text: string, roots: seq<CodeRoot>, i: nat)
    requires text != "" && i < |roots|
  {
    Stays(w, roots[i], Target(w, roots[i], text)) && !w.onDisk(Show(Target(w, roots[i], text)))
  }

  /** The first root below which the path is not missing answers: by that path if it stays within it,
      else by an error. */
  ghost predicate FoundBelow(w: World, text: string, roots: seq<CodeRoot>, kind: Kind, r: Result<Resolved>)
    requires text != ""
  {
    exists i :: 0 <= i < |roots| && !Missing(w, text, roots, i)
      && (forall j :: 0 <= j < i ==> Missing(w, text, roots, j))
      && r == if Stays(w, roots[i], Target(w, roots[i], text))
              then Ok(Resolved(Show(Target(w, roots[i], text)), Some(roots[i]), RepoRelative, kind, false))
              else Error
  }

  ghost predicate NowhereBelow(w: World, text: string, roots: seq<CodeRoot>)
    requires text != ""
  {
    forall i :: 0 <= i < |roots| ==> Missing(w, text, roots, i)
  }

  lemma Tried(w: World, text: string, roots: seq<CodeRoot>, kind: Kind)
    requires Normal(w.cwd) && text != "" && text[0] != '/'
    ensures var r := TryRoots(w, DropDotSlash(Slashed(text)), kind, roots);
            if r.Some? then FoundBelow(w, text, roots, kind, r.value) else NowhereBelow(w, text, roots)
  {
    var rel := DropDotSlash(Slashed(text));
    forall i | 0 <= i < |roots|
      ensures Passed(w, rel, roots[i]) <==> Missing(w, text, roots, i)
      ensures ResolveIn(w.cwd, roots[i].checkoutPath, rel) == Target(w, roots[i], text)
    {
      TargetIs(w, roots[i], text);
    }
    TryRootsSettles(w, rel, kind, roots);
    var r := TryRoots(w, rel, kind, roots);
    if r.Some? {
      var i: nat :| Settled(w, rel, kind, roots, i, r.value);
      assert !Missing(w, text, roots, i);
    }
  }

  lemma SafeJoinAt(w: World, root: CodeRoot, p: string, target: seq<string>)
    requires Normal(w.cwd) && ResolveIn(w.cwd, root.checkoutPath, p) == target
    ensures SafeJoinWithinRoot(w.cwd, root.checkoutPath, p)
            == if Stays(w, root, target) then Ok(Show(target)) else Error
  {
    SafeJoinIsSafe(w.cwd, root.checkoutPath, p);
  }

  lemma {:induction false} FirstByToken(token: string, roots: seq<CodeRoot>, i: nat)
    requires i < |roots| && token in roots[i].lookupTokens
    requires forall j :: 0 <= j < i ==> token !in roots[j].lookupTokens
    ensures FindByToken(token, roots) == Some(roots[i])
  {
    if i > 0 {
      assert forall j :: 0 <= j < i - 1 ==> roots[1..][j] == roots[j + 1];
      FirstByToken(token, roots[1..], i - 1);
    }
  }

  /** A request for nothing is an error. */
  lemma BlankAnswer(w: World, requested: string, roots: seq<CodeRoot>, fallbackPath: string)
    requires JsonTree.Blank(requested)
    ensures Canonicalize(w, requested, roots, fallbackPath) == Error
  {
    JsonTree.BlankTrims(requested);
  }

  /** Root `i` is the first that contains the path. */
  predicate FirstAround(w: World, roots: seq<CodeRoot>, path: seq<string>, i: nat)
    requires i < |roots|
  {
    Stays(w, roots[i], path) && forall j :: 0 <= j < i ==> !Stays(w, roots[j], path)
  }

  /** An absolute path is answered as it is, normalised, with the first root that contains it. */
  lemma AbsoluteAnswer(w: World, requested: string, roots: seq<CodeRoot>, fallbackPath: string)
    requires Normal(w.cwd) && IsAbsolute(Text(requested))
    ensures var path := Walk([], Split(Text(requested)));
            && (forall i :: 0 <= i < |roots| && FirstAround(w, roots, path, i) ==>
                  Canonicalize(w, requested, roots, fallbackPath)
                  == Ok(Resolved(Show(path), Some(roots[i]), Absolute, AbsoluteKind, false)))
            && ((forall i :: 0 <= i < |roots| ==> !Stays(w, roots[i], path)) ==>
                  Canonicalize(w, requested, roots, fallbackPath)
                  == Ok(Resolved(Show(path), None, Absolute, AbsoluteKind, false)))
  {
    var path := Resolve(w.cwd, Text(requested));
    ResolveNormal(w.cwd, Text(requested));
    ResolveShow(w.cwd, path);
    FirstContaining(w, Show(path), roots);
    var r := FindContaining(w, Show(path), roots);
    if r.Some? {
      var k :| 0 <= k < |roots| && IsFirst(w, Show(path), roots, k) && roots[k] == r.value;
      forall i | 0 <= i < |roots| && FirstAround(w, roots, path, i) ensures i == k
      {
        assert !(i < k);
        assert !(k < i);
      }
    }
  }

  /** The first name stands for a root: the path of the other names below it is the answer if it exists,
      and an error if it leaves the root. Otherwise all the names are tried below every root, and when
      none has them either, the answer is the first path after all, as a fallback. */
  lemma PrefixedAnswer(w: World, requested: string, roots: seq<CodeRoot>, fallbackPath: string, i: nat)
    requires Normal(w.cwd) && Text(requested) != "" && Text(requested)[0] != '/'
    requires IsPrefixed(w, Text(requested), roots, i)
    ensures var text := Text(requested);
            var r := Canonicalize(w, requested, roots, fallbackPath);
            var path := Walk(Resolve(w.cwd, roots[i].checkoutPath), Names(text)[1..]);
            && (!Stays(w, roots[i], path) ==> r == Error)
            && (Stays(w, roots[i], path) && w.onDisk(Show(path)) ==>
                  r == Ok(Resolved(Show(path), Some(roots[i]), RepoPrefixed, PrefixedKind, false)))
            && (Stays(w, roots[i], path) && !w.onDisk(Show(path)) ==>
                  if NowhereBelow(w, text, roots)
                  then r == Ok(Resolved(Show(path), Some(roots[i]), RepoPrefixed, PrefixedKind, true))
                  else FoundBelow(w, text, roots, PrefixedKind, r))
  {
    var text := Text(requested);
    var names := Names(text);
    var path := Walk(Resolve(w.cwd, roots[i].checkoutPath), names[1..]);
    SplitHasNoSlash(DropDotSlash(Slashed(text)));
    OnlyNames(Split(DropDotSlash(Slashed(text))));
    assert forall x :: x in names[1..] ==> x in names;
    RestIs(w, roots[i], names[1..]);
    SafeJoinAt(w, roots[i], Join(names[1..]), path);
    FirstByToken(w.token(names[0]), roots, i);
    Tried(w, text, roots, PrefixedKind);
  }

  /** Without such a root the names are tried below every root; when none has them, a single root takes
      the path, else the workspace path does if there is one, else the first root, and with no root at all
      the working directory. */
  lemma RelativeAnswer(w: World, requested: string, roots: seq<CodeRoot>, fallbackPath: string)
    requires Normal(w.cwd) && Text(requested) != "" && Text(requested)[0] != '/'
    requires forall i :: !IsPrefixed(w, Text(requested), roots, i)
    ensures var text := Text(requested);
            var r := Canonicalize(w, requested, roots, fallbackPath);
            if !NowhereBelow(w, text, roots) then FoundBelow(w, text, roots, RelativeKind, r)
            else if |roots| == 1 then
              r == Ok(Resolved(Show(Target(w, roots[0], text)), Some(roots[0]), RepoRelative, RelativeKind, true))
            else if fallbackPath != "" then
              r == Ok(Resolved(Show(Walk(Resolve(w.cwd, fallbackPath), Split(text))), None, WorkspaceFallback,
                               RelativeKind, true))
            else if roots != [] then
              r == Ok(Resolved(Show(Target(w, roots[0], text)), Some(roots[0]), WorkspaceFallback, RelativeKind, true))
            else
              r == Ok(Resolved(Show(Walk(w.cwd, Split(text))), None, WorkspaceFallback, RelativeKind, true))
  {
    var text := Text(requested);
    var names := Names(text);
    if |names| > 1 {
      NoneByToken(w, text, roots);
    }
    Tried(w, text, roots, RelativeKind);
    if roots != [] {
      TargetIs(w, roots[0], text);
      SafeJoinAt(w, roots[0], DropDotSlash(Slashed(text)), Target(w, roots[0], text));
    }
  }

  lemma NoneByToken(w: World, text: string, roots: seq<CodeRoot>)
    requires |Names(text)| > 1 && forall i :: !IsPrefixed(w, text, roots, i)
    ensures FindByToken(w.token(Names(text)[0]), roots) == None
  {
    var token := w.token(Names(text)[0]);
    if FindByToken(token, roots).Some? {
      var i := FirstIndex(token, roots);
      assert IsPrefixed(w, text, roots, i);
    }
  }

  lemma {:induction false} FirstIndex(token: string, roots: seq<CodeRoot>) returns (i: nat)
    requires FindByToken(token, roots).Some?
    ensures i < |roots| && token in roots[i].lookupTokens
    ensures forall j :: 0 <= j < i ==> token !in roots[j].lookupTokens
  {
    i := 0;
    if token !in roots[0].lookupTokens {
      var k := FirstIndex(token, roots[1..]);
      assert forall j :: 0 <= j < k ==> roots[1..][j] == roots[j + 1];
      i := k + 1;
    }
  }
}
