/** Repository-backed paths: POSIX path arithmetic, containment, and requested paths. */
module CodeRoots {
  // server/codeRoots.ts:51-72, 115-118, 281-385.

  import opened Prelude
  import JsonTree

  // --- POSIX paths ---

  function Split(s: string): (r: seq<string>)
    ensures |r| >= 1
  {
    if s == "" then [""]
    else if s[0] == '/' then [""] + Split(s[1..])
    else var r := Split(s[1..]); [[s[0]] + r[0]] + r[1..]
  }

  function Join(segs: seq<string>): string {
    if segs == [] then ""
    else if |segs| == 1 then segs[0]
    else segs[0] + "/" + Join(segs[1..])
  }

  predicate IsAbsolute(p: string) {
    p != "" && p[0] == '/'
  }

  /** Applies segments to a directory: empty and "." stay, ".." climbs and stops at the top. */
  function Walk(dir: seq<string>, segs: seq<string>): seq<string>
    decreases |segs|
  {
    if segs == [] then dir
    else if segs[0] == "" || segs[0] == "." then Walk(dir, segs[1..])
    else if segs[0] == ".." then Walk(if dir == [] then [] else dir[..|dir| - 1], segs[1..])
    else Walk(dir + [segs[0]], segs[1..])
  }

  /** `path.resolve(p)` in working directory `cwd`, as segments. */
  function Resolve(cwd: seq<string>, p: string): seq<string> {
    Walk(if IsAbsolute(p) then [] else cwd, Split(p))
  }

  /** `path.resolve(root, p)` */
  function ResolveIn(cwd: seq<string>, root: string, p: string): seq<string> {
    Resolve(Resolve(cwd, root), p)
  }

  function Show(segs: seq<string>): string {
    "/" + Join(segs)
  }

  function Common(a: seq<string>, b: seq<string>): (n: nat)
    ensures n <= |a| && n <= |b| && a[..n] == b[..n]
    ensures n < |a| && n < |b| ==> a[n] != b[n]
  {
    if a == [] || b == [] || a[0] != b[0] then 0 else 1 + Common(a[1..], b[1..])
  }

  function Ups(n: nat): (r: seq<string>)
    ensures |r| == n && forall i :: 0 <= i < n ==> r[i] == ".."
  {
    if n == 0 then [] else [".."] + Ups(n - 1)
  }

  /** `path.relative(a, b)` */
  function Relative(cwd: seq<string>, a: string, b: string): string {
    var f, t := Resolve(cwd, a), Resolve(cwd, b);
    var n := Common(f, t);
    Join(Ups(|f| - n) + t[n..])
  }

  predicate StartsWith(s: string, p: string) {
    |p| <= |s| && s[..|p|] == p
  }

  /** `isPathWithinRoot`: a test on the text of the relative path. */
  predicate IsPathWithinRoot(cwd: seq<string>, root: string, candidate: string) {
    var r := Relative(cwd, root, candidate);
    !(r == ".." || StartsWith(r, "../") || IsAbsolute(r))
  }

  // --- Normalised segments ---

  predicate Plain(seg: string) {
    seg != "" && seg != "." && seg != ".." && '/' !in seg
  }

  predicate Normal(segs: seq<string>) {
    forall s :: s in segs ==> Plain(s)
  }

  lemma {:induction false} SplitHasNoSlash(s: string)
    ensures forall seg :: seg in Split(s) ==> '/' !in seg
  {
    if s != "" {
      SplitHasNoSlash(s[1..]);
    }
  }

  lemma {:induction false} WalkNormal(dir: seq<string>, segs: seq<string>)
    requires Normal(dir) && forall seg :: seg in segs ==> '/' !in seg
    ensures Normal(Walk(dir, segs))
    decreases |segs|
  {
    if segs != [] {
      var more := if segs[0] == "" || segs[0] == "." then dir
                  else if segs[0] == ".." then (if dir == [] then [] else dir[..|dir| - 1])
                  else dir + [segs[0]];
      WalkNormal(more, segs[1..]);
    }
  }

  lemma ResolveNormal(cwd: seq<string>, p: string)
    requires Normal(cwd)
    ensures Normal(Resolve(cwd, p))
  {
    SplitHasNoSlash(p);
    WalkNormal(if IsAbsolute(p) then [] else cwd, Split(p));
  }

  lemma {:induction false} SplitOne(seg: string)
    requires '/' !in seg
    ensures Split(seg) == [seg]
  {
    if seg != "" {
      SplitOne(seg[1..]);
      assert [seg[0]] + seg[1..] == seg;
    }
  }

  lemma {:induction false} SplitSlash(seg: string, rest: string)
    requires '/' !in seg
    ensures Split(seg + "/" + rest) == [seg] + Split(rest)
  {
    var s := seg + "/" + rest;
    if seg == "" {
      assert s[1..] == rest;
    } else {
      assert s[1..] == seg[1..] + "/" + rest;
      SplitSlash(seg[1..], rest);
      assert [seg[0]] + seg[1..] == seg;
    }
  }

  lemma {:induction false} SplitJoin(segs: seq<string>)
    requires segs != [] && forall seg :: seg in segs ==> '/' !in seg
    ensures Split(Join(segs)) == segs
  {
    assert segs[0] in segs;
    if |segs| == 1 {
      SplitOne(segs[0]);
    } else {
      SplitJoin(segs[1..]);
      SplitSlash(segs[0], Join(segs[1..]));
    }
  }

  lemma {:induction false} WalkPlain(dir: seq<string>, segs: seq<string>)
    requires Normal(segs)
    ensures Walk(dir, segs) == dir + segs
    decreases |segs|
  {
    if segs != [] {
      assert Plain(segs[0]);
      WalkPlain(dir + [segs[0]], segs[1..]);
    }
  }

  /** Printing a normalised path and resolving the text gives the path back, wherever one stands. */
  lemma ResolveShow(cwd: seq<string>, segs: seq<string>)
    requires Normal(segs)
    ensures Resolve(cwd, Show(segs)) == segs
  {
    var p := Show(segs);
    SplitSlash("", Join(segs));
    assert "" + "/" + Join(segs) == p;
    assert ([""] + Split(Join(segs)))[1..] == Split(Join(segs));
    if segs == [] {
      assert Walk([], [""]) == [];
    } else {
      SplitJoin(segs);
      WalkPlain([], segs);
    }
  }

  // --- Containment ---

  lemma UpSlash(s: string)
    ensures StartsWith(s, "../") <==> |s| >= 3 && s[0] == '.' && s[1] == '.' && s[2] == '/'
  {
    if |s| >= 3 {
      assert s[..3] == [s[0], s[1], s[2]];
    }
  }

  /** The first slash of a joined path ends its first segment. */
  lemma FirstSlash(segs: seq<string>)
    requires segs != [] && '/' !in segs[0]
    ensures forall i :: 0 <= i < |segs[0]| ==> i < |Join(segs)| && Join(segs)[i] == segs[0][i] && Join(segs)[i] != '/'
    ensures |segs| > 1 ==> |Join(segs)| > |segs[0]| && Join(segs)[|segs[0]|] == '/'
    ensures |segs| == 1 ==> |Join(segs)| == |segs[0]|
  {}

  lemma JoinStart(segs: seq<string>)
    requires segs != [] && '/' !in segs[0]
    ensures StartsWith(Join(segs), "../") <==> |segs| > 1 && segs[0] == ".."
    ensures Join(segs) == ".." <==> segs == [".."]
    ensures segs[0] != "" ==> !IsAbsolute(Join(segs))
  {
    var j, s := Join(segs), segs[0];
    UpSlash(j);
    FirstSlash(segs);
    assert s == ".." <==> |s| == 2 && s[0] == '.' && s[1] == '.';
    assert segs == [".."] <==> |segs| == 1 && s == "..";
  }

  /** The text test is containment: it holds exactly when the root's segments begin the candidate's,
      even for names such as "..x" that only look like an escape. */
  lemma WithinIsPrefix(cwd: seq<string>, root: string, candidate: string)
    requires Normal(cwd)
    ensures IsPathWithinRoot(cwd, root, candidate) <==> Resolve(cwd, root) <= Resolve(cwd, candidate)
  {
    var f, t := Resolve(cwd, root), Resolve(cwd, candidate);
    ResolveNormal(cwd, candidate);
    var n := Common(f, t);
    var segs := Ups(|f| - n) + t[n..];
    if n == |f| {
      assert segs == t[n..];
      if segs != [] {
        assert segs[0] in t;
        JoinStart(segs);
      }
    } else {
      assert segs[0] == "..";
      JoinStart(segs);
      assert |segs| == 1 ==> segs == [".."];
      assert n < |t| ==> f[n] != t[n];
    }
  }

  datatype Result<T> = Ok(value: T) | Error

  /** `safeJoinWithinRoot` */
  function SafeJoinWithinRoot(cwd: seq<string>, root: string, p: string): Result<string> {
    var candidate := Show(ResolveIn(cwd, root, p));
    if IsPathWithinRoot(cwd, root, candidate) then Ok(candidate) else Error
  }

  /** It throws exactly when the path resolves to somewhere outside the root. */
  lemma SafeJoinIsSafe(cwd: seq<string>, root: string, p: string)
    requires Normal(cwd)
    ensures SafeJoinWithinRoot(cwd, root, p).Ok? <==> Resolve(cwd, root) <= ResolveIn(cwd, root, p)
    ensures var r := SafeJoinWithinRoot(cwd, root, p);
            r.Ok? ==> Resolve(cwd, r.value) == ResolveIn(cwd, root, p)
  {
    ResolveNormal(cwd, root);
    ResolveNormal(Resolve(cwd, root), p);
    ResolveShow(cwd, ResolveIn(cwd, root, p));
    WithinIsPrefix(cwd, root, Show(ResolveIn(cwd, root, p)));
  }

  /** A relative path without ".." never escapes. */
  lemma {:induction false} DownwardStays(dir: seq<string>, segs: seq<string>)
    requires ".." !in segs
    ensures dir <= Walk(dir, segs)
    decreases |segs|
  {
    if segs != [] {
      assert segs[0] in segs && forall s :: s in segs[1..] ==> s in segs;
      DownwardStays(if segs[0] == "" || segs[0] == "." then dir else dir + [segs[0]], segs[1..]);
    }
  }

  // --- Requests ---

  datatype CodeRoot = CodeRoot(checkoutPath: string, lookupTokens: seq<string>)

  datatype Mode = Absolute | RepoRelative | RepoPrefixed | WorkspaceFallback

  datatype Kind = AbsoluteKind | RelativeKind | PrefixedKind

  datatype Resolved = Resolved(path: string, root: Option<CodeRoot>, mode: Mode, kind: Kind, fallback: bool)

  /** The machine: working directory, what exists on disk, and the normalisation of lookup tokens. */
  datatype World = World(cwd: seq<string>, onDisk: string -> bool, token: string -> string)

  /** `findContainingCodeRoot` */
  function FindContaining(w: World, candidate: string, roots: seq<CodeRoot>): Option<CodeRoot> {
    if roots == [] then None
    else if IsPathWithinRoot(w.cwd, roots[0].checkoutPath, candidate) then Some(roots[0])
    else FindContaining(w, candidate, roots[1..])
  }

  function FindByToken(token: string, roots: seq<CodeRoot>): (r: Option<CodeRoot>)
    ensures r.Some? ==> r.value in roots && token in r.value.lookupTokens
    ensures r.None? ==> forall x :: x in roots ==> token !in x.lookupTokens
  {
    if roots == [] then None
    else if token in roots[0].lookupTokens then Some(roots[0])
    else FindByToken(token, roots[1..])
  }

  function Slashed(s: string): string {
    seq(|s|, i requires 0 <= i < |s| => if s[i] == '\\' then '/' else s[i])
  }

  function DropSlashes(s: string): string {
    if s != "" && s[0] == '/' then DropSlashes(s[1..]) else s
  }

  /** `.replace(/^\.\/+/, "")` */
  function DropDotSlash(s: string): string {
    if StartsWith(s, "./") then DropSlashes(s[2..]) else s
  }

  function NonEmpty(segs: seq<string>): seq<string> {
    if segs == [] then [] else (if segs[0] == "" then [] else [segs[0]]) + NonEmpty(segs[1..])
  }

  /** The loop over the roots: None when it runs out, an error when a join escapes. */
  function TryRoots(w: World, rel: string, kind: Kind, roots: seq<CodeRoot>): Option<Result<Resolved>> {
    if roots == [] then None
    else
      var c := SafeJoinWithinRoot(w.cwd, roots[0].checkoutPath, rel);
      if c.Error? then Some(Error)
      else if w.onDisk(c.value) then Some(Ok(Resolved(c.value, Some(roots[0]), RepoRelative, kind, false)))
      else TryRoots(w, rel, kind, roots[1..])
  }

  function InRoot(c: Result<string>, root: CodeRoot, mode: Mode, kind: Kind, fallback: bool): Result<Resolved> {
    if c.Error? then Error else Ok(Resolved(c.value, Some(root), mode, kind, fallback))
  }

  /** After the roots have been tried: what a path that exists nowhere resolves to. */
  function Fallback(w: World, trimmed: string, rel: string, tail: string, prefixed: Option<CodeRoot>,
                    roots: seq<CodeRoot>, fallbackPath: string): Result<Resolved> {
    if prefixed.Some? then
      InRoot(SafeJoinWithinRoot(w.cwd, prefixed.value.checkoutPath, tail), prefixed.value, RepoPrefixed, PrefixedKind,
             true)
    else if |roots| == 1 then
      InRoot(SafeJoinWithinRoot(w.cwd, roots[0].checkoutPath, rel), roots[0], RepoRelative, RelativeKind, true)
    else if fallbackPath != "" then
      Ok(Resolved(Show(ResolveIn(w.cwd, fallbackPath, trimmed)), None, WorkspaceFallback, RelativeKind, true))
    else if roots != [] then
      InRoot(SafeJoinWithinRoot(w.cwd, roots[0].checkoutPath, rel), roots[0], WorkspaceFallback, RelativeKind, true)
    else Ok(Resolved(Show(Resolve(w.cwd, trimmed)), None, WorkspaceFallback, RelativeKind, true))
  }

  /** `canonicalizeRepoBackedPath` */
  function Canonicalize(w: World, requested: string, roots: seq<CodeRoot>, fallbackPath: string): Result<Resolved> {
    var trimmed := JsonTree.Trim(requested);
    if trimmed == "" then Error
    else if IsAbsolute(trimmed) then
      var p := Show(Resolve(w.cwd, trimmed));
      Ok(Resolved(p, FindContaining(w, p, roots), Absolute, AbsoluteKind, false))
    else
      var rel := DropDotSlash(Slashed(trimmed));
      var segs := NonEmpty(Split(rel));
      var prefixed := if |segs| > 1 then FindByToken(w.token(segs[0]), roots) else None;
      var tail := if segs == [] then "" else Join(segs[1..]);
      var joined := if prefixed.Some? then SafeJoinWithinRoot(w.cwd, prefixed.value.checkoutPath, tail) else Error;
      if prefixed.Some? && joined.Error? then Error
      else if prefixed.Some? && w.onDisk(joined.value) then
        Ok(Resolved(joined.value, prefixed, RepoPrefixed, PrefixedKind, false))
      else
        var tried := TryRoots(w, rel, if prefixed.Some? then PrefixedKind else RelativeKind, roots);
        if tried.Some? then tried.value else Fallback(w, trimmed, rel, tail, prefixed, roots, fallbackPath)
  }

  // --- What a resolved path guarantees ---

  /** The named root is one of the given ones and contains the path. */
  ghost predicate Contained(w: World, roots: seq<CodeRoot>, r: Resolved) {
    r.root.Some? ==> r.root.value in roots && Resolve(w.cwd, r.root.value.checkoutPath) <= Resolve(w.cwd, r.path)
  }

  lemma InRootContained(w: World, roots: seq<CodeRoot>, root: CodeRoot, p: string, mode: Mode, kind: Kind,
                        fallback: bool)
    requires Normal(w.cwd) && root in roots
    ensures var r := InRoot(SafeJoinWithinRoot(w.cwd, root.checkoutPath, p), root, mode, kind, fallback);
            r.Ok? ==> Contained(w, roots, r.value)
  {
    SafeJoinIsSafe(w.cwd, root.checkoutPath, p);
  }

  /** Root `i` contains the path and no earlier one does. */
  predicate IsFirst(w: World, candidate: string, roots: seq<CodeRoot>, i: nat)
    requires i < |roots|
  {
    && Resolve(w.cwd, roots[i].checkoutPath) <= Resolve(w.cwd, candidate)
    && forall j :: 0 <= j < i ==> !(Resolve(w.cwd, roots[j].checkoutPath) <= Resolve(w.cwd, candidate))
  }

  lemma OneFurther(w: World, candidate: string, roots: seq<CodeRoot>, i: nat)
    requires i < |roots| - 1 && IsFirst(w, candidate, roots[1..], i)
    requires !(Resolve(w.cwd, roots[0].checkoutPath) <= Resolve(w.cwd, candidate))
    ensures IsFirst(w, candidate, roots, i + 1)
  {
    forall j | 0 <= j < i + 1 ensures !(Resolve(w.cwd, roots[j].checkoutPath) <= Resolve(w.cwd, candidate)) {
      assert j > 0 ==> roots[j] == roots[1..][j - 1];
    }
  }

  /** The search takes the first root that contains the path, and misses none. */
  lemma {:induction false} FirstContaining(w: World, candidate: string, roots: seq<CodeRoot>)
    requires Normal(w.cwd)
    ensures var r := FindContaining(w, candidate, roots);
            if r.None? then
              forall x :: x in roots ==> !(Resolve(w.cwd, x.checkoutPath) <= Resolve(w.cwd, candidate))
            else
              exists i :: 0 <= i < |roots| && IsFirst(w, candidate, roots, i) && roots[i] == r.value
  {
    if roots != [] {
      WithinIsPrefix(w.cwd, roots[0].checkoutPath, candidate);
      FirstContaining(w, candidate, roots[1..]);
      var r := FindContaining(w, candidate, roots[1..]);
      if !IsPathWithinRoot(w.cwd, roots[0].checkoutPath, candidate) && r.Some? {
        var i :| 0 <= i < |roots[1..]| && IsFirst(w, candidate, roots[1..], i) && roots[1..][i] == r.value;
        OneFurther(w, candidate, roots, i);
      }
    }
  }

  /** The path stays within the root but nothing exists there. */
  ghost predicate Passed(w: World, rel: string, root: CodeRoot) {
    var target := ResolveIn(w.cwd, root.checkoutPath, rel);
    Resolve(w.cwd, root.checkoutPath) <= target && !w.onDisk(Show(target))
  }

  /** Root `i` settles the search: all before it were passed, and it is the first where the path exists
      or the first that it escapes. */
  ghost predicate Settled(w: World, rel: string, kind: Kind, roots: seq<CodeRoot>, i: nat, r: Result<Resolved>) {
    && i < |roots| && (forall j :: 0 <= j < i ==> Passed(w, rel, roots[j])) && !Passed(w, rel, roots[i])
    && var target := ResolveIn(w.cwd, roots[i].checkoutPath, rel);
       r == if Resolve(w.cwd, roots[i].checkoutPath) <= target
            then Ok(Resolved(Show(target), Some(roots[i]), RepoRelative, kind, false))
            else Error
  }

  lemma SettledFurther(w: World, rel: string, kind: Kind, roots: seq<CodeRoot>, i: nat, r: Result<Resolved>)
    requires roots != [] && Passed(w, rel, roots[0]) && Settled(w, rel, kind, roots[1..], i, r)
    ensures Settled(w, rel, kind, roots, i + 1, r)
  {
    forall j | 0 <= j < i + 1 ensures Passed(w, rel, roots[j]) {
      if j > 0 {
        assert roots[j] == roots[1..][j - 1];
      }
    }
  }

  /** The loop answers by the first root under which the path exists, throws at the first one that the
      path escapes, whichever comes first, and gives nothing exactly when every root was passed. */
  lemma {:induction false} TryRootsSettles(w: World, rel: string, kind: Kind, roots: seq<CodeRoot>)
    requires Normal(w.cwd)
    ensures var r := TryRoots(w, rel, kind, roots);
            && (r.Some? ==> exists i: nat :: Settled(w, rel, kind, roots, i, r.value))
            && (r.None? <==> forall x :: x in roots ==> Passed(w, rel, x))
  {
    if roots != [] {
      SafeJoinIsSafe(w.cwd, roots[0].checkoutPath, rel);
      TryRootsSettles(w, rel, kind, roots[1..]);
      var r := TryRoots(w, rel, kind, roots);
      if Passed(w, rel, roots[0]) {
        if r.Some? {
          var i: nat :| Settled(w, rel, kind, roots[1..], i, r.value);
          SettledFurther(w, rel, kind, roots, i, r.value);
        }
      } else {
        assert roots[0] in roots;
        assert Settled(w, rel, kind, roots, 0, r.value);
      }
    }
  }

  /** A result of the loop names a root that contains it, and exists. */
  lemma TryRootsContained(w: World, rel: string, kind: Kind, roots: seq<CodeRoot>)
    requires Normal(w.cwd)
    ensures var r := TryRoots(w, rel, kind, roots);
            && (r.Some? && r.value.Ok? ==>
                  Contained(w, roots, r.value.value) && r.value.value.root.Some? && w.onDisk(r.value.value.path))
            && (r.Some? && r.value.Error? ==>
                  exists x :: x in roots && !(Resolve(w.cwd, x.checkoutPath) <= ResolveIn(w.cwd, x.checkoutPath, rel)))
            && (r.None? ==> forall x :: x in roots ==>
                  Resolve(w.cwd, x.checkoutPath) <= ResolveIn(w.cwd, x.checkoutPath, rel)
                  && !w.onDisk(Show(ResolveIn(w.cwd, x.checkoutPath, rel))))
  {
    TryRootsSettles(w, rel, kind, roots);
    var r := TryRoots(w, rel, kind, roots);
    if r.Some? {
      var i: nat :| Settled(w, rel, kind, roots, i, r.value);
      assert roots[i] in roots;
      SafeJoinIsSafe(w.cwd, roots[i].checkoutPath, rel);
    }
  }

  lemma FallbackContained(w: World, trimmed: string, rel: string, tail: string, prefixed: Option<CodeRoot>,
                          roots: seq<CodeRoot>, fallbackPath: string)
    requires Normal(w.cwd) && (prefixed.Some? ==> prefixed.value in roots)
    ensures var r := Fallback(w, trimmed, rel, tail, prefixed, roots, fallbackPath);
            r.Ok? ==> Contained(w, roots, r.value)
  {
    if prefixed.Some? {
      InRootContained(w, roots, prefixed.value, tail, RepoPrefixed, PrefixedKind, true);
    } else if roots != [] {
      InRootContained(w, roots, roots[0], rel, RepoRelative, RelativeKind, true);
      InRootContained(w, roots, roots[0], rel, WorkspaceFallback, RelativeKind, true);
    }
  }

  /** Whatever is requested and whatever roots there are: a result that names a repository root names
      one of the given roots, and the resolved path lies within it. */
  lemma CanonicalPathsAreContained(w: World, requested: string, roots: seq<CodeRoot>, fallbackPath: string)
    requires Normal(w.cwd)
    ensures var r := Canonicalize(w, requested, roots, fallbackPath);
            r.Ok? ==> Contained(w, roots, r.value)
  {
    var trimmed := JsonTree.Trim(requested);
    if trimmed != "" {
      if IsAbsolute(trimmed) {
        FirstContaining(w, Show(Resolve(w.cwd, trimmed)), roots);
      } else {
        var rel := DropDotSlash(Slashed(trimmed));
        var segs := NonEmpty(Split(rel));
        var prefixed := if |segs| > 1 then FindByToken(w.token(segs[0]), roots) else None;
        var tail := if segs == [] then "" else Join(segs[1..]);
        TryRootsContained(w, rel, if prefixed.Some? then PrefixedKind else RelativeKind, roots);
        FallbackContained(w, trimmed, rel, tail, prefixed, roots, fallbackPath);
        if prefixed.Some? {
          InRootContained(w, roots, prefixed.value, tail, RepoPrefixed, PrefixedKind, false);
        }
      }
    }
  }

  /** A relative request answered without a fallback names a root and a path that exists. */
  lemma AnsweredPathsExist(w: World, requested: string, roots: seq<CodeRoot>, fallbackPath: string)
    requires Normal(w.cwd)
    ensures var r := Canonicalize(w, requested, roots, fallbackPath);
            r.Ok? && !r.value.fallback && r.value.mode != Absolute ==> r.value.root.Some? && w.onDisk(r.value.path)
  {
    var rel := DropDotSlash(Slashed(JsonTree.Trim(requested)));
    var segs := NonEmpty(Split(rel));
    var prefixed := if |segs| > 1 then FindByToken(w.token(segs[0]), roots) else None;
    TryRootsContained(w, rel, if prefixed.Some? then PrefixedKind else RelativeKind, roots);
  }
}
