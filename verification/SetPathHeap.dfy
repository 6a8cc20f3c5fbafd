/** `setPath` as it runs: a cursor moving through mutable objects, proved to perform the write of
    `JsonTree` (server/businessWorkflows.ts:516-555). */
module SetPathHeap {
  import opened Prelude
  import opened JsonTree

  /** A property holds a plain object, or a value that setPath never looks into. */
  datatype Value = Leaf(json: Json) | Ref(obj: JsObject)

  class JsObject {
    var props: map<string, Value>

    constructor ()
      ensures props == map[]
    {
      props := map[];
    }
  }

  /** What the objects of interest hold at some moment. */
  type Snapshot = map<JsObject, map<string, Value>>

  ghost predicate Faithful(h: Snapshot)
    reads h.Keys
  {
    forall o :: o in h ==> o.props == h[o]
  }

  /** In snapshot `h`, the value reads as the JSON `j`. */
  ghost predicate Shows(h: Snapshot, older v: Value, j: Json)
    decreases j
  {
    match v
    case Leaf(x) => x == j && !j.Obj?
    case Ref(o) =>
      && j.Obj? && o in h && h[o].Keys == j.fields.Keys
      && forall k :: k in j.fields ==> Shows(h, h[o][k], j.fields[k])
  }

  ghost predicate Holds(h: Snapshot, older o: JsObject, k: string, older c: JsObject) {
    o in h && k in h[o] && h[o][k] == Ref(c)
  }

  /** Tree shape: no object is held in two places. */
  ghost predicate OneParent(h: Snapshot) {
    forall o, k, o', k', c {:trigger Holds(h, o, k, c), Holds(h, o', k', c)} ::
      Holds(h, o, k, c) && Holds(h, o', k', c) ==> o == o' && k == k'
  }

  ghost predicate NoParent(h: Snapshot, c: JsObject) {
    forall o, k :: Holds(h, o, k, c) ==> false
  }

  /** The value is not held anywhere yet. */
  ghost predicate Loose(h: Snapshot, v: Value) {
    v.Ref? ==> NoParent(h, v.obj)
  }

  /** A value reads as one JSON only. */
  lemma {:induction false} ShowsOne(h: Snapshot, v: Value, i: Json, j: Json)
    requires Shows(h, v, i) && Shows(h, v, j)
    ensures i == j
    decreases i
  {
    if v.Ref? {
      forall k | k in i.fields ensures i.fields[k] == j.fields[k] {
        ShowsOne(h, h[v.obj][k], i.fields[k], j.fields[k]);
      }
      assert i.fields == j.fields;
    }
  }

  // --- Writes elsewhere ---

  ghost predicate AgreeOutside(h: Snapshot, t: Snapshot, written: set<JsObject>) {
    forall o :: o in h && o !in written ==> o in t && t[o] == h[o]
  }

  /** Objects outside the set hold none of its members. */
  ghost predicate ClosedOutside(h: Snapshot, written: set<JsObject>) {
    forall o, k, c :: Holds(h, o, k, c) && o !in written ==> c !in written
  }

  /** A value that does not reach the written objects reads as before. */
  lemma {:induction false} WritesElsewhere(h: Snapshot, t: Snapshot, written: set<JsObject>, v: Value, j: Json)
    requires Shows(h, v, j) && (v.Ref? ==> v.obj !in written)
    requires AgreeOutside(h, t, written) && ClosedOutside(h, written)
    ensures Shows(t, v, j)
    decreases j
  {
    if v.Ref? {
      var o := v.obj;
      forall k | k in j.fields ensures Shows(t, t[o][k], j.fields[k]) {
        if h[o][k].Ref? {
          assert Holds(h, o, k, h[o][k].obj);
        }
        WritesElsewhere(h, t, written, h[o][k], j.fields[k]);
      }
    }
  }

  // --- The trail of the cursor ---

  /** Object `o`, whose content was `was`, now holds `next` under `key` and is otherwise unchanged. */
  ghost predicate Passed(h: Snapshot, o: JsObject, was: Context, key: string, next: JsObject) {
    && Holds(h, o, key, next)
    && h[o].Keys == was.Keys + {key}
    && forall k :: k in was && k != key ==> Shows(h, h[o][k], was[k])
  }

  /** The cursor came from `trail[0]` along `keys`; `was` lists what stood there at the start. */
  ghost predicate Trail(h: Snapshot, trail: seq<JsObject>, was: seq<Context>, keys: seq<string>) {
    && |trail| == |was| == |keys| + 1
    && (forall i, j :: 0 <= i < j < |trail| ==> trail[i] != trail[j])
    && (forall i :: 0 <= i < |keys| ==> was[i + 1] == Below(was[i], keys[i]))
    && (forall i {:trigger keys[i]} :: 0 <= i < |keys| ==> Passed(h, trail[i], was[i], keys[i], trail[i + 1]))
    && Shows(h, Ref(trail[|keys|]), Obj(was[|keys|]))
  }

  function Members(trail: seq<JsObject>): set<JsObject> {
    set o | o in trail
  }

  /** In a tree whose root nobody holds, a trail is entered only at its root. */
  lemma TrailIsClosed(h: Snapshot, trail: seq<JsObject>, was: seq<Context>, keys: seq<string>, o: JsObject, k: string,
                      c: JsObject)
    requires Trail(h, trail, was, keys) && OneParent(h) && NoParent(h, trail[0])
    requires Holds(h, o, k, c) && c in trail
    ensures exists i :: 0 <= i < |keys| && o == trail[i] && k == keys[i] && c == trail[i + 1]
  {
    var m :| 0 <= m < |trail| && c == trail[m];
    assert m != 0;
    assert Passed(h, trail[m - 1], was[m - 1], keys[m - 1], trail[m]);
    assert Holds(h, trail[m - 1], keys[m - 1], c);
  }

  lemma OutsideTrail(h: Snapshot, trail: seq<JsObject>, was: seq<Context>, keys: seq<string>)
    requires Trail(h, trail, was, keys) && OneParent(h) && NoParent(h, trail[0])
    ensures ClosedOutside(h, Members(trail))
    ensures forall i, k, c :: 0 <= i < |keys| && k != keys[i] && Holds(h, trail[i], k, c) ==> c !in Members(trail)
  {
    forall o, k, c | Holds(h, o, k, c) && o !in Members(trail) ensures c !in Members(trail) {
      if c in trail {
        TrailIsClosed(h, trail, was, keys, o, k, c);
      }
    }
    forall i, k, c | 0 <= i < |keys| && k != keys[i] && Holds(h, trail[i], k, c) ensures c !in Members(trail) {
      if c in trail {
        TrailIsClosed(h, trail, was, keys, trail[i], k, c);
      }
    }
  }

  lemma LooseIsOutside(h: Snapshot, trail: seq<JsObject>, was: seq<Context>, keys: seq<string>, v: Value)
    requires Trail(h, trail, was, keys) && Loose(h, v) && v != Ref(trail[0])
    ensures v.Ref? ==> v.obj !in Members(trail)
  {
    forall m | 0 <= m < |trail| ensures v != Ref(trail[m]) {
      if m > 0 {
        assert Passed(h, trail[m - 1], was[m - 1], keys[m - 1], trail[m]);
        assert Holds(h, trail[m - 1], keys[m - 1], trail[m]);
      }
    }
  }

  /** A step of the cursor into an object that is there. */
  lemma StepDown(h: Snapshot, trail: seq<JsObject>, was: seq<Context>, keys: seq<string>, key: string, next: JsObject)
    requires Trail(h, trail, was, keys) && OneParent(h) && NoParent(h, trail[0])
    requires Holds(h, trail[|keys|], key, next)
    ensures Trail(h, trail + [next], was + [Below(was[|keys|], key)], keys + [key])
  {
    var n := |keys|;
    assert Shows(h, h[trail[n]][key], was[n][key]);
    if next in trail {
      TrailIsClosed(h, trail, was, keys, trail[n], key, next);
      assert false;
    }
    var ks := keys + [key];
    var tr := trail + [next];
    var ws := was + [Below(was[n], key)];
    forall i | 0 <= i < |ks| ensures Passed(h, tr[i], ws[i], ks[i], tr[i + 1]) {
      if i < n {
        assert Passed(h, trail[i], was[i], keys[i], trail[i + 1]);
      }
    }
  }

  /** A step of the cursor that first puts a new, empty object in place. */
  lemma StepFresh(h: Snapshot, trail: seq<JsObject>, was: seq<Context>, keys: seq<string>, key: string, next: JsObject)
    returns (t: Snapshot)
    requires Trail(h, trail, was, keys) && OneParent(h) && NoParent(h, trail[0])
    requires next !in h && NoParent(h, next) && next !in trail
    requires key in h[trail[|keys|]] ==> h[trail[|keys|]][key].Leaf?
    ensures t == h[next := map[]][trail[|keys|] := h[trail[|keys|]][key := Ref(next)]]
    ensures Trail(t, trail + [next], was + [Below(was[|keys|], key)], keys + [key])
    ensures OneParent(t) && NoParent(t, trail[0])
    ensures AgreeOutside(h, t, Members(trail)) && ClosedOutside(h, Members(trail))
    ensures forall o, k, c :: Holds(t, o, k, c) ==> Holds(h, o, k, c) || c == next
  {
    var n := |keys|;
    var cursor := trail[n];
    t := h[next := map[]][cursor := h[cursor][key := Ref(next)]];
    OutsideTrail(h, trail, was, keys);
    assert cursor in trail;
    forall o, k, c | Holds(t, o, k, c) ensures Holds(h, o, k, c) || (o == cursor && k == key && c == next) {}
    var ks := keys + [key];
    var tr := trail + [next];
    var below := Below(was[n], key);
    var ws := was + [below];
    assert key in was[n] ==> Shows(h, h[cursor][key], was[n][key]);
    assert below == map[];
    forall i | 0 <= i < |ks| ensures Passed(t, tr[i], ws[i], ks[i], tr[i + 1]) {
      if i < n {
        PassedStays(h, t, trail, was, keys, i);
      } else {
        forall k | k in was[n] && k != key ensures Shows(t, t[cursor][k], was[n][k]) {
          if h[cursor][k].Ref? {
            CursorChildIsOutside(h, trail, was, keys, k, h[cursor][k].obj);
          }
          WritesElsewhere(h, t, Members(trail), h[cursor][k], was[n][k]);
        }
      }
    }
  }

  lemma CursorChildIsOutside(h: Snapshot, trail: seq<JsObject>, was: seq<Context>, keys: seq<string>, k: string,
                             c: JsObject)
    requires Trail(h, trail, was, keys) && OneParent(h) && NoParent(h, trail[0])
    requires Holds(h, trail[|keys|], k, c)
    ensures c !in Members(trail)
  {
    if c in trail {
      TrailIsClosed(h, trail, was, keys, trail[|keys|], k, c);
    }
  }

  /** What the trail passed by does not notice a write to its last object. */
  lemma PassedStays(h: Snapshot, t: Snapshot, trail: seq<JsObject>, was: seq<Context>, keys: seq<string>, i: nat)
    requires Trail(h, trail, was, keys) && OneParent(h) && NoParent(h, trail[0]) && i < |keys|
    requires AgreeOutside(h, t, {trail[|keys|]})
    ensures Passed(t, trail[i], was[i], keys[i], trail[i + 1])
  {
    OutsideTrail(h, trail, was, keys);
    var o := trail[i];
    assert Passed(h, o, was[i], keys[i], trail[i + 1]);
    assert o in h && t[o] == h[o];
    assert trail[|keys|] in trail;
    forall k | k in was[i] && k != keys[i] ensures Shows(t, t[o][k], was[i][k]) {
      if h[o][k].Ref? {
        assert Holds(h, o, k, h[o][k].obj);
      }
      WritesElsewhere(h, t, Members(trail), h[o][k], was[i][k]);
    }
  }

  // --- The last write, and back up the trail ---

  lemma {:induction false} BackUp(t: Snapshot, trail: seq<JsObject>, was: seq<Context>, keys: seq<string>, last: string,
                                  j: Json, i: nat)
    requires |trail| == |was| == |keys| + 1 && i <= |keys|
    requires forall m :: 0 <= m < |keys| ==> was[m + 1] == Below(was[m], keys[m])
    requires forall m {:trigger keys[m]} :: 0 <= m < |keys| ==> Passed(t, trail[m], was[m], keys[m], trail[m + 1])
    requires Shows(t, Ref(trail[|keys|]), Obj(was[|keys|][last := j]))
    ensures Shows(t, Ref(trail[i]), Obj(SetAt(was[i], (keys + [last])[i..], j)))
    decreases |keys| - i
  {
    var path := (keys + [last])[i..];
    if i == |keys| {
      assert path == [last];
    } else {
      BackUp(t, trail, was, keys, last, j, i + 1);
      assert path[0] == keys[i] && path[1..] == (keys + [last])[i + 1..];
      assert Passed(t, trail[i], was[i], keys[i], trail[i + 1]);
      var o := trail[i];
      var now := SetAt(was[i], path, j);
      assert now == was[i][keys[i] := Obj(SetAt(was[i + 1], path[1..], j))];
      assert t[o].Keys == now.Keys;
      forall k | k in now ensures Shows(t, t[o][k], now[k]) {}
    }
  }

  lemma LastWrite(h: Snapshot, trail: seq<JsObject>, was: seq<Context>, keys: seq<string>, last: string, v: Value,
                  j: Json)
    returns (t: Snapshot)
    requires Trail(h, trail, was, keys) && OneParent(h) && NoParent(h, trail[0])
    requires Shows(h, v, j) && Loose(h, v) && v != Ref(trail[0])
    ensures t == h[trail[|keys|] := h[trail[|keys|]][last := v]]
    ensures Shows(t, Ref(trail[0]), Obj(SetAt(was[0], keys + [last], j)))
    ensures OneParent(t) && NoParent(t, trail[0])
    ensures forall o, k, c :: Holds(t, o, k, c) ==> Holds(h, o, k, c) || v == Ref(c)
  {
    var n := |keys|;
    var cursor := trail[n];
    assert cursor in trail && cursor in h;
    t := h[cursor := h[cursor][last := v]];
    OutsideTrail(h, trail, was, keys);
    LooseIsOutside(h, trail, was, keys, v);
    forall i | 0 <= i < n ensures Passed(t, trail[i], was[i], keys[i], trail[i + 1]) {
      PassedStays(h, t, trail, was, keys, i);
    }
    var now := was[n][last := j];
    forall k | k in now ensures Shows(t, t[cursor][k], now[k]) {
      if k == last {
        WritesElsewhere(h, t, Members(trail), v, j);
      } else {
        if h[cursor][k].Ref? {
          CursorChildIsOutside(h, trail, was, keys, k, h[cursor][k].obj);
        }
        WritesElsewhere(h, t, Members(trail), h[cursor][k], now[k]);
      }
    }
    assert t[cursor].Keys == now.Keys;
    BackUp(t, trail, was, keys, last, j, 0);
    assert (keys + [last])[0..] == keys + [last];
    forall o, k, c | Holds(t, o, k, c) ensures Holds(h, o, k, c) || (o == cursor && k == last && v == Ref(c)) {}
  }

  // --- The method ---

  /** Trees that hang nowhere, other than the one at `root`, read as before. */
  ghost predicate KeepsLoose(h: Snapshot, t: Snapshot, root: JsObject) {
    forall w, j {:trigger Shows(t, w, j)} :: Shows(h, w, j) && Loose(h, w) && w != Ref(root) ==> Shows(t, w, j)
  }

  /** Only the given value and new objects have come to be held. */
  ghost predicate HoldsOnly(h: Snapshot, t: Snapshot, v: Value) {
    forall o, k, c :: Holds(t, o, k, c) && c in h && Ref(c) != v ==> Holds(h, o, k, c)
  }

  /** Writing at the end of a trail, or extending it, leaves every loose tree alone. */
  lemma LooseTreesStay(h: Snapshot, t: Snapshot, trail: seq<JsObject>, was: seq<Context>, keys: seq<string>)
    requires Trail(h, trail, was, keys) && OneParent(h) && NoParent(h, trail[0])
    requires AgreeOutside(h, t, Members(trail))
    ensures KeepsLoose(h, t, trail[0])
  {
    OutsideTrail(h, trail, was, keys);
    forall w, j | Shows(h, w, j) && Loose(h, w) && w != Ref(trail[0]) ensures Shows(t, w, j) {
      LooseIsOutside(h, trail, was, keys, w);
      WritesElsewhere(h, t, Members(trail), w, j);
    }
  }

  lemma KeepsLooseBoth(h: Snapshot, t: Snapshot, u: Snapshot, root: JsObject, v: Value)
    requires KeepsLoose(h, t, root) && KeepsLoose(t, u, root) && HoldsOnly(h, t, v) && (v.Ref? ==> NoParent(t, v.obj))
    ensures KeepsLoose(h, u, root)
  {
    forall w, j | Shows(h, w, j) && Loose(h, w) && w != Ref(root) ensures Shows(u, w, j) {
      assert Shows(t, w, j);
      assert Loose(t, w);
    }
  }

  /** Where the loop stands: `t` has grown out of `h`, and the cursor has come along `keys`. */
  ghost predicate Walk(h: Snapshot, t: Snapshot, trail: seq<JsObject>, was: seq<Context>, keys: seq<string>, v: Value) {
    && Trail(t, trail, was, keys) && OneParent(t) && NoParent(t, trail[0])
    && Loose(t, v) && KeepsLoose(h, t, trail[0]) && HoldsOnly(h, t, v)
  }

  lemma WalkDown(h: Snapshot, t: Snapshot, trail: seq<JsObject>, was: seq<Context>, keys: seq<string>, v: Value,
                 key: string, next: JsObject)
    returns (trail': seq<JsObject>, was': seq<Context>, keys': seq<string>)
    requires Walk(h, t, trail, was, keys, v) && Holds(t, trail[|keys|], key, next)
    ensures Walk(h, t, trail', was', keys', v)
    ensures keys' == keys + [key] && trail' == trail + [next] && was'[0] == was[0]
  {
    StepDown(t, trail, was, keys, key, next);
    trail', was', keys' := trail + [next], was + [Below(was[|keys|], key)], keys + [key];
  }

  lemma WalkFresh(h: Snapshot, t: Snapshot, trail: seq<JsObject>, was: seq<Context>, keys: seq<string>, v: Value,
                  key: string, next: JsObject)
    returns (u: Snapshot, trail': seq<JsObject>, was': seq<Context>, keys': seq<string>)
    requires Walk(h, t, trail, was, keys, v) && h.Keys <= t.Keys
    requires next !in t && NoParent(t, next) && next !in trail && v != Ref(next)
    requires key in t[trail[|keys|]] ==> t[trail[|keys|]][key].Leaf?
    ensures u == t[next := map[]][trail[|keys|] := t[trail[|keys|]][key := Ref(next)]]
    ensures Walk(h, u, trail', was', keys', v)
    ensures keys' == keys + [key] && trail' == trail + [next] && was'[0] == was[0]
  {
    trail', was', keys' := trail + [next], was + [Below(was[|keys|], key)], keys + [key];
    u := StepFresh(t, trail, was, keys, key, next);
    LooseTreesStay(t, u, trail, was, keys);
    KeepsLooseBoth(h, t, u, trail[0], v);
  }

  lemma WalkEnd(h: Snapshot, t: Snapshot, trail: seq<JsObject>, was: seq<Context>, keys: seq<string>, v: Value, j: Json,
                last: string) returns (u: Snapshot)
    requires Walk(h, t, trail, was, keys, v) && Shows(h, v, j) && Loose(h, v) && v != Ref(trail[0])
    ensures u == t[trail[|keys|] := t[trail[|keys|]][last := v]]
    ensures Shows(u, Ref(trail[0]), Obj(SetAt(was[0], keys + [last], j)))
    ensures OneParent(u) && NoParent(u, trail[0]) && KeepsLoose(h, u, trail[0]) && HoldsOnly(h, u, v)
  {
    assert Shows(t, v, j);
    u := LastWrite(t, trail, was, keys, last, v, j);
    LooseTreesStay(t, u, trail, was, keys);
    KeepsLooseBoth(h, t, u, trail[0], v);
  }

  /** The loop body: puts a new object in place unless a plain object is there, then moves into it. */
  method StepInto(cursor: JsObject, key: string, value: Value, ghost h: Snapshot, ghost t: Snapshot,
                  ghost trail: seq<JsObject>, ghost was: seq<Context>, ghost keys: seq<string>)
    returns (next: JsObject, ghost t': Snapshot, ghost trail': seq<JsObject>, ghost was': seq<Context>,
             ghost keys': seq<string>)
    requires Faithful(t) && h.Keys <= t.Keys && Walk(h, t, trail, was, keys, value) && trail[|keys|] == cursor
    modifies cursor
    ensures Faithful(t') && t.Keys <= t'.Keys && fresh(t'.Keys - t.Keys)
    ensures Walk(h, t', trail', was', keys', value)
    ensures keys' == keys + [key] && trail' == trail + [next] && was'[0] == was[0]
  {
    if key !in cursor.props || cursor.props[key].Leaf? {
      next := new JsObject();
      t', trail', was', keys' := WalkFresh(h, t, trail, was, keys, value, key, next);
      cursor.props := cursor.props[key := Ref(next)];
      assert t'.Keys == t.Keys + {next};
    } else {
      next, t' := cursor.props[key].obj, t;
      trail', was', keys' := WalkDown(h, t, trail, was, keys, value, key, next);
    }
  }

  /** The assignment after the loop. */
  method WriteLast(cursor: JsObject, last: string, value: Value, ghost j: Json, ghost h: Snapshot, ghost t: Snapshot,
                   ghost trail: seq<JsObject>, ghost was: seq<Context>, ghost keys: seq<string>)
    returns (ghost t': Snapshot)
    requires Faithful(t) && h.Keys <= t.Keys && Walk(h, t, trail, was, keys, value) && trail[|keys|] == cursor
    requires Shows(h, value, j) && Loose(h, value) && value != Ref(trail[0])
    modifies cursor
    ensures Faithful(t') && t'.Keys == t.Keys
    ensures Shows(t', Ref(trail[0]), Obj(SetAt(was[0], keys + [last], j)))
    ensures OneParent(t') && NoParent(t', trail[0]) && KeepsLoose(h, t', trail[0]) && HoldsOnly(h, t', value)
  {
    t' := WalkEnd(h, t, trail, was, keys, value, j, last);
    cursor.props := cursor.props[last := value];
  }

  /** The last key of a path, as `parts[parts.length - 1]` reads. */
  function LastKey(parts: seq<string>): string {
    if parts == [] then "undefined" else parts[|parts| - 1]
  }

  lemma WholePath(before: Context, path: string, keys: seq<string>, j: Json)
    requires path != ""
    requires var parts := SplitPath(path);
             keys == if parts == [] then [] else parts[..|parts| - 1]
    ensures SetAt(before, keys + [LastKey(SplitPath(path))], j) == SetPath(before, path, j)
  {
    var parts := SplitPath(path);
    assert parts != [] ==> keys + [LastKey(parts)] == parts;
  }

  /** The loop: the cursor moves along all keys but the last. */
  method MoveCursor(context: JsObject, parts: seq<string>, value: Value, ghost h: Snapshot, ghost before: Context)
    returns (cursor: JsObject, ghost t: Snapshot, ghost trail: seq<JsObject>, ghost was: seq<Context>,
             ghost keys: seq<string>)
    requires Faithful(h) && Walk(h, h, [context], [before], [], value)
    modifies h.Keys
    ensures Faithful(t) && h.Keys <= t.Keys && fresh(t.Keys - h.Keys)
    ensures Walk(h, t, trail, was, keys, value) && trail[|keys|] == cursor
    ensures trail[0] == context && was[0] == before
    ensures keys == if parts == [] then [] else parts[..|parts| - 1]
  {
    cursor, t, trail, was, keys := context, h, [context], [before], [];
    var i := 0;
    while i < |parts| - 1
      invariant 0 <= i <= |parts| && (i == 0 || i < |parts|) && keys == parts[..i]
      invariant h.Keys <= t.Keys && fresh(t.Keys - h.Keys) && Faithful(t)
      invariant Walk(h, t, trail, was, keys, value)
      invariant trail[0] == context && was[0] == before && trail[i] == cursor
    {
      cursor, t, trail, was, keys := StepInto(cursor, parts[i], value, h, t, trail, was, keys);
      i := i + 1;
    }
  }

  /** `setPath`. `h` lists the objects of a tree-shaped context (and of the value) with what they hold;
      `t` lists them afterwards. The context then reads as the written tree and is a tree again; loose
      trees and objects outside `h` are as before. */
  method SetPathIn(context: JsObject, path: string, value: Value, ghost h: Snapshot, ghost before: Context,
                   ghost j: Json)
    returns (ghost t: Snapshot)
    requires Faithful(h) && OneParent(h) && NoParent(h, context)
    requires Shows(h, Ref(context), Obj(before))
    requires Shows(h, value, j) && Loose(h, value) && value != Ref(context)
    modifies h.Keys
    ensures h.Keys <= t.Keys && fresh(t.Keys - h.Keys)
    ensures Faithful(t) && OneParent(t) && NoParent(t, context)
    ensures Shows(t, Ref(context), Obj(SetPath(before, path, j)))
    ensures KeepsLoose(h, t, context) && HoldsOnly(h, t, value)
  {
    t := h;
    if path == "" {
      return;
    }
    var parts := SplitPath(path);
    var cursor;
    ghost var trail, was, keys;
    cursor, t, trail, was, keys := MoveCursor(context, parts, value, h, before);
    WholePath(before, path, keys, j);
    t := WriteLast(cursor, LastKey(parts), value, j, h, t, trail, was, keys);
  }

  // --- Output bindings ---

  /** No object-valued output is bound to two places. */
  ghost predicate Unshared(bindings: seq<Binding>, props: map<string, Value>) {
    forall a, b :: 0 <= a < b < |bindings| && bindings[a].name in props && props[bindings[a].name].Ref? ==>
                     bindings[a].name != bindings[b].name
  }

  /** Bound outputs are different objects. */
  ghost predicate Apart(bindings: seq<Binding>, props: map<string, Value>) {
    forall a, b {:trigger bindings[a], bindings[b]} ::
      0 <= a < b < |bindings| && bindings[a].name in props && bindings[b].name in props ==>
        props[bindings[a].name].Leaf? || props[bindings[a].name] != props[bindings[b].name]
  }

  lemma UnsharedApart(h: Snapshot, output: JsObject, bindings: seq<Binding>)
    requires OneParent(h) && output in h && Unshared(bindings, h[output])
    ensures Apart(bindings, h[output])
  {
    var props := h[output];
    forall a, b | 0 <= a < b < |bindings| && bindings[a].name in props && bindings[b].name in props
      ensures props[bindings[a].name].Leaf? || props[bindings[a].name] != props[bindings[b].name]
    {
      var x, y := bindings[a].name, bindings[b].name;
      assert props[x].Ref? ==> Holds(h, output, x, props[x].obj);
      assert props[y].Ref? ==> Holds(h, output, y, props[y].obj);
    }
  }

  /** The value can be put under `next`: it reads as `j` and hangs nowhere. */
  ghost predicate Ready(t: Snapshot, next: JsObject, v: Value, j: Json) {
    Shows(t, v, j) && Loose(t, v) && v != Ref(next)
  }

  /** Every output from binding `i` on is ready. */
  ghost predicate RestReady(t: Snapshot, next: JsObject, bindings: seq<Binding>, i: nat, props: map<string, Value>,
                            out: Context)
    requires props.Keys == out.Keys
  {
    forall m {:trigger bindings[m]} :: i <= m < |bindings| && bindings[m].name in out ==>
      Ready(t, next, props[bindings[m].name], out[bindings[m].name])
  }

  /** `{ ...context }`: the copy takes over the children, the outputs come loose from their carrier. */
  lemma CopyTakesOver(h: Snapshot, context: JsObject, output: JsObject, next: JsObject, before: Context, out: Context)
    returns (t: Snapshot)
    requires OneParent(h) && NoParent(h, context) && NoParent(h, output) && context != output
    requires next !in h && NoParent(h, next)
    requires Shows(h, Ref(context), Obj(before)) && Shows(h, Ref(output), Obj(out))
    ensures t == (h - {context, output})[next := h[context]]
    ensures OneParent(t) && NoParent(t, next) && Shows(t, Ref(next), Obj(before))
    ensures forall k :: k in out ==> Ready(t, next, h[output][k], out[k])
  {
    t := (h - {context, output})[next := h[context]];
    var gone := {context, output};
    forall o: JsObject, k, c | Holds(t, o, k, c)
      ensures Holds(h, if o == next then context else o, k, c) && o != output
    {}
    assert ClosedOutside(h, gone) && AgreeOutside(h, t, gone);
    forall k | k in before ensures Shows(t, t[next][k], before[k]) {
      assert h[context][k].Ref? ==> Holds(h, context, k, h[context][k].obj);
      WritesElsewhere(h, t, gone, h[context][k], before[k]);
    }
    forall k | k in out ensures Ready(t, next, h[output][k], out[k]) {
      assert h[output][k].Ref? ==> Holds(h, output, k, h[output][k].obj);
      WritesElsewhere(h, t, gone, h[output][k], out[k]);
    }
  }

  lemma OthersStayReady(t: Snapshot, u: Snapshot, next: JsObject, bindings: seq<Binding>, i: nat,
                        props: map<string, Value>, out: Context)
    requires props.Keys == out.Keys && Apart(bindings, props) && i < |bindings| && bindings[i].name in out
    requires RestReady(t, next, bindings, i, props, out)
    requires KeepsLoose(t, u, next) && HoldsOnly(t, u, props[bindings[i].name])
    ensures RestReady(u, next, bindings, i + 1, props, out)
  {
    forall m | i + 1 <= m < |bindings| && bindings[m].name in out
      ensures Ready(u, next, props[bindings[m].name], out[bindings[m].name])
    {
      var v, j := props[bindings[m].name], out[bindings[m].name];
      assert Ready(t, next, v, j);
      assert Shows(u, v, j);
      assert v.Ref? ==> v.obj in t && v != props[bindings[i].name];
    }
  }

  /** Before binding `i`: the copy reads as `now`, from which the remaining bindings lead to the end. */
  ghost predicate Binds(t: Snapshot, next: JsObject, bindings: seq<Binding>, i: nat, props: map<string, Value>,
                        out: Context, now: Context, end: Context)
    requires props.Keys == out.Keys && i <= |bindings|
  {
    && OneParent(t) && NoParent(t, next) && Shows(t, Ref(next), Obj(now))
    && RestReady(t, next, bindings, i, props, out)
    && BindAll(now, bindings[i..], out) == end
  }

  lemma BindsOne(t: Snapshot, u: Snapshot, next: JsObject, bindings: seq<Binding>, i: nat, props: map<string, Value>,
                 out: Context, now: Context, end: Context) returns (later: Context)
    requires props.Keys == out.Keys && Apart(bindings, props) && i < |bindings|
    requires Binds(t, next, bindings, i, props, out, now, end)
    requires var b := bindings[i];
             if b.name in out then
               && OneParent(u) && NoParent(u, next)
               && Shows(u, Ref(next), Obj(SetPath(now, b.contextPath, out[b.name])))
               && KeepsLoose(t, u, next) && HoldsOnly(t, u, props[b.name])
             else u == t
    ensures Binds(u, next, bindings, i + 1, props, out, later, end)
  {
    var b := bindings[i];
    assert bindings[i..][0] == b && bindings[i..][1..] == bindings[i + 1..];
    later := if b.name in out then SetPath(now, b.contextPath, out[b.name]) else now;
    if b.name in out {
      OthersStayReady(t, u, next, bindings, i, props, out);
    }
  }

  /** `{ ...context }` */
  method ShallowCopy(context: JsObject, bindings: seq<Binding>, output: JsObject, ghost h: Snapshot,
                     ghost before: Context, ghost out: Context)
    returns (next: JsObject, ghost t: Snapshot)
    requires Faithful(h) && OneParent(h) && NoParent(h, context) && NoParent(h, output) && context != output
    requires Shows(h, Ref(context), Obj(before)) && Shows(h, Ref(output), Obj(out))
    ensures Faithful(t) && fresh(next) && t.Keys == h.Keys - {context, output} + {next}
    ensures Binds(t, next, bindings, 0, h[output], out, before, BindAll(before, bindings, out))
  {
    next := new JsObject();
    next.props := context.props;
    t := CopyTakesOver(h, context, output, next, before, out);
    assert bindings[0..] == bindings;
  }

  /** `applyOutputBindings` with bindings: the loop over them writes into a shallow copy, whose top
      level alone is new. The object passed in keeps its own properties. */
  method BindOutputs(context: JsObject, bindings: seq<Binding>, output: JsObject, ghost h: Snapshot,
                     ghost before: Context, ghost out: Context)
    returns (next: JsObject, ghost t: Snapshot)
    requires Faithful(h) && OneParent(h) && NoParent(h, context) && NoParent(h, output) && context != output
    requires Shows(h, Ref(context), Obj(before)) && Shows(h, Ref(output), Obj(out))
    requires Unshared(bindings, h[output])
    modifies h.Keys - {context, output}
    ensures Faithful(t) && OneParent(t) && NoParent(t, next) && fresh(next)
    ensures Shows(t, Ref(next), Obj(BindAll(before, bindings, out)))
  {
    ghost var props, now, end := h[output], before, BindAll(before, bindings, out);
    next, t := ShallowCopy(context, bindings, output, h, before, out);
    UnsharedApart(h, output, bindings);
    var i := 0;
    while i < |bindings|
      invariant 0 <= i <= |bindings| && output.props == props
      invariant Faithful(t) && fresh(t.Keys - h.Keys) && context !in t && output !in t
      invariant Binds(t, next, bindings, i, props, out, now, end)
    {
      var b := bindings[i];
      ghost var u := t;
      if b.name in output.props {
        assert Ready(t, next, props[b.name], out[b.name]);
        u := SetPathIn(next, b.contextPath, output.props[b.name], t, now, out[b.name]);
      }
      now := BindsOne(t, u, next, bindings, i, props, out, now, end);
      t := u;
      i := i + 1;
    }
    assert bindings[i..] == [];
  }
}
