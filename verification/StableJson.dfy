/** The canonical printer: JSON text with the keys of every object in order. */
module StableJson {
  // Escapes are as in section 7 of RFC 8259, in the form JSON.stringify writes them
  // (server/agentRuntime.ts:474-483).

  import opened Prelude
  import opened CodeUnits

  /** A JavaScript value as the printer tells it apart. `Num` carries the decimal text of a finite
      number; what cannot be printed is written null. */
  datatype Value =
    | Null
    | Undefined
    | NonFinite
    | Bool(b: bool)
    | Num(literal: Text)
    | Str(s: Text)
    | Arr(items: seq<Value>)
    | Obj(fields: seq<Field>)

  /** Own properties in insertion order. */
  datatype Field = Field(key: Text, value: Value)

  const NULL: Text := [0x6e, 0x75, 0x6c, 0x6c]
  const TRUE: Text := [0x74, 0x72, 0x75, 0x65]
  const FALSE: Text := [0x66, 0x61, 0x6c, 0x73, 0x65]

  // --- Strings ---

  predicate IsHigh(c: CodeUnit) {
    0xd800 <= c < 0xdc00
  }

  predicate IsLow(c: CodeUnit) {
    0xdc00 <= c < 0xe000
  }

  function HexUnit(d: int): CodeUnit
    requires 0 <= d < 16
  {
    if d < 10 then 0x30 + d else 0x57 + d
  }

  /** The letter behind a short escape, if the unit has one. */
  function ShortEscape(c: CodeUnit): Option<CodeUnit> {
    if c == QUOTE || c == BACKSLASH then Some(c)
    else if c == 8 then Some(0x62)
    else if c == 9 then Some(0x74)
    else if c == 10 then Some(0x6e)
    else if c == 12 then Some(0x66)
    else if c == 13 then Some(0x72)
    else None
  }

  function EscapeUnit(c: CodeUnit): Text {
    if ShortEscape(c).Some? then [BACKSLASH, ShortEscape(c).value]
    else if c < 0x20 || IsHigh(c) || IsLow(c) then
      [BACKSLASH, 0x75, HexUnit(c / 0x1000), HexUnit(c / 0x100 % 16), HexUnit(c / 0x10 % 16), HexUnit(c % 16)]
    else [c]
  }

  predicate StartsPair(s: Text) {
    |s| >= 2 && IsHigh(s[0]) && IsLow(s[1])
  }

  /** Surrogate pairs stay as they are, lone surrogates are escaped. */
  function Escape(s: Text): Text {
    if s == [] then []
    else if StartsPair(s) then [s[0], s[1]] + Escape(s[2..])
    else EscapeUnit(s[0]) + Escape(s[1..])
  }

  /** `JSON.stringify` of a string. */
  function Quote(s: Text): Text {
    [QUOTE] + Escape(s) + [QUOTE]
  }

  // --- Objects ---

  /** The order of JavaScript's `sort` on strings. */
  predicate Less(a: Text, b: Text) {
    if b == [] then false
    else if a == [] then true
    else if a[0] != b[0] then a[0] < b[0]
    else Less(a[1..], b[1..])
  }

  function Insert(f: Field, fs: seq<Field>): (r: seq<Field>)
    ensures |r| == |fs| + 1
    ensures forall g :: g in r <==> g == f || g in fs
  {
    if fs == [] then [f]
    else if Less(f.key, fs[0].key) then [f] + fs
    else
      assert fs == [fs[0]] + fs[1..];
      [fs[0]] + Insert(f, fs[1..])
  }

  function Sorted(fs: seq<Field>): (r: seq<Field>)
    ensures |r| == |fs|
    ensures forall g :: g in r <==> g in fs
  {
    if fs == [] then []
    else
      assert fs == fs[..|fs| - 1] + [fs[|fs| - 1]];
      Insert(fs[|fs| - 1], Sorted(fs[..|fs| - 1]))
  }

  function Join(parts: seq<Text>): Text {
    if parts == [] then []
    else if |parts| == 1 then parts[0]
    else parts[0] + [COMMA] + Join(parts[1..])
  }

  /** `stableStringify` */
  function Stable(v: Value): Text {
    match v
    case Null => NULL
    case Undefined => NULL
    case NonFinite => NULL
    case Bool(b) => if b then TRUE else FALSE
    case Num(literal) => literal
    case Str(s) => Quote(s)
    case Arr(items) =>
      [OPEN_BRACKET] + Join(seq(|items|, i requires 0 <= i < |items| => Stable(items[i]))) + [CLOSE_BRACKET]
    case Obj(fields) =>
      var fs := Sorted(fields);
      [OPEN_BRACE]
      + Join(seq(|fs|, i requires 0 <= i < |fs| =>
          assert fs[i] in fields;
          Quote(fs[i].key) + [COLON] + Stable(fs[i].value)))
      + [CLOSE_BRACE]
  }

  // --- Well-formed values, and when two of them are the same ---

  predicate IsDigit(c: CodeUnit) {
    0x30 <= c <= 0x39
  }

  /** Digits, sign, point and exponent letters. */
  predicate IsNumberUnit(c: CodeUnit) {
    IsDigit(c) || c == 0x2d || c == 0x2b || c == 0x2e || c == 0x65 || c == 0x45
  }

  /** The shape all number texts share. */
  predicate IsNumber(t: Text) {
    t != [] && (IsDigit(t[0]) || t[0] == 0x2d) && forall c :: c in t ==> IsNumberUnit(c)
  }

  predicate UniqueKeys(fs: seq<Field>) {
    forall i, j :: 0 <= i < j < |fs| ==> fs[i].key != fs[j].key
  }

  predicate WellFormed(v: Value) {
    match v
    case Num(literal) => IsNumber(literal)
    case Arr(items) => forall i :: 0 <= i < |items| ==> WellFormed(items[i])
    case Obj(fields) => UniqueKeys(fields) && forall i :: 0 <= i < |fields| ==> WellFormed(fields[i].value)
    case _ => true
  }

  predicate Nullish(v: Value) {
    v.Null? || v.Undefined? || v.NonFinite?
  }

  function Keys(fs: seq<Field>): set<Text> {
    set f | f in fs :: f.key
  }

  /** Equal up to the order of object keys, with everything unprintable equal to null. */
  ghost predicate Equiv(v: Value, w: Value)
    decreases v
  {
    match v
    case Arr(items) =>
      w.Arr? && |w.items| == |items| && forall i :: 0 <= i < |items| ==> Equiv(items[i], w.items[i])
    case Obj(fields) =>
      && w.Obj? && Keys(fields) == Keys(w.fields)
      && forall i, j :: 0 <= i < |fields| && 0 <= j < |w.fields| && fields[i].key == w.fields[j].key ==>
           Equiv(fields[i].value, w.fields[j].value)
    case _ => v == w || (Nullish(v) && Nullish(w))
  }

  // --- The order of keys ---

  lemma {:induction false} LessIsStrict(a: Text, b: Text)
    ensures !(Less(a, b) && Less(b, a)) && !Less(a, a)
    ensures a == b || Less(a, b) || Less(b, a)
    decreases |a|
  {
    if a != [] {
      LessIsStrict(a[1..], if b == [] then [] else b[1..]);
      assert a == [a[0]] + a[1..] && (b != [] ==> b == [b[0]] + b[1..]);
    }
  }

  lemma {:induction false} LessIsTransitive(a: Text, b: Text, c: Text)
    requires Less(a, b) && Less(b, c)
    ensures Less(a, c)
    decreases |a|
  {
    if a != [] && a[0] == b[0] == c[0] {
      LessIsTransitive(a[1..], b[1..], c[1..]);
    }
  }

  predicate Ascending(fs: seq<Field>) {
    forall i, j :: 0 <= i < j < |fs| ==> Less(fs[i].key, fs[j].key)
  }

  lemma {:induction false} InsertAscends(f: Field, fs: seq<Field>)
    requires Ascending(fs) && forall i :: 0 <= i < |fs| ==> fs[i].key != f.key
    ensures Ascending(Insert(f, fs))
  {
    if fs != [] {
      var r := Insert(f, fs);
      LessIsStrict(f.key, fs[0].key);
      if Less(f.key, fs[0].key) {
        forall j | 0 < j < |r| ensures Less(r[0].key, r[j].key) {
          if j > 1 {
            LessIsTransitive(f.key, fs[0].key, fs[j - 1].key);
          }
        }
      } else {
        InsertAscends(f, fs[1..]);
        var tail := Insert(f, fs[1..]);
        forall j | 0 < j < |r| ensures Less(r[0].key, r[j].key) {
          assert r[j] == tail[j - 1] && tail[j - 1] in tail;
          if tail[j - 1] != f {
            var k :| 0 <= k < |fs[1..]| && fs[1..][k] == tail[j - 1];
            assert fs[k + 1] == tail[j - 1];
          }
        }
        forall i, j | 0 < i < j < |r| ensures Less(r[i].key, r[j].key) {
          assert r[i] == tail[i - 1] && r[j] == tail[j - 1];
        }
      }
    }
  }

  lemma {:induction false} SortedAscends(fs: seq<Field>)
    requires UniqueKeys(fs)
    ensures Ascending(Sorted(fs))
  {
    if fs != [] {
      var n := |fs| - 1;
      SortedAscends(fs[..n]);
      var s := Sorted(fs[..n]);
      forall i | 0 <= i < |s| ensures s[i].key != fs[n].key {
        assert s[i] in s;
        var k :| 0 <= k < n && fs[..n][k] == s[i];
        assert fs[k] == s[i];
      }
      InsertAscends(fs[n], s);
    }
  }

  lemma KeysOfTail(fs: seq<Field>)
    requires Ascending(fs) && fs != []
    ensures Keys(fs[1..]) == Keys(fs) - {fs[0].key}
  {
    forall f | f in fs[1..] ensures f in fs && f.key != fs[0].key {
      var k :| 0 <= k < |fs[1..]| && fs[1..][k] == f;
      assert fs[k + 1] == f;
      LessIsStrict(fs[0].key, fs[k + 1].key);
    }
    forall key | key in Keys(fs) && key != fs[0].key ensures key in Keys(fs[1..]) {
      var f :| f in fs && f.key == key;
      var k :| 0 <= k < |fs| && fs[k] == f;
      assert fs[1..][k - 1] == f;
    }
  }

  lemma FirstIsLeast(fs: seq<Field>, key: Text)
    requires Ascending(fs) && key in Keys(fs)
    ensures key == fs[0].key || Less(fs[0].key, key)
  {
    var f :| f in fs && f.key == key;
    var k :| 0 <= k < |fs| && fs[k] == f;
  }

  /** Ascending fields with the same keys have them in the same places. */
  lemma {:induction false} SameKeysSamePlaces(fs: seq<Field>, gs: seq<Field>)
    requires Ascending(fs) && Ascending(gs) && Keys(fs) == Keys(gs)
    ensures |fs| == |gs| && forall i :: 0 <= i < |fs| ==> fs[i].key == gs[i].key
  {
    assert fs != [] ==> fs[0] in fs && fs[0].key in Keys(fs);
    assert gs != [] ==> gs[0] in gs && gs[0].key in Keys(gs);
    if fs != [] {
      if gs != [] {
        FirstIsLeast(fs, gs[0].key);
        FirstIsLeast(gs, fs[0].key);
        LessIsStrict(fs[0].key, gs[0].key);
        KeysOfTail(fs);
        KeysOfTail(gs);
        SameKeysSamePlaces(fs[1..], gs[1..]);
      }
    }
  }

  lemma SortedKeys(fs: seq<Field>)
    ensures Keys(Sorted(fs)) == Keys(fs)
  {}

  // --- Reading a string back ---

  function HexValue(c: CodeUnit): int {
    if c < 0x3a then c - 0x30 else c - 0x57
  }

  function FromHex(x: Text): CodeUnit
    requires |x| >= 4
  {
    (HexValue(x[0]) * 0x1000 + HexValue(x[1]) * 0x100 + HexValue(x[2]) * 0x10 + HexValue(x[3])) % 0x1_0000
  }

  function ShortMeaning(c: CodeUnit): CodeUnit {
    if c == 0x62 then 8 else if c == 0x74 then 9 else if c == 0x6e then 10
    else if c == 0x66 then 12 else if c == 0x72 then 13 else c
  }

  /** Reads string text up to its closing quote; gives the string and what follows the quote. */
  function Unquote(x: Text): Option<(Text, Text)> {
    if x == [] then None
    else if x[0] == QUOTE then Some(([], x[1..]))
    else if x[0] != BACKSLASH then
      var r := Unquote(x[1..]);
      if r.None? then None else Some(([x[0]] + r.value.0, r.value.1))
    else if |x| < 2 then None
    else if x[1] != 0x75 then
      var r := Unquote(x[2..]);
      if r.None? then None else Some(([ShortMeaning(x[1])] + r.value.0, r.value.1))
    else if |x| < 6 then None
    else
      var r := Unquote(x[6..]);
      if r.None? then None else Some(([FromHex(x[2..])] + r.value.0, r.value.1))
  }

  lemma HexDigitBack(d: int)
    requires 0 <= d < 16
    ensures HexValue(HexUnit(d)) == d
  {}

  lemma FourDigits(c: CodeUnit)
    ensures c / 0x1000 * 0x1000 + c / 0x100 % 16 * 0x100 + c / 0x10 % 16 * 0x10 + c % 16 == c
  {
    var q1 := c / 16;
    var q2 := q1 / 16;
    assert c / 0x100 == q2;
    assert c / 0x1000 == q2 / 16;
  }

  lemma HexDigitsBack(c: CodeUnit)
    ensures FromHex([HexUnit(c / 0x1000), HexUnit(c / 0x100 % 16), HexUnit(c / 0x10 % 16), HexUnit(c % 16)]) == c
  {
    HexDigitBack(c / 0x1000);
    HexDigitBack(c / 0x100 % 16);
    HexDigitBack(c / 0x10 % 16);
    HexDigitBack(c % 16);
    FourDigits(c);
  }

  /** One escaped unit reads back as itself. */
  lemma UnitBack(c: CodeUnit, x: Text)
    requires Unquote(x).Some?
    ensures Unquote(EscapeUnit(c) + x) == Some(([c] + Unquote(x).value.0, Unquote(x).value.1))
  {
    var e := EscapeUnit(c);
    var t := e + x;
    if ShortEscape(c).Some? {
      assert t[2..] == x;
    } else if c < 0x20 || IsHigh(c) || IsLow(c) {
      assert t[6..] == x;
      assert t[2..][..4] == e[2..];
      HexDigitsBack(c);
      assert FromHex(t[2..]) == FromHex(e[2..]);
    } else {
      assert t[1..] == x;
    }
  }

  lemma PlainBack(c: CodeUnit, x: Text)
    requires c != QUOTE && c != BACKSLASH && Unquote(x).Some?
    ensures Unquote([c] + x) == Some(([c] + Unquote(x).value.0, Unquote(x).value.1))
  {
    assert ([c] + x)[1..] == x;
  }

  lemma PairBack(a: CodeUnit, b: CodeUnit, x: Text)
    requires IsHigh(a) && IsLow(b) && Unquote(x).Some?
    ensures Unquote([a, b] + x) == Some(([a, b] + Unquote(x).value.0, Unquote(x).value.1))
  {
    PlainBack(b, x);
    PlainBack(a, [b] + x);
    assert [a] + ([b] + x) == [a, b] + x;
    assert [a] + ([b] + Unquote(x).value.0) == [a, b] + Unquote(x).value.0;
  }

  lemma EscapeStep(s: Text, rest: Text)
    requires s != []
    ensures var n := if StartsPair(s) then 2 else 1;
            var e := if StartsPair(s) then s[..2] else EscapeUnit(s[0]);
            Escape(s) + [QUOTE] + rest == e + (Escape(s[n..]) + [QUOTE] + rest)
  {
    if StartsPair(s) {
      assert s[..2] == [s[0], s[1]];
    }
  }

  lemma {:induction false} QuoteRoundTrip(s: Text, rest: Text)
    ensures Unquote(Escape(s) + [QUOTE] + rest) == Some((s, rest))
    decreases |s|
  {
    if s == [] {
      assert (Escape(s) + [QUOTE] + rest)[1..] == rest;
    } else {
      EscapeStep(s, rest);
      if StartsPair(s) {
        QuoteRoundTrip(s[2..], rest);
        PairBack(s[0], s[1], Escape(s[2..]) + [QUOTE] + rest);
        assert s[..2] == [s[0], s[1]] && s == s[..2] + s[2..];
      } else {
        QuoteRoundTrip(s[1..], rest);
        UnitBack(s[0], Escape(s[1..]) + [QUOTE] + rest);
        assert s == [s[0]] + s[1..];
      }
    }
  }

  lemma QuoteBody(s: Text, r: Text)
    ensures (Quote(s) + r)[1..] == Escape(s) + [QUOTE] + r
  {}

  /** Quoted strings delimit themselves. */
  lemma QuotesApart(s: Text, r: Text, t: Text, q: Text)
    requires Quote(s) + r == Quote(t) + q
    ensures s == t && r == q
  {
    QuoteRoundTrip(s, r);
    QuoteRoundTrip(t, q);
    QuoteBody(s, r);
    QuoteBody(t, q);
  }

  // --- The parts of arrays and objects ---

  function ItemParts(items: seq<Value>): seq<Text> {
    seq(|items|, i requires 0 <= i < |items| => Stable(items[i]))
  }

  function FieldPart(f: Field): Text {
    Quote(f.key) + [COLON] + Stable(f.value)
  }

  function FieldParts(fs: seq<Field>): seq<Text> {
    seq(|fs|, i requires 0 <= i < |fs| => FieldPart(fs[i]))
  }

  lemma StableArr(items: seq<Value>)
    ensures Stable(Arr(items)) == [OPEN_BRACKET] + Join(ItemParts(items)) + [CLOSE_BRACKET]
  {
    assert ItemParts(items) == seq(|items|, i requires 0 <= i < |items| => Stable(items[i]));
  }

  lemma StableObj(fields: seq<Field>)
    ensures Stable(Obj(fields)) == [OPEN_BRACE] + Join(FieldParts(Sorted(fields))) + [CLOSE_BRACE]
  {
    var fs := Sorted(fields);
    assert FieldParts(fs) == seq(|fs|, i requires 0 <= i < |fs| => Quote(fs[i].key) + [COLON] + Stable(fs[i].value));
  }

  // --- Canonical: equal values print alike ---

  /** The fields of two equivalent objects, put in order, pair up. */
  lemma OrderedPairUp(v: Value, w: Value)
    requires v.Obj? && w.Obj? && WellFormed(v) && WellFormed(w) && Equiv(v, w)
    ensures var fs, gs := Sorted(v.fields), Sorted(w.fields);
            |fs| == |gs| && forall i :: 0 <= i < |fs| ==>
              fs[i].key == gs[i].key && Equiv(fs[i].value, gs[i].value)
              && WellFormed(fs[i].value) && WellFormed(gs[i].value)
  {
    var fs, gs := Sorted(v.fields), Sorted(w.fields);
    SortedAscends(v.fields);
    SortedAscends(w.fields);
    SortedKeys(v.fields);
    SortedKeys(w.fields);
    SameKeysSamePlaces(fs, gs);
    forall i | 0 <= i < |fs|
      ensures Equiv(fs[i].value, gs[i].value) && WellFormed(fs[i].value) && WellFormed(gs[i].value)
    {
      assert fs[i] in v.fields && gs[i] in w.fields;
      var a :| 0 <= a < |v.fields| && v.fields[a] == fs[i];
      var b :| 0 <= b < |w.fields| && w.fields[b] == gs[i];
    }
  }

  lemma {:induction false} EquivPrintsAlike(v: Value, w: Value)
    requires WellFormed(v) && WellFormed(w) && Equiv(v, w)
    ensures Stable(v) == Stable(w)
    decreases v
  {
    match v {
      case Arr(items) =>
        forall i | 0 <= i < |items| ensures Stable(items[i]) == Stable(w.items[i]) {
          EquivPrintsAlike(items[i], w.items[i]);
        }
        StableArr(items);
        StableArr(w.items);
        assert ItemParts(items) == ItemParts(w.items);
      case Obj(fields) =>
        var fs, gs := Sorted(fields), Sorted(w.fields);
        OrderedPairUp(v, w);
        forall i | 0 <= i < |fs| ensures Stable(fs[i].value) == Stable(gs[i].value) {
          assert fs[i] in fields;
          EquivPrintsAlike(fs[i].value, gs[i].value);
        }
        StableObj(fields);
        StableObj(w.fields);
        assert FieldParts(fs) == FieldParts(gs);
      case _ =>
    }
  }

  // --- Injective: values that print alike are equal ---

  /** Nothing that may follow a printed value inside a larger one continues it. */
  predicate Stops(r: Text) {
    r == [] || r[0] == COMMA || r[0] == CLOSE_BRACKET || r[0] == CLOSE_BRACE
  }

  /** A printed value opens with a unit that tells its kind. */
  lemma FirstUnit(v: Value)
    requires WellFormed(v)
    ensures Stable(v) != [] && !Stops(Stable(v))
    ensures var c := Stable(v)[0];
            && (c == 0x6e <==> Nullish(v)) && (c == 0x74 <==> v == Bool(true)) && (c == 0x66 <==> v == Bool(false))
            && (c == QUOTE <==> v.Str?) && (c == OPEN_BRACKET <==> v.Arr?) && (c == OPEN_BRACE <==> v.Obj?)
            && (IsDigit(c) || c == 0x2d <==> v.Num?)
  {}

  /** The number units at the start of `a + r` are those of `a`. */
  lemma NumberEnds(a: Text, r: Text, t: Text)
    requires IsNumber(a) && Stops(r) && t == a + r
    ensures forall i :: 0 <= i < |a| ==> IsNumberUnit(t[i])
    ensures |a| < |t| ==> !IsNumberUnit(t[|a|])
    ensures a == t[..|a|] && r == t[|a|..]
  {
    forall i | 0 <= i < |a| ensures IsNumberUnit(t[i]) {
      assert a[i] in a;
    }
  }

  lemma NumbersApart(a: Text, r: Text, b: Text, s: Text)
    requires IsNumber(a) && IsNumber(b) && Stops(r) && Stops(s) && a + r == b + s
    ensures a == b && r == s
  {
    NumberEnds(a, r, a + r);
    NumberEnds(b, s, a + r);
  }

  /** Parts `i` and on, with their commas, the closing unit and what follows. */
  function Tail(parts: seq<Text>, i: nat, close: CodeUnit, r: Text): Text
    requires i <= |parts|
    decreases |parts| - i
  {
    if i == |parts| then [close] + r
    else (if i > 0 then [COMMA] else []) + parts[i] + Tail(parts, i + 1, close, r)
  }

  lemma {:induction false} JoinTailFrom(parts: seq<Text>, i: nat, close: CodeUnit, r: Text)
    requires i < |parts|
    ensures (if i > 0 then [COMMA] else []) + Join(parts[i..]) + [close] + r == Tail(parts, i, close, r)
    decreases |parts| - i
  {
    var comma: Text := if i > 0 then [COMMA] else [];
    if i + 1 < |parts| {
      JoinTailFrom(parts, i + 1, close, r);
      assert parts[i..][1..] == parts[i + 1..];
      assert Join(parts[i..]) == parts[i] + [COMMA] + Join(parts[i + 1..]);
      assert comma + (parts[i] + [COMMA] + Join(parts[i + 1..])) + [close] + r
             == comma + parts[i] + ([COMMA] + Join(parts[i + 1..]) + [close] + r);
    } else {
      assert Join(parts[i..]) == parts[i];
      assert comma + parts[i] + [close] + r == comma + parts[i] + ([close] + r);
    }
  }

  lemma JoinTail(open: CodeUnit, parts: seq<Text>, close: CodeUnit, r: Text)
    ensures ([open] + Join(parts) + [close]) + r == [open] + Tail(parts, 0, close, r)
  {
    if parts == [] {
      assert [open] + Join(parts) + [close] + r == [open] + ([close] + r);
    } else {
      JoinTailFrom(parts, 0, close, r);
      assert parts[0..] == parts;
      var none: Text := [];
      assert none + Join(parts) + [close] + r == Join(parts) + [close] + r;
      assert [open] + Join(parts) + [close] + r == [open] + (Join(parts) + [close] + r);
    }
  }

  predicate IsClose(c: CodeUnit) {
    c == CLOSE_BRACKET || c == CLOSE_BRACE
  }

  lemma TailStops(parts: seq<Text>, i: nat, close: CodeUnit, r: Text)
    requires 0 < i <= |parts| && IsClose(close)
    ensures Stops(Tail(parts, i, close, r)) && Tail(parts, i, close, r) != []
    ensures Tail(parts, i, close, r)[0] == if i == |parts| then close else COMMA
  {}

  lemma {:induction false} PrintsApart(v: Value, r: Text, w: Value, s: Text)
    requires WellFormed(v) && WellFormed(w) && Stops(r) && Stops(s) && Stable(v) + r == Stable(w) + s
    ensures Equiv(v, w) && r == s
    decreases v, 1, 0
  {
    FirstUnit(v);
    FirstUnit(w);
    assert (Stable(v) + r)[0] == Stable(v)[0] && (Stable(w) + s)[0] == Stable(w)[0];
    match v {
      case Num(literal) => NumbersApart(literal, r, w.literal, s);
      case Str(text) => QuotesApart(text, r, w.s, s);
      case Arr(items) =>
        StableArr(items);
        StableArr(w.items);
        JoinTail(OPEN_BRACKET, ItemParts(items), CLOSE_BRACKET, r);
        JoinTail(OPEN_BRACKET, ItemParts(w.items), CLOSE_BRACKET, s);
        SameRest(OPEN_BRACKET, Tail(ItemParts(items), 0, CLOSE_BRACKET, r),
                 Tail(ItemParts(w.items), 0, CLOSE_BRACKET, s));
        ItemsApart(v, w, 0, r, s);
      case Obj(fields) =>
        StableObj(fields);
        StableObj(w.fields);
        JoinTail(OPEN_BRACE, FieldParts(Sorted(fields)), CLOSE_BRACE, r);
        JoinTail(OPEN_BRACE, FieldParts(Sorted(w.fields)), CLOSE_BRACE, s);
        SameRest(OPEN_BRACE, Tail(FieldParts(Sorted(fields)), 0, CLOSE_BRACE, r),
                 Tail(FieldParts(Sorted(w.fields)), 0, CLOSE_BRACE, s));
        FieldsApart(v, w, 0, r, s);
        PairsMakeEquiv(v, w);
      case _ => WordsApart(v, r, w, s);
    }
  }

  lemma SameRest(c: CodeUnit, x: Text, y: Text)
    requires [c] + x == [c] + y
    ensures x == y
  {
    assert ([c] + x)[1..] == x && ([c] + y)[1..] == y;
  }

  lemma SamePrefix(p: Text, x: Text, y: Text)
    requires p + x == p + y
    ensures x == y
  {
    assert (p + x)[|p|..] == x && (p + y)[|p|..] == y;
  }

  lemma WordsApart(v: Value, r: Text, w: Value, s: Text)
    requires (Nullish(v) && Nullish(w)) || (v.Bool? && v == w)
    requires Stable(v) + r == Stable(w) + s
    ensures Equiv(v, w) && r == s
  {
    SamePrefix(Stable(v), r, s);
  }

  /** No part can be taken for the end of the list. */
  predicate Visible(parts: seq<Text>) {
    forall k :: 0 <= k < |parts| ==> parts[k] != [] && !Stops(parts[k])
  }

  /** If one list ends here, so does the other. */
  lemma TailEnd(ps: seq<Text>, qs: seq<Text>, i: nat, close: CodeUnit, r: Text, s: Text)
    requires i <= |ps| && i <= |qs| && (i == |ps| || i == |qs|) && IsClose(close) && Visible(ps) && Visible(qs)
    requires Tail(ps, i, close, r) == Tail(qs, i, close, s)
    ensures i == |ps| == |qs| && r == s
  {
    assert Tail(ps, i, close, r)[0] == close <==> i == |ps|;
    assert Tail(qs, i, close, s)[0] == close <==> i == |qs|;
    SameRest(close, r, s);
  }

  /** Otherwise the next parts stand at the front of equal texts. */
  lemma TailStep(ps: seq<Text>, qs: seq<Text>, i: nat, close: CodeUnit, r: Text, s: Text) returns (x: Text, y: Text)
    requires i < |ps| && i < |qs| && IsClose(close)
    requires Tail(ps, i, close, r) == Tail(qs, i, close, s)
    ensures x == Tail(ps, i + 1, close, r) && y == Tail(qs, i + 1, close, s)
    ensures ps[i] + x == qs[i] + y && Stops(x) && Stops(y)
  {
    x, y := Tail(ps, i + 1, close, r), Tail(qs, i + 1, close, s);
    var comma: Text := if i > 0 then [COMMA] else [];
    assert comma + ps[i] + x == comma + (ps[i] + x);
    assert comma + qs[i] + y == comma + (qs[i] + y);
    SamePrefix(comma, ps[i] + x, qs[i] + y);
    TailStops(ps, i + 1, close, r);
    TailStops(qs, i + 1, close, s);
  }

  lemma ItemsVisible(items: seq<Value>)
    requires forall i :: 0 <= i < |items| ==> WellFormed(items[i])
    ensures Visible(ItemParts(items))
  {
    forall k | 0 <= k < |items| ensures Stable(items[k]) != [] && !Stops(Stable(items[k])) {
      FirstUnit(items[k]);
    }
  }

  lemma FieldsVisible(fs: seq<Field>)
    ensures Visible(FieldParts(fs))
  {}

  lemma {:induction false} ItemsApart(v: Value, w: Value, i: nat, r: Text, s: Text)
    requires v.Arr? && w.Arr? && WellFormed(v) && WellFormed(w) && Stops(r) && Stops(s)
    requires i <= |v.items| && i <= |w.items|
    requires Tail(ItemParts(v.items), i, CLOSE_BRACKET, r) == Tail(ItemParts(w.items), i, CLOSE_BRACKET, s)
    ensures |v.items| == |w.items| && r == s
    ensures forall k :: i <= k < |v.items| ==> Equiv(v.items[k], w.items[k])
    decreases v, 0, |v.items| - i
  {
    var ps, qs := ItemParts(v.items), ItemParts(w.items);
    if i == |v.items| || i == |w.items| {
      ItemsVisible(v.items);
      ItemsVisible(w.items);
      TailEnd(ps, qs, i, CLOSE_BRACKET, r, s);
    } else {
      var x, y := TailStep(ps, qs, i, CLOSE_BRACKET, r, s);
      PrintsApart(v.items[i], x, w.items[i], y);
      ItemsApart(v, w, i + 1, r, s);
    }
  }

  /** From place `i` on, the ordered fields of the two objects pair up. */
  ghost predicate PairUp(fs: seq<Field>, gs: seq<Field>, i: nat) {
    |fs| == |gs| && forall k :: i <= k < |fs| ==> fs[k].key == gs[k].key && Equiv(fs[k].value, gs[k].value)
  }

  lemma SortedWellFormed(v: Value, i: nat)
    requires v.Obj? && WellFormed(v) && i < |v.fields|
    ensures Sorted(v.fields)[i] in v.fields && WellFormed(Sorted(v.fields)[i].value)
  {
    assert Sorted(v.fields)[i] in Sorted(v.fields);
  }

  lemma FieldKeysApart(f: Field, x: Text, g: Field, y: Text)
    requires FieldPart(f) + x == FieldPart(g) + y
    ensures f.key == g.key && Stable(f.value) + x == Stable(g.value) + y
  {
    var p, q: Text := [COLON] + (Stable(f.value) + x), [COLON] + (Stable(g.value) + y);
    assert FieldPart(f) + x == Quote(f.key) + p;
    assert FieldPart(g) + y == Quote(g.key) + q;
    QuotesApart(f.key, p, g.key, q);
    SameRest(COLON, Stable(f.value) + x, Stable(g.value) + y);
  }

  /** The keys of the next fields agree, and their values stand at the front of equal texts. */
  lemma FieldStep(fs: seq<Field>, gs: seq<Field>, i: nat, r: Text, s: Text) returns (x: Text, y: Text)
    requires i < |fs| && i < |gs|
    requires Tail(FieldParts(fs), i, CLOSE_BRACE, r) == Tail(FieldParts(gs), i, CLOSE_BRACE, s)
    ensures x == Tail(FieldParts(fs), i + 1, CLOSE_BRACE, r) && y == Tail(FieldParts(gs), i + 1, CLOSE_BRACE, s)
    ensures fs[i].key == gs[i].key && Stable(fs[i].value) + x == Stable(gs[i].value) + y && Stops(x) && Stops(y)
  {
    x, y := TailStep(FieldParts(fs), FieldParts(gs), i, CLOSE_BRACE, r, s);
    FieldKeysApart(fs[i], x, gs[i], y);
  }

  lemma PairStep(fs: seq<Field>, gs: seq<Field>, i: nat)
    requires PairUp(fs, gs, i + 1) && i < |fs| && fs[i].key == gs[i].key && Equiv(fs[i].value, gs[i].value)
    ensures PairUp(fs, gs, i)
  {}

  lemma {:induction false} FieldsApart(v: Value, w: Value, i: nat, r: Text, s: Text)
    requires v.Obj? && w.Obj? && WellFormed(v) && WellFormed(w) && Stops(r) && Stops(s)
    requires i <= |v.fields| && i <= |w.fields|
    requires Tail(FieldParts(Sorted(v.fields)), i, CLOSE_BRACE, r)
             == Tail(FieldParts(Sorted(w.fields)), i, CLOSE_BRACE, s)
    ensures PairUp(Sorted(v.fields), Sorted(w.fields), i) && r == s
    decreases v, 0, |v.fields| - i
  {
    var fs, gs := Sorted(v.fields), Sorted(w.fields);
    if i == |fs| || i == |gs| {
      FieldsVisible(fs);
      FieldsVisible(gs);
      TailEnd(FieldParts(fs), FieldParts(gs), i, CLOSE_BRACE, r, s);
    } else {
      var x, y := FieldStep(fs, gs, i, r, s);
      SortedWellFormed(v, i);
      SortedWellFormed(w, i);
      PrintsApart(fs[i].value, x, gs[i].value, y);
      FieldsApart(v, w, i + 1, r, s);
      PairStep(fs, gs, i);
    }
  }

  lemma SameKeySets(fs: seq<Field>, gs: seq<Field>)
    requires |fs| == |gs| && forall k :: 0 <= k < |fs| ==> fs[k].key == gs[k].key
    ensures Keys(fs) == Keys(gs)
  {
    forall key | key in Keys(fs) ensures key in Keys(gs) {
      var k :| 0 <= k < |fs| && fs[k].key == key;
      assert gs[k] in gs;
    }
    forall key | key in Keys(gs) ensures key in Keys(fs) {
      var k :| 0 <= k < |gs| && gs[k].key == key;
      assert fs[k] in fs;
    }
  }

  lemma PairAt(fs: seq<Field>, gs: seq<Field>, f: Field, g: Field)
    requires PairUp(fs, gs, 0) && Ascending(fs) && Ascending(gs) && f in fs && g in gs && f.key == g.key
    ensures Equiv(f.value, g.value)
  {
    var a :| 0 <= a < |fs| && fs[a] == f;
    var b :| 0 <= b < |gs| && gs[b] == g;
    LessIsStrict(gs[a].key, gs[b].key);
  }

  /** Objects whose ordered fields pair up are equivalent. */
  lemma PairsMakeEquiv(v: Value, w: Value)
    requires v.Obj? && w.Obj? && WellFormed(v) && WellFormed(w)
    requires PairUp(Sorted(v.fields), Sorted(w.fields), 0)
    ensures Equiv(v, w)
  {
    var fs, gs := Sorted(v.fields), Sorted(w.fields);
    SortedAscends(v.fields);
    SortedAscends(w.fields);
    SortedKeys(v.fields);
    SortedKeys(w.fields);
    SameKeySets(fs, gs);
    forall i, j | 0 <= i < |v.fields| && 0 <= j < |w.fields| && v.fields[i].key == w.fields[j].key
      ensures Equiv(v.fields[i].value, w.fields[j].value)
    {
      PairAt(fs, gs, v.fields[i], w.fields[j]);
    }
  }

  /** Two JSON values print alike exactly when they are equal up to the order of object keys. */
  lemma StableIsCanonical(v: Value, w: Value)
    requires WellFormed(v) && WellFormed(w)
    ensures Stable(v) == Stable(w) <==> Equiv(v, w)
  {
    if Equiv(v, w) {
      EquivPrintsAlike(v, w);
    }
    if Stable(v) == Stable(w) {
      var none: Text := [];
      assert Stable(v) + none == Stable(w) + none;
      PrintsApart(v, none, w, none);
    }
  }
}
