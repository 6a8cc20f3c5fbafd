/** The printed text, unit by unit, and the text and digits a signature is made of. */
module StableText {
  // server/agentRuntime.ts:474-499; section 7 of RFC 8259 for the escapes.

  import opened CodeUnits
  import opened StableJson
  import opened CallHash
  import opened CallSignature

  /** ASCII characters as code units. */
  function Ascii(s: string): Text
    requires forall i :: 0 <= i < |s| ==> s[i] as int < 0x80
  {
    seq(|s|, i requires 0 <= i < |s| => s[i] as int)
  }

  // --- Plain values, arrays, objects ---

  lemma Words()
    ensures Stable(Null) == Stable(Undefined) == Stable(NonFinite) == Ascii("null")
    ensures Stable(Bool(true)) == Ascii("true") && Stable(Bool(false)) == Ascii("false")
    ensures Stable(Arr([])) == Ascii("[]") && Stable(Obj([])) == Ascii("{}")
  {}

  lemma {:induction false} JoinMore(parts: seq<Text>, part: Text)
    requires parts != []
    ensures Join(parts + [part]) == Join(parts) + Ascii(",") + part
  {
    var all := parts + [part];
    if |parts| == 1 {
      assert all[1..] == [part];
    } else {
      assert all[1..] == parts[1..] + [part];
      JoinMore(parts[1..], part);
      assert Join(all) == parts[0] + [COMMA] + (Join(parts[1..]) + Ascii(",") + part);
    }
  }

  function Inner(t: Text): Text
    requires |t| >= 2
  {
    t[1..|t| - 1]
  }

  /** An array's text: its elements' texts in order, commas between them. */
  lemma ArrayText(items: seq<Value>, item: Value)
    ensures |Stable(Arr(items))| >= 2
    ensures Stable(Arr(items + [item]))
            == Ascii("[") + (if items == [] then [] else Inner(Stable(Arr(items))) + Ascii(",")) + Stable(item)
               + Ascii("]")
  {
    StableArr(items);
    StableArr(items + [item]);
    assert ItemParts(items + [item]) == ItemParts(items) + [Stable(item)];
    OneMoreInside(OPEN_BRACKET, ItemParts(items), Stable(item), CLOSE_BRACKET);
    assert Ascii("[") == [OPEN_BRACKET] && Ascii("]") == [CLOSE_BRACKET];
  }

  /** Keys compare by their first different code unit, a proper prefix being less. */
  lemma {:induction false} LessIs(a: Text, b: Text)
    ensures Less(a, b) <==> exists n: nat :: n <= |a| && n < |b| && a[..n] == b[..n] && (n < |a| ==> a[n] < b[n])
    decreases |a|
  {
    if a != [] && b != [] && a[0] == b[0] {
      var x, y := a[1..], b[1..];
      LessIs(x, y);
      if n: nat :| n <= |x| && n < |y| && x[..n] == y[..n] && (n < |x| ==> x[n] < y[n]) {
        assert a[..n + 1] == [a[0]] + x[..n] && b[..n + 1] == [b[0]] + y[..n];
        assert n + 1 < |a| ==> a[n + 1] < b[n + 1];
      }
      if n: nat :| n <= |a| && n < |b| && a[..n] == b[..n] && (n < |a| ==> a[n] < b[n]) {
        assert n > 0;
        assert x[..n - 1] == a[..n][1..] && y[..n - 1] == b[..n][1..];
        assert n - 1 < |x| ==> x[n - 1] < y[n - 1];
      }
    } else if a == [] && b != [] {
      assert a[..0] == b[..0];
    } else if a != [] && b != [] {
      assert a[..0] == b[..0];
      assert forall n: nat :: 0 < n <= |a| && n < |b| ==> a[..n][0] != b[..n][0];
    }
  }

  lemma {:induction false} InsertLast(f: Field, fs: seq<Field>)
    requires forall g :: g in fs ==> Less(g.key, f.key)
    ensures Insert(f, fs) == fs + [f]
  {
    if fs != [] {
      assert fs[0] in fs && forall g :: g in fs[1..] ==> g in fs;
      LessIsStrict(fs[0].key, f.key);
      InsertLast(f, fs[1..]);
      assert [fs[0]] + (fs[1..] + [f]) == fs + [f];
    }
  }

  lemma SortedLast(fields: seq<Field>, last: Field)
    requires forall g :: g in fields ==> Less(g.key, last.key)
    ensures Sorted(fields + [last]) == Sorted(fields) + [last]
  {
    var all := fields + [last];
    assert all[..|all| - 1] == fields;
    InsertLast(last, Sorted(fields));
  }

  /** A list gains an element in front of its closing bracket. */
  lemma OneMoreInside(open: CodeUnit, parts: seq<Text>, part: Text, close: CodeUnit)
    ensures [open] + Join(parts + [part]) + [close]
            == [open] + (if parts == [] then [] else Join(parts) + Ascii(",")) + part + [close]
    ensures Inner([open] + Join(parts) + [close]) == Join(parts)
  {
    if parts != [] {
      JoinMore(parts, part);
    } else {
      assert parts + [part] == [part];
    }
  }

  /** An object's text: its fields by ascending keys, whatever order they are stored in; the field with the
      greatest key comes last. */
  lemma ObjectText(fields: seq<Field>, last: Field)
    requires forall g :: g in fields ==> Less(g.key, last.key)
    ensures |Stable(Obj(fields))| >= 2
    ensures Stable(Obj(fields + [last]))
            == Ascii("{") + (if fields == [] then [] else Inner(Stable(Obj(fields))) + Ascii(","))
               + (Quote(last.key) + Ascii(":") + Stable(last.value)) + Ascii("}")
  {
    var fs := Sorted(fields);
    SortedLast(fields, last);
    StableObj(fields);
    StableObj(fields + [last]);
    assert FieldParts(fs + [last]) == FieldParts(fs) + [FieldPart(last)];
    OneMoreInside(OPEN_BRACE, FieldParts(fs), FieldPart(last), CLOSE_BRACE);
    Braces();
  }

  lemma Braces()
    ensures Ascii("{") == [OPEN_BRACE] && Ascii("}") == [CLOSE_BRACE] && Ascii(":") == [COLON]
  {}

  // --- Strings ---

  /** Units that stand for themselves inside quotes. */
  predicate Plain(c: CodeUnit) {
    c >= 0x20 && c != QUOTE && c != BACKSLASH && !(0xd800 <= c < 0xe000)
  }

  /** Text is quoted piece by piece, unless the cut goes through a surrogate pair. */
  lemma {:induction false} EscapeConcat(s: Text, t: Text)
    requires s == [] || t == [] || !IsHigh(s[|s| - 1]) || !IsLow(t[0])
    ensures Escape(s + t) == Escape(s) + Escape(t)
    decreases |s|
  {
    if s == [] {
      assert s + t == t;
    } else if t == [] {
      assert s + t == s;
    } else {
      var n := if StartsPair(s) then 2 else 1;
      assert (s + t)[n..] == s[n..] + t;
      EscapeConcat(s[n..], t);
    }
  }

  lemma Quoted(s: Text)
    ensures Quote(s) == Ascii("\"") + Escape(s) + Ascii("\"")
  {}

  /** Plain units and surrogate pairs are written as they are. */
  lemma PlainText(c: CodeUnit, high: CodeUnit, low: CodeUnit)
    requires Plain(c) && 0xd800 <= high < 0xdc00 && 0xdc00 <= low < 0xe000
    ensures Escape([c]) == [c] && Escape([high, low]) == [high, low]
  {
    assert [c][1..] == [] && [high, low][2..] == [];
  }

  /** Quote, backslash and five control characters have escapes of two units. */
  lemma ShortEscapes()
    ensures Escape([0x22]) == Ascii("\\\"") && Escape([0x5c]) == Ascii("\\\\")
    ensures Escape([8]) == Ascii("\\b") && Escape([9]) == Ascii("\\t") && Escape([10]) == Ascii("\\n")
    ensures Escape([12]) == Ascii("\\f") && Escape([13]) == Ascii("\\r")
  {}

  predicate LowerHex(c: CodeUnit) {
    0x30 <= c <= 0x39 || 0x61 <= c <= 0x66
  }

  /** All other control characters and lone surrogates are written as a backslash, a "u" and four lower-case
      hexadecimal digits of their value. */
  lemma LongEscapes(c: CodeUnit)
    requires !Plain(c) && c !in {0x22, 0x5c, 8, 9, 10, 12, 13}
    ensures var e := Escape([c]);
            && |e| == 6 && e[..2] == Ascii("\\u") && (forall i :: 2 <= i < 6 ==> LowerHex(e[i]))
            && FromHex(e[2..]) == c
  {
    assert [c][1..] == [];
    var e := EscapeUnit(c);
    assert Escape([c]) == e + [];
    HexDigitsBack(c);
    assert e[2..] == [HexUnit(c / 0x1000), HexUnit(c / 0x100 % 16), HexUnit(c / 0x10 % 16), HexUnit(c % 16)];
  }

  // --- Signatures ---

  /** What is hashed: the tool's id, two colons, the printed arguments, "{}" when there are none. */
  lemma HashedText(tool: Text, args: Value)
    requires !args.Null? && !args.Undefined?
    ensures CallText(tool, args) == tool + Ascii("::") + Stable(args)
  {
    assert Ascii("::") == [COLON, COLON];
  }

  lemma HashedWithoutArguments(tool: Text, args: Value)
    requires args.Null? || args.Undefined?
    ensures CallText(tool, args) == tool + Ascii("::") + Ascii("{}")
  {
    Words();
    assert Ascii("::") == [COLON, COLON];
  }

  /** The published test vectors of 32-bit FNV-1a for the empty text and for "a". */
  lemma TestVectors()
    ensures Fnv([]) == 0x811c9dc5 && Fnv([0x61]) == 0xe40c292c
  {
    XorVector();
    FnvOne(0x61, 0x811c9da4, 0xe40c292c);
  }

  lemma FnvOne(c: CodeUnit, x: nat, h: Word)
    requires Xor(OFFSET, c) == x && x * PRIME == h + 8461672 * WORD
    ensures Fnv([c]) == h
  {
    assert [c][..0] == [];
    assert Fnv([c][..0]) == OFFSET;
    SameResidue(h, 8461672);
  }

  lemma XorVector()
    ensures Xor(0x811c9dc5, 0x61) == 0x811c9da4
  {
    XorZero(0x102393b);
    XorSwaps(0x102393b, 0);
    assert Xor(0x2047277, 0x1) == 0x2047276;
    assert Xor(0x408e4ee, 0x3) == 0x408e4ed;
    assert Xor(0x811c9dc, 0x6) == 0x811c9da;
    assert Xor(0x102393b8, 0xc) == 0x102393b4;
    assert Xor(0x20472771, 0x18) == 0x20472769;
    assert Xor(0x408e4ee2, 0x30) == 0x408e4ed2;
  }

  function DigitValue(c: char): int {
    if '0' <= c <= '9' then c as int - '0' as int else c as int - 'a' as int + 10
  }

  function ReadHex(s: string): int {
    if s == "" then 0 else 16 * ReadHex(s[..|s| - 1]) + DigitValue(s[|s| - 1])
  }

  lemma OneDigit(d: int)
    requires 0 <= d < 16
    ensures DigitValue(HexDigit(d)) == d && (HexDigit(d) == '0' <==> d == 0)
    ensures '0' <= HexDigit(d) <= '9' || 'a' <= HexDigit(d) <= 'f'
  {}

  /** A signature is the hash in lower-case hexadecimal digits, without leading zeros. */
  lemma {:induction false} DigitsRead(n: nat)
    ensures ReadHex(ToHex(n)) == n
    ensures ToHex(n)[0] == '0' ==> n == 0 && ToHex(n) == "0"
    ensures forall c :: c in ToHex(n) ==> '0' <= c <= '9' || 'a' <= c <= 'f'
  {
    OneDigit(n % 16);
    if n < 16 {
      assert ToHex(n)[..0] == "";
    } else {
      DigitsRead(n / 16);
      var s := ToHex(n);
      assert s[..|s| - 1] == ToHex(n / 16);
    }
  }
}
