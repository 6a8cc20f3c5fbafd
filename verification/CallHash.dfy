/** The 32-bit fingerprint of a tool call, over UTF-16 code units. */
module CallHash {
  // The multiplication is written as shifts and adds on signed numbers (server/agentRuntime.ts:491-499).

  import opened CodeUnits

  const WORD := 0x1_0000_0000
  const PRIME := 16777619
  const OFFSET := 0x811c9dc5

  /** PRIME * INVERSE == 1 + CARRY * WORD */
  const INVERSE := 899433627
  const CARRY := 3513497

  type Word = x: int | 0 <= x < WORD

  // --- JavaScript's 32-bit operators ---

  function ToUint32(x: int): Word {
    x % WORD
  }

  /** The signed number in [-2^31, 2^31) with the same low 32 bits. */
  function ToInt32(x: int): (r: int)
    ensures -0x8000_0000 <= r < 0x8000_0000
  {
    var u := x % WORD;
    if u < 0x8000_0000 then u else u - WORD
  }

  /** Bitwise exclusive or of two non-negative numbers. */
  function Xor(a: nat, b: nat): nat
    decreases a + b
  {
    if a == 0 && b == 0 then 0
    else 2 * Xor(a / 2, b / 2) + if a % 2 == b % 2 then 0 else 1
  }

  lemma {:induction false} XorUndoes(a: nat, b: nat)
    ensures Xor(Xor(a, b), b) == a
    decreases a + b
  {
    if a != 0 || b != 0 {
      XorUndoes(a / 2, b / 2);
      var x := Xor(a, b);
      assert x / 2 == Xor(a / 2, b / 2);
      assert x % 2 == if a % 2 == b % 2 then 0 else 1;
      if x == 0 {
        XorZero(b / 2);
      }
    } else {
      assert Xor(0, 0) == 0;
    }
  }

  lemma {:induction false} XorZero(b: nat)
    ensures Xor(0, b) == b
  {
    if b != 0 {
      XorZero(b / 2);
    }
  }

  lemma {:induction false} XorSwaps(a: nat, b: nat)
    ensures Xor(a, b) == Xor(b, a)
    decreases a + b
  {
    if a != 0 || b != 0 {
      XorSwaps(a / 2, b / 2);
    }
  }

  function Pow2(k: nat): (r: nat)
    ensures r > 0
  {
    if k == 0 then 1 else 2 * Pow2(k - 1)
  }

  lemma {:induction false} XorFits(a: nat, b: nat, k: nat)
    requires a < Pow2(k) && b < Pow2(k)
    ensures Xor(a, b) < Pow2(k)
  {
    if k > 0 && (a != 0 || b != 0) {
      XorFits(a / 2, b / 2, k - 1);
    }
  }

  lemma WordIsPow2()
    ensures Pow2(32) == WORD
  {
    assert Pow2(8) == 256;
    assert Pow2(16) == 0x1_0000;
    assert Pow2(24) == 0x100_0000;
  }

  /** `x << k` on the 32-bit signed view of `x`. */
  function ShiftLeft(x: int, k: nat): int {
    ToInt32(ToInt32(x) * Pow2(k))
  }

  /** One pass of the loop, as the source computes it; the intermediate values may be negative. */
  function Round(h: Word, c: CodeUnit): Word {
    var x := ToInt32(Xor(h, c));
    ToUint32(x + (ShiftLeft(x, 1) + ShiftLeft(x, 4) + ShiftLeft(x, 7) + ShiftLeft(x, 8) + ShiftLeft(x, 24)))
  }

  // --- What one pass is ---

  /** Taking 32 bits only subtracts a multiple of 2^32. */
  lemma Wraps(x: int) returns (q: int)
    ensures ToInt32(x) == x + WORD * q
  {
    q := if x % WORD < 0x8000_0000 then -(x / WORD) else -(x / WORD) - 1;
  }

  lemma SameResidue(a: int, q: int)
    ensures (a + WORD * q) % WORD == a % WORD
  {}

  /** The shifts and adds are one FNV-1a step: exclusive or, then multiply by the prime mod 2^32. */
  lemma RoundIsFnv(h: Word, c: CodeUnit)
    ensures Round(h, c) == Xor(h, c) * PRIME % WORD
  {
    var y := Xor(h, c);
    var x := ToInt32(y);
    var q := Wraps(y);
    assert ToInt32(x) == x;
    assert Pow2(1) == 2 && Pow2(4) == 16 && Pow2(7) == 128 && Pow2(8) == 256;
    assert Pow2(24) == 0x100_0000 by { assert Pow2(16) == 0x1_0000; }
    var q1 := Wraps(x * 2);
    var q4 := Wraps(x * 16);
    var q7 := Wraps(x * 128);
    var q8 := Wraps(x * 256);
    var q24 := Wraps(x * 0x100_0000);
    var sum := x + (ShiftLeft(x, 1) + ShiftLeft(x, 4) + ShiftLeft(x, 7) + ShiftLeft(x, 8) + ShiftLeft(x, 24));
    assert sum == y * PRIME + WORD * (q * PRIME + q1 + q4 + q7 + q8 + q24);
    SameResidue(y * PRIME, q * PRIME + q1 + q4 + q7 + q8 + q24);
  }

  /** The prime is invertible modulo 2^32, so multiplying by it loses nothing. */
  lemma TimesPrimeInjective(y: Word, z: Word)
    requires y * PRIME % WORD == z * PRIME % WORD
    ensures y == z
  {
    var k := y * PRIME / WORD - z * PRIME / WORD;
    assert (y - z) * PRIME == WORD * k;
    assert (y - z) * (PRIME * INVERSE) == WORD * (k * INVERSE);
    assert (y - z) == WORD * (k * INVERSE - (y - z) * CARRY);
  }

  lemma RoundFits(h: Word, c: CodeUnit)
    ensures 0 <= Xor(h, c) < WORD
  {
    WordIsPow2();
    XorFits(h, c, 32);
  }

  /** A pass loses neither the running hash nor the code unit. */
  lemma RoundInjective(h: Word, c: CodeUnit, h': Word, c': CodeUnit)
    requires Round(h, c) == Round(h', c')
    requires h == h' || c == c'
    ensures h == h' && c == c'
  {
    RoundIsFnv(h, c);
    RoundIsFnv(h', c');
    RoundFits(h, c);
    RoundFits(h', c');
    TimesPrimeInjective(Xor(h, c), Xor(h', c'));
    XorUndoes(h, c);
    XorUndoes(h', c');
    XorSwaps(h, c);
    XorSwaps(h', c');
    XorUndoes(c, h);
    XorUndoes(c', h');
  }

  // --- The whole hash ---

  /** FNV-1a over the code units. */
  function Fnv(s: Text): Word {
    if s == [] then OFFSET else Xor(Fnv(s[..|s| - 1]), s[|s| - 1]) * PRIME % WORD
  }

  method HashToolCall(s: Text) returns (h: Word)
    ensures h == Fnv(s)
  {
    h := OFFSET;
    var i := 0;
    while i < |s|
      invariant 0 <= i <= |s|
      invariant h == Fnv(s[..i])
    {
      RoundIsFnv(h, s[i]);
      assert s[..i + 1][..i] == s[..i];
      h := Round(h, s[i]);
      i := i + 1;
    }
    assert s[..|s|] == s;
  }

  /** A pass keeps apart what differs in the running hash alone, or in the unit alone. */
  lemma LastUnit(h: Word, c: CodeUnit, h': Word, c': CodeUnit)
    requires (h == h' && c != c') || (h != h' && c == c')
    ensures Xor(h, c) * PRIME % WORD != Xor(h', c') * PRIME % WORD
  {
    RoundIsFnv(h, c);
    RoundIsFnv(h', c');
    if Round(h, c) == Round(h', c') {
      RoundInjective(h, c, h', c');
    }
  }

  lemma FnvSnoc(s: Text, before: Text, c: CodeUnit)
    requires s == before + [c]
    ensures Fnv(s) == Xor(Fnv(before), c) * PRIME % WORD
  {
    assert s[..|s| - 1] == before;
  }

  /** Equal-length texts that differ at exactly one position never collide. */
  lemma {:induction false} OneChangeNeverCollides(s: Text, t: Text, k: nat)
    requires |s| == |t| && k < |s| && s[k] != t[k]
    requires forall i :: 0 <= i < |s| && i != k ==> s[i] == t[i]
    ensures Fnv(s) != Fnv(t)
    decreases |s|
  {
    var n := |s| - 1;
    var x, y := s[..n], t[..n];
    FnvSnoc(s, x, s[n]);
    FnvSnoc(t, y, t[n]);
    if k == n {
      assert x == y;
    } else {
      OneChangeNeverCollides(x, y, k);
    }
    LastUnit(Fnv(x), s[n], Fnv(y), t[n]);
  }

  // --- toString(16) ---

  function HexDigit(d: int): char
    requires 0 <= d < 16
  {
    "0123456789abcdef"[d]
  }

  lemma HexDigits(c: int, d: int)
    requires 0 <= c < 16 && 0 <= d < 16 && HexDigit(c) == HexDigit(d)
    ensures c == d
  {}

  function ToHex(n: nat): (r: string)
    ensures r != ""
  {
    if n < 16 then [HexDigit(n)] else ToHex(n / 16) + [HexDigit(n % 16)]
  }

  lemma {:induction false} ToHexInjective(m: nat, n: nat)
    requires ToHex(m) == ToHex(n)
    ensures m == n
  {
    var a, b := ToHex(m), ToHex(n);
    assert a[|a| - 1] == HexDigit(m % 16) && b[|b| - 1] == HexDigit(n % 16);
    HexDigits(m % 16, n % 16);
    if m >= 16 && n >= 16 {
      assert a[..|a| - 1] == ToHex(m / 16) && b[..|b| - 1] == ToHex(n / 16);
      ToHexInjective(m / 16, n / 16);
    }
  }

  /** The signature kept by the tool loop tells such texts apart. */
  lemma SignaturesDiffer(s: Text, t: Text, k: nat)
    requires |s| == |t| && k < |s| && s[k] != t[k]
    requires forall i :: 0 <= i < |s| && i != k ==> s[i] == t[i]
    ensures ToHex(Fnv(s)) != ToHex(Fnv(t))
  {
    OneChangeNeverCollides(s, t, k);
    if ToHex(Fnv(s)) == ToHex(Fnv(t)) {
      ToHexInjective(Fnv(s), Fnv(t));
      assert false;
    }
  }
}
