/** The directory's 32-bit hash of a fingerprint, with JavaScript's number
    semantics written out (souk-directory/src/layout.ts). */
module Fnv {

  const TWO32: nat := 0x1_0000_0000
  const TWO31: nat := 0x8000_0000
  const OFFSET_BASIS: nat := 0x811c9dc5
  const PRIME: nat := 0x01000193
  const PRIME_INVERSE: nat := 0x359C449B

  // ---- JavaScript's 32-bit operators on numbers

  function ToUint32(x: int): (u: nat)
    ensures u < TWO32
  {
    x % TWO32
  }

  function ToInt32(x: int): (i: int)
    ensures 0 - TWO31 <= i < TWO31
    ensures ToUint32(i) == ToUint32(x)
  {
    var u := ToUint32(x);
    if u < TWO31 then u else u - TWO32
  }

  /** Exclusive or of two naturals, bit by bit. */
  function Xor(a: nat, b: nat): nat
    decreases a + b
  {
    if a == 0 && b == 0 then 0
    else (if a % 2 == b % 2 then 0 else 1) + 2 * Xor(a / 2, b / 2)
  }

  /** `a ^ b`: a signed 32-bit result. */
  function BitXor(a: int, b: int): int
  {
    ToInt32(Xor(ToUint32(a), ToUint32(b)))
  }

  /** `Math.imul(a, b)`: a signed 32-bit result. */
  function Imul(a: int, b: int): int
  {
    ToInt32(ToUint32(a) * ToUint32(b))
  }

  // ---- FNV-1a, section 2 of draft-eastlake-fnv

  function FnvStep(h: nat, c: char): (r: nat)
    ensures r < TWO32
  {
    (Xor(h, c as int) * PRIME) % TWO32
  }

  function Fnv1a(s: string): (r: nat)
    ensures r < TWO32
  {
    if s == [] then OFFSET_BASIS else FnvStep(Fnv1a(s[..|s| - 1]), s[|s| - 1])
  }

  /** The loop in the page's own operators: the running value goes through signed
      intermediates and still equals FNV-1a at every step. */
  method HashFingerprint(fingerprint: string) returns (hash: nat)
    ensures hash == Fnv1a(fingerprint)
  {
    var h: int := OFFSET_BASIS;
    for i := 0 to |fingerprint|
      invariant h == Fnv1a(fingerprint[..i])
    {
      ghost var before := h;
      h := BitXor(h, fingerprint[i] as int);
      h := ToUint32(Imul(h, PRIME));
      SignedStepIsFnvStep(before, fingerprint[i]);
      assert fingerprint[..i + 1][..i] == fingerprint[..i];
    }
    assert fingerprint[..|fingerprint|] == fingerprint;
    hash := ToUint32(h);
  }

  lemma SignedStepIsFnvStep(h: nat, c: char)
    requires h < TWO32
    ensures ToUint32(Imul(BitXor(h, c as int), PRIME)) == FnvStep(h, c)
  {
    var x := Xor(h, c as int);
    Pow2Of32();
    XorBelow(h, c as int, 32);
    assert ToUint32(BitXor(h, c as int)) == x;
  }

  function Pow2(n: nat): nat
  {
    if n == 0 then 1 else 2 * Pow2(n - 1)
  }

  lemma Pow2Of32()
    ensures Pow2(32) == TWO32
  {
    Pow2Adds(16, 16);
    Pow2Adds(8, 8);
    Pow2Adds(4, 4);
    Pow2Adds(2, 2);
  }

  lemma {:induction false} Pow2Adds(m: nat, n: nat)
    ensures Pow2(m + n) == Pow2(m) * Pow2(n)
  {
    if n > 0 {
      Pow2Adds(m, n - 1);
    }
  }

  lemma {:induction false} XorBelow(a: nat, b: nat, bits: nat)
    requires a < Pow2(bits) && b < Pow2(bits)
    ensures Xor(a, b) < Pow2(bits)
  {
    if bits > 0 && (a != 0 || b != 0) {
      XorBelow(a / 2, b / 2, bits - 1);
    }
  }

  // ---- Each step is a bijection of the 32-bit state

  lemma {:induction false} XorUndoesItself(a: nat, b: nat)
    ensures Xor(Xor(a, b), b) == a
    decreases a + b
  {
    if a != 0 || b != 0 {
      var r := Xor(a / 2, b / 2);
      assert Xor(a, b) / 2 == r;
      XorUndoesItself(a / 2, b / 2);
    }
  }

  lemma {:induction false} XorCommutes(a: nat, b: nat)
    ensures Xor(a, b) == Xor(b, a)
    decreases a + b
  {
    if a != 0 || b != 0 {
      XorCommutes(a / 2, b / 2);
    }
  }

  lemma AddMultiple(x: nat, t: int)
    requires x < TWO32
    ensures (x + TWO32 * t) % TWO32 == x
  {}

  lemma MultiplyThenDivide(x: nat, p: nat, q: nat, j: nat)
    requires x < TWO32 && p * q == 1 + TWO32 * j
    ensures (((x * p) % TWO32) * q) % TWO32 == x
  {
    var k, a := (x * p) / TWO32, (x * p) % TWO32;
    assert a == x * p - TWO32 * k;
    assert (x * p) * q == x * (p * q);
    assert x * (p * q) == x + TWO32 * (x * j);
    assert a * q == (x * p) * q - TWO32 * (k * q);
    assert a * q == x + TWO32 * (x * j - k * q);
    AddMultiple(x, x * j - k * q);
  }

  function UnFnvStep(h: nat, c: char): nat
  {
    Xor((h * PRIME_INVERSE) % TWO32, c as int)
  }

  /** For a fixed character, one step can be undone and everything can be reached:
      a bijection on [0, 2^32). */
  lemma StepIsBijective(h: nat, c: char)
    requires h < TWO32
    ensures UnFnvStep(FnvStep(h, c), c) == h
    ensures UnFnvStep(h, c) < TWO32 && FnvStep(UnFnvStep(h, c), c) == h
  {
    Pow2Of32();
    var j := (PRIME * PRIME_INVERSE) / TWO32;
    var x := Xor(h, c as int);
    XorBelow(h, c as int, 32);
    MultiplyThenDivide(x, PRIME, PRIME_INVERSE, j);
    XorUndoesItself(h, c as int);
    var y := (h * PRIME_INVERSE) % TWO32;
    XorBelow(y, c as int, 32);
    XorUndoesItself(y, c as int);
    MultiplyThenDivide(h, PRIME_INVERSE, PRIME, j);
  }

  /** From one state, different characters lead to different states. */
  lemma StepSeparatesCharacters(h: nat, c: char, d: char)
    requires h < TWO32 && c != d
    ensures FnvStep(h, c) != FnvStep(h, d)
  {
    Pow2Of32();
    var j := (PRIME * PRIME_INVERSE) / TWO32;
    var x, y := Xor(h, c as int), Xor(h, d as int);
    XorBelow(h, c as int, 32);
    XorBelow(h, d as int, 32);
    MultiplyThenDivide(x, PRIME, PRIME_INVERSE, j);
    MultiplyThenDivide(y, PRIME, PRIME_INVERSE, j);
    XorCommutes(h, c as int);
    XorCommutes(h, d as int);
    XorUndoesItself(c as int, h);
    XorUndoesItself(d as int, h);
  }

  lemma {:induction false} DifferenceSurvives(a: string, b: string, tail: string)
    requires Fnv1a(a) != Fnv1a(b)
    ensures Fnv1a(a + tail) != Fnv1a(b + tail)
  {
    if tail == [] {
      assert a + tail == a && b + tail == b;
    } else {
      var n := |tail| - 1;
      DifferenceSurvives(a, b, tail[..n]);
      assert (a + tail)[..|a + tail| - 1] == a + tail[..n];
      assert (b + tail)[..|b + tail| - 1] == b + tail[..n];
      StepIsBijective(Fnv1a(a + tail[..n]), tail[n]);
      StepIsBijective(Fnv1a(b + tail[..n]), tail[n]);
    }
  }

  /** Fingerprints of equal length that differ in exactly one character never share a hash. */
  lemma OneCharacterChangesTheHash(a: string, b: string, i: nat)
    requires |a| == |b| && i < |a| && a[i] != b[i]
    requires forall j :: 0 <= j < |a| && j != i ==> a[j] == b[j]
    ensures Fnv1a(a) != Fnv1a(b)
  {
    assert a[..i] == b[..i];
    assert a[..i + 1][..i] == a[..i] && b[..i + 1][..i] == b[..i];
    StepSeparatesCharacters(Fnv1a(a[..i]), a[i], b[i]);
    DifferenceSurvives(a[..i + 1], b[..i + 1], a[i + 1..]);
    assert a == a[..i + 1] + a[i + 1..];
    assert b == b[..i + 1] + a[i + 1..];
  }

  lemma {:induction false} XorZero(a: nat)
    ensures Xor(a, 0) == a
  {
    if a > 0 {
      XorZero(a / 2);
    }
  }

  lemma XorOfKnown()
    ensures Xor(0x811c9dc5, 0x61) == 0x811c9da4
  {
    XorZero(16922939);
    assert Xor(33845879, 1) == 33845878;
    assert Xor(67691758, 3) == 67691757;
    assert Xor(135383516, 6) == 135383514;
    assert Xor(270767032, 12) == 270767028;
    assert Xor(541534065, 24) == 541534057;
    assert Xor(1083068130, 48) == 1083068114;
    assert Xor(2166136261, 97) == 2166136228;
  }

  lemma ProductOfKnown()
    ensures (0x811c9da4 * PRIME) % TWO32 == 0xe40c292c
  {
    assert 0x811c9da4 * PRIME == 8461672 * TWO32 + 0xe40c292c;
  }

  /** The published 32-bit FNV-1a values of the empty string and of "a". */
  lemma PublishedVectors()
    ensures Fnv1a("") == 0x811c9dc5
    ensures Fnv1a("a") == 0xe40c292c
  {
    XorOfKnown();
    ProductOfKnown();
    assert "a"[..|"a"| - 1] == "" && Fnv1a("a") == FnvStep(0x811c9dc5, 'a');
  }
}
