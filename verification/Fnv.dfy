/** The probe's text hash: 32-bit FNV-1a (section 2 of draft-eastlake-fnv) over code units, computed
    with JavaScript's signed 32-bit shifts and exclusive or, and printed as eight hex digits. */
module Fnv {
  const TWO_31 := 0x8000_0000
  const TWO_32 := 0x1_0000_0000
  const EXACT := 0x20_0000_0000_0000
  const PRIME := 16777619
  const OFFSET: Word := 0x811c_9dc5

  type Unit = n: int | 0 <= n < 0x1_0000
  type Word = n: int | 0 <= n < TWO_32
  type Int32 = n: int | -TWO_31 <= n < TWO_31
  type Text = seq<Unit>

  // ---------------------------------------------------------------- JavaScript's operators

  function ToUint32(n: int): Word { n % TWO_32 }

  function ToInt32(n: int): Int32 {
    var m := n % TWO_32;
    if m < TWO_31 then m else m - TWO_32
  }

  function Shl(n: int, factor: nat): Int32 { ToInt32(ToInt32(n) * factor) }

  /** Exclusive or, bit by bit. */
  function Xor(a: nat, b: nat): nat {
    if a == 0 && b == 0 then 0 else (a + b) % 2 + 2 * Xor(a / 2, b / 2)
  }

  function JsXor(a: int, b: int): Int32 { ToInt32(Xor(ToUint32(a), ToUint32(b))) }

  function Pow2(k: nat): nat { if k == 0 then 1 else 2 * Pow2(k - 1) }

  lemma {:induction false} XorBelow(a: nat, b: nat, k: nat)
    requires a < Pow2(k) && b < Pow2(k)
    ensures Xor(a, b) < Pow2(k)
  {
    if k == 0 {
    } else {
      XorBelow(a / 2, b / 2, k - 1);
    }
  }

  lemma Pow2Word()
    ensures Pow2(32) == TWO_32
  {
    assert Pow2(8) == 256;
    assert Pow2(16) == 65536;
    assert Pow2(24) == 16777216;
  }

  lemma Halves(bit: nat, rest: nat)
    requires bit < 2
    ensures (bit + 2 * rest) % 2 == bit && (bit + 2 * rest) / 2 == rest
  {
  }

  lemma {:induction false} XorBits(a: nat, b: nat)
    ensures Xor(a, b) % 2 == (a + b) % 2 && Xor(a, b) / 2 == Xor(a / 2, b / 2)
  {
    Halves((a + b) % 2, Xor(a / 2, b / 2));
  }

  lemma Parity(x: nat, a: nat, b: nat)
    requires x % 2 == (a + b) % 2
    ensures (x + b) % 2 == a % 2
  {
  }

  lemma SameHalves(x: nat, a: nat)
    requires x % 2 == a % 2 && x / 2 == a / 2
    ensures x == a
  {
  }

  lemma {:induction false} XorCancels(a: nat, b: nat)
    ensures Xor(Xor(a, b), b) == a
    decreases a + b
  {
    if a == 0 && b == 0 {
    } else {
      var x := Xor(a, b);
      XorBits(a, b);
      XorBits(x, b);
      XorCancels(a / 2, b / 2);
      Parity(x, a, b);
      SameHalves(Xor(x, b), a);
    }
  }

  lemma {:induction false} XorSymmetric(a: nat, b: nat)
    ensures Xor(a, b) == Xor(b, a)
    decreases a + b
  {
    if a == 0 && b == 0 {
    } else {
      XorSymmetric(a / 2, b / 2);
    }
  }

  // ---------------------------------------------------------------- one step

  function FnvStep(h: Word, c: Unit): Word { (Xor(h, c) * PRIME) % TWO_32 }

  function FnvFrom(h: Word, text: Text): Word
    decreases |text|
  {
    if text == [] then h else FnvFrom(FnvStep(h, text[0]), text[1..])
  }

  /** The hash: exclusive or, then multiplication by the prime modulo 2^32, over the code units. */
  function Fnv1a32(text: Text): Word { FnvFrom(OFFSET, text) }

  lemma ModAdd(x: int, q: int)
    ensures (x + TWO_32 * q) % TWO_32 == x % TWO_32
  {
    var r := x % TWO_32;
    assert x == TWO_32 * (x / TWO_32) + r;
    assert x + TWO_32 * q == TWO_32 * (x / TWO_32 + q) + r;
  }

  /** Signed conversion and shifts only ever move a number by a multiple of 2^32. */
  lemma Int32Shift(n: int) returns (q: int)
    ensures ToInt32(n) == n + TWO_32 * q
  {
    q := if n % TWO_32 < TWO_31 then -(n / TWO_32) else -(n / TWO_32) - 1;
  }

  /** The sum of shifts is exact in a double and is the multiplication by the prime modulo 2^32. */
  lemma ShiftsMultiply(h: Int32)
    ensures var a, b, c, d, e := Shl(h, 0x2), Shl(h, 0x10), Shl(h, 0x80), Shl(h, 0x100), Shl(h, 0x100_0000);
      && -EXACT < a + b < EXACT && -EXACT < a + b + c < EXACT && -EXACT < a + b + c + d < EXACT
      && -EXACT < a + b + c + d + e < EXACT && -EXACT < h + (a + b + c + d + e) < EXACT
      && ToUint32(h + (a + b + c + d + e)) == (h * PRIME) % TWO_32
  {
    assert ToInt32(h) == h;
    var p := Int32Shift(h * 0x2);
    var q := Int32Shift(h * 0x10);
    var r := Int32Shift(h * 0x80);
    var s := Int32Shift(h * 0x100);
    var t := Int32Shift(h * 0x100_0000);
    ModAdd(h * PRIME, p + q + r + s + t);
  }

  lemma SignedProduct(x: nat)
    ensures (ToInt32(x) * PRIME) % TWO_32 == (x * PRIME) % TWO_32
  {
    var q := Int32Shift(x);
    ModAdd(x * PRIME, q * PRIME);
  }

  /** The body of the probe's loop: exclusive or, then the sum of shifts, back to unsigned. */
  function Mixed(hash: Int32): Word {
    ToUint32(hash + (Shl(hash, 0x2) + Shl(hash, 0x10) + Shl(hash, 0x80) + Shl(hash, 0x100) + Shl(hash, 0x100_0000)))
  }

  lemma MixedIsProduct(x: nat)
    ensures Mixed(ToInt32(x)) == (x * PRIME) % TWO_32
  {
    ShiftsMultiply(ToInt32(x));
    SignedProduct(x);
  }

  /** One turn of the loop is one FNV-1a step: exclusive or, then the prime modulo 2^32. */
  lemma MixedIsStep(h: Word, c: Unit)
    ensures Mixed(JsXor(h, c)) == FnvStep(h, c)
  {
    MixedIsProduct(Xor(h, c));
    assert h % TWO_32 == h && c % TWO_32 == c;
  }

  /** The loop of the probe, operator by operator. */
  method Fnv1a(text: Text) returns (digits: string)
    ensures digits == Hex8(Fnv1a32(text))
  {
    var hash: int := OFFSET;
    var i := 0;
    while i < |text|
      invariant 0 <= i <= |text|
      invariant 0 <= hash < TWO_32
      invariant FnvFrom(hash, text[i..]) == Fnv1a32(text)
    {
      MixedIsStep(hash, text[i]);
      assert text[i..][1..] == text[i + 1..];
      hash := JsXor(hash, text[i]);
      hash := Mixed(hash);
      i := i + 1;
    }
    assert text[i..] == [];
    digits := Hex8(hash);
  }

  // ---------------------------------------------------------------- what it separates

  /** The prime is odd: multiplying by it modulo 2^32 loses nothing. */
  lemma ProductInjective(a: Word, b: Word)
    requires (a * PRIME) % TWO_32 == (b * PRIME) % TWO_32
    ensures a == b
  {
    var inverse, t := 899433627, 3513497;
    var k := (a * PRIME) / TWO_32 - (b * PRIME) / TWO_32;
    assert a * PRIME - b * PRIME == TWO_32 * k;
    assert a - b == TWO_32 * (inverse * k - t * (a - b));
  }

  lemma StepInjective(h: Word, k: Word, c: Unit, d: Unit)
    ensures FnvStep(h, c) == FnvStep(k, c) ==> h == k
    ensures FnvStep(h, c) == FnvStep(h, d) ==> c == d
  {
    Pow2Word();
    XorBelow(h, c, 32);
    XorBelow(k, c, 32);
    XorBelow(h, d, 32);
    if FnvStep(h, c) == FnvStep(k, c) {
      ProductInjective(Xor(h, c), Xor(k, c));
      XorCancels(h, c);
      XorCancels(k, c);
    }
    if FnvStep(h, c) == FnvStep(h, d) {
      ProductInjective(Xor(h, c), Xor(h, d));
      XorSymmetric(h, c);
      XorSymmetric(h, d);
      XorCancels(c, h);
      XorCancels(d, h);
    }
  }

  lemma {:induction false} SuffixKeepsApart(h: Word, k: Word, rest: Text)
    requires h != k
    ensures FnvFrom(h, rest) != FnvFrom(k, rest)
    decreases |rest|
  {
    if rest == [] {
    } else {
      StepInjective(h, k, rest[0], rest[0]);
      SuffixKeepsApart(FnvStep(h, rest[0]), FnvStep(k, rest[0]), rest[1..]);
    }
  }

  lemma {:induction false} OneUnitFrom(h: Word, before: Text, c: Unit, d: Unit, after: Text)
    requires c != d
    ensures FnvFrom(h, before + [c] + after) != FnvFrom(h, before + [d] + after)
    decreases |before|
  {
    var x, y := before + [c] + after, before + [d] + after;
    if before == [] {
      assert x[0] == c && y[0] == d && x[1..] == after && y[1..] == after;
      StepInjective(h, h, c, d);
      SuffixKeepsApart(FnvStep(h, c), FnvStep(h, d), after);
    } else {
      assert x[1..] == before[1..] + [c] + after && y[1..] == before[1..] + [d] + after;
      OneUnitFrom(FnvStep(h, before[0]), before[1..], c, d, after);
    }
  }

  // ---------------------------------------------------------------- printing

  function HexDigit(n: nat): char
    requires n < 16
  {
    "0123456789abcdef"[n]
  }

  function HexValue(c: char): nat {
    if '0' <= c <= '9' then (c - '0') as nat else if 'a' <= c <= 'f' then (c - 'a') as nat + 10 else 0
  }

  /** `n.toString(16)`. */
  function Hex(n: nat): string {
    if n < 16 then [HexDigit(n)] else Hex(n / 16) + [HexDigit(n % 16)]
  }

  /** `("0000000" + n.toString(16)).slice(-8)`. */
  function Hex8(n: Word): string {
    var padded := "0000000" + Hex(n);
    if |padded| <= 8 then padded else padded[|padded| - 8..]
  }

  function Unhex(s: string): nat {
    if s == "" then 0 else 16 * Unhex(s[..|s| - 1]) + HexValue(s[|s| - 1])
  }

  function Pow16(k: nat): nat { if k == 0 then 1 else 16 * Pow16(k - 1) }

  lemma DigitValue(n: nat)
    requires n < 16
    ensures HexValue(HexDigit(n)) == n
  {
  }

  lemma {:induction false} HexLength(n: nat, k: nat)
    requires 0 < k && n < Pow16(k)
    ensures 1 <= |Hex(n)| <= k
  {
    if n < 16 {
    } else {
      assert k > 1;
      HexLength(n / 16, k - 1);
    }
  }

  lemma UnhexLast(s: string, c: char)
    ensures Unhex(s + [c]) == 16 * Unhex(s) + HexValue(c)
  {
    assert (s + [c])[..|s|] == s;
  }

  lemma {:induction false} UnhexHex(zeros: string, n: nat)
    requires forall i :: 0 <= i < |zeros| ==> zeros[i] == '0'
    ensures Unhex(zeros + Hex(n)) == n
    decreases n
  {
    DigitValue(n % 16);
    if n < 16 {
      UnhexZeros(zeros);
      UnhexLast(zeros, HexDigit(n));
    } else {
      UnhexHex(zeros, n / 16);
      UnhexLast(zeros + Hex(n / 16), HexDigit(n % 16));
      assert zeros + Hex(n) == zeros + Hex(n / 16) + [HexDigit(n % 16)];
    }
  }

  lemma {:induction false} UnhexZeros(zeros: string)
    requires forall i :: 0 <= i < |zeros| ==> zeros[i] == '0'
    ensures Unhex(zeros) == 0
  {
    if zeros == "" {
    } else {
      UnhexZeros(zeros[..|zeros| - 1]);
    }
  }

  lemma Pow16Word()
    ensures Pow16(8) == TWO_32
  {
    assert Pow16(4) == 65536;
  }

  /** The numeral is padded with zeros to eight digits. */
  lemma Hex8Pads(n: Word) returns (zeros: string)
    requires 1 <= |Hex(n)| <= 8
    ensures Hex8(n) == zeros + Hex(n) && |zeros| + |Hex(n)| == 8 && forall i :: 0 <= i < |zeros| ==> zeros[i] == '0'
  {
    zeros := "0000000"[..8 - |Hex(n)|];
    assert Hex8(n) == zeros + Hex(n);
  }

  /** The printed hash is always eight digits, and reads back as the hash. */
  lemma Hex8Reads(n: Word)
    ensures |Hex8(n)| == 8 && Unhex(Hex8(n)) == n
  {
    Pow16Word();
    HexLength(n, 8);
    var zeros := Hex8Pads(n);
    UnhexHex(zeros, n);
  }

  /** Two texts of one length that differ in exactly one code unit never print the same hash. */
  lemma OneUnitDiffers(before: Text, c: Unit, d: Unit, after: Text)
    requires c != d
    ensures Hex8(Fnv1a32(before + [c] + after)) != Hex8(Fnv1a32(before + [d] + after))
  {
    OneUnitFrom(OFFSET, before, c, d, after);
    Hex8Reads(Fnv1a32(before + [c] + after));
    Hex8Reads(Fnv1a32(before + [d] + after));
  }
}
