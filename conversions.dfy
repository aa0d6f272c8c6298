/** The C and Go integer conversions the cgo binding performs on values that
    cross the native call boundary, written out over unbounded integers. */
module Conversions {

  /** C `int` and Go `int32`: what taos_errno, taos_field_count,
      taos_affected_rows and taos_fetch_block return. */
  newtype int32 = x: int | -0x8000_0000 <= x < 0x8000_0000

  const TWO_16: int := 0x1_0000
  const TWO_32: int := 0x1_0000_0000
  const TWO_64: int := 0x1_0000_0000_0000_0000

  function Pow2(k: nat): (p: nat)
    ensures p >= 1
  {
    if k == 0 then 1 else 2 * Pow2(k - 1)
  }

  lemma Pow2Is16()
    ensures Pow2(16) == TWO_16
  {
    assert Pow2(4) == 16;
    assert Pow2(8) == 256;
    assert Pow2(12) == 4096;
  }

  /** Bitwise AND of two non-negative integers, one bit at a time from the
      least significant end (Go's `&` on bit patterns). */
  function And(a: nat, b: nat): (r: nat)
    ensures r <= a && r <= b
  {
    if a == 0 || b == 0 then 0
    else 2 * And(a / 2, b / 2) + (if a % 2 == 1 && b % 2 == 1 then 1 else 0)
  }

  /** AND with a mask of k one-bits keeps exactly the k low bits. */
  lemma {:induction false} AndLowMask(a: nat, k: nat)
    ensures And(a, Pow2(k) - 1) == a % Pow2(k)
  {
    if k == 0 {
    } else if a == 0 {
    } else {
      AndLowMask(a / 2, k - 1);
      var p := Pow2(k - 1);
      assert Pow2(k) - 1 == 2 * (p - 1) + 1;
      assert (Pow2(k) - 1) / 2 == p - 1;
      assert (Pow2(k) - 1) % 2 == 1;
      ModDouble(a, p);
    }
  }

  lemma ModDouble(a: nat, p: nat)
    requires p >= 1
    ensures a % (2 * p) == 2 * ((a / 2) % p) + a % 2
  {
    var q := (a / 2) / p;
    var r := (a / 2) % p;
    assert a / 2 == q * p + r;
    assert a == (2 * p) * q + (2 * r + a % 2);
    ModUnique(a, 2 * p, q, 2 * r + a % 2);
  }

  lemma ModUnique(a: int, d: int, q: int, m: int)
    requires 0 <= m < d
    requires a == d * q + m
    ensures a % d == m
  {
    var q', m' := a / d, a % d;
    assert d * q' + m' == d * q + m;
    if q' != q {
      var k := if q' > q then q' - q else q - q';
      assert d * k == if q' > q then m - m' else m' - m;
      MulAtLeast(d, k);
    }
  }

  lemma MulAtLeast(d: int, k: int)
    requires d > 0 && k >= 1
    ensures d * k >= d
  {
    var j := k - 1;
    assert d * k == d * j + d;
    assert d * j >= 0;
  }

  /** The 32-bit two's-complement bit pattern of a C int, read as unsigned. */
  function Bits32(v: int32): (b: nat)
    ensures b < TWO_32
    ensures (b - v as int) % TWO_32 == 0
    ensures v >= 0 ==> b == v as int
  {
    if v < 0 then v as int + TWO_32 else v as int
  }

  /** Go's `int32(code) & 0xffff`: the low 16 bits of the status word. */
  function Low16(v: int32): (r: int32)
    ensures 0 <= r < TWO_16 as int32
    ensures r as int == v as int % TWO_16
    ensures 0 <= v < TWO_16 as int32 ==> r == v
  {
    var b := Bits32(v);
    Pow2Is16();
    AndLowMask(b, 16);
    assert b % TWO_16 == v as int % TWO_16 by {
      ModUnique(b, TWO_16, b / TWO_16, b % TWO_16);
      ModUnique(v as int, TWO_16, v as int / TWO_16, v as int % TWO_16);
      CongruentMod(b, v as int);
    }
    And(b, 0xffff) as int32
  }

  /** Two values 2^32 apart agree on their low 16 bits. */
  lemma CongruentMod(b: int, v: int)
    requires (b - v) % TWO_32 == 0
    ensures b % TWO_16 == v % TWO_16
  {
    var k := (b - v) / TWO_32;
    assert b - v == TWO_32 * k;
    assert b == v + TWO_16 * (TWO_16 * k);
    var q := v / TWO_16;
    assert v == TWO_16 * q + v % TWO_16;
    assert b == TWO_16 * (q + TWO_16 * k) + v % TWO_16;
    ModUnique(b, TWO_16, q + TWO_16 * k, v % TWO_16);
  }

  /** The cgo conversion `(C.ushort)(x)` of a Go int: truncation to 16 bits. */
  function ToUShort(x: int): (r: nat)
    ensures r < TWO_16
    ensures (x - r) % TWO_16 == 0
    ensures 0 <= x < TWO_16 ==> r == x
  {
    x % TWO_16
  }

  /** Go's `uint(v)` of a C int on a 64-bit platform: a negative value wraps
      around to a large unsigned one. */
  function ToUint(v: int32): (r: nat)
    ensures r < TWO_64
    ensures (r - v as int) % TWO_64 == 0
    ensures v >= 0 ==> r == v as int
    ensures v < 0 ==> r == v as int + TWO_64
  {
    if v < 0 then v as int + TWO_64 else v as int
  }
}
