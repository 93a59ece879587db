/** Fixed-width integer types and the integer rescale/saturate steps of the
    quantized kernels in cnn.h. */
module Arith {
  import opened Tensor

  newtype Int8 = x: int | -0x80 <= x < 0x80
  newtype UInt8 = x: int | 0 <= x < 0x100
  newtype Int32 = x: int | -0x8000_0000 <= x < 0x8000_0000

  /** The elements of `s`, each converted by `f`. */
  function Ints<T>(s: seq<T>, f: T -> int): (r: seq<int>)
    ensures |r| == |s| && forall i :: 0 <= i < |s| ==> r[i] == f(s[i])
  {
    seq(|s|, i requires 0 <= i < |s| => f(s[i]))
  }

  /** An int8 buffer read as integers. */
  function I8(s: seq<Int8>): seq<int>
  {
    Ints(s, (x: Int8) => x as int)
  }

  /** A uint8 buffer read as integers. */
  function U8(s: seq<UInt8>): seq<int>
  {
    Ints(s, (x: UInt8) => x as int)
  }

  /** An int32 buffer read as integers. */
  function I32(s: seq<Int32>): seq<int>
  {
    Ints(s, (x: Int32) => x as int)
  }

  function Pow2(k: nat): (r: int)
    ensures r >= 1
  {
    if k == 0 then 1 else 2 * Pow2(k - 1)
  }

  /** `(int32_t)v`: the value in [-2^31, 2^31) congruent to `v` modulo 2^32. */
  function Wrap32(v: int): (r: int)
    ensures -0x8000_0000 <= r < 0x8000_0000
    ensures (v - r) % 0x1_0000_0000 == 0
    ensures -0x8000_0000 <= v < 0x8000_0000 ==> r == v
  {
    (v + 0x8000_0000) % 0x1_0000_0000 - 0x8000_0000
  }

  /** `(int8_t)v`: the value in [-128, 128) congruent to `v` modulo 256. */
  function Wrap8(v: int): (r: int)
    ensures -0x80 <= r < 0x80
    ensures (v - r) % 0x100 == 0
    ensures -0x80 <= v < 0x80 ==> r == v
  {
    (v + 0x80) % 0x100 - 0x80
  }

  /** `(uint8_t)v`: the value in [0, 256) congruent to `v` modulo 256. */
  function WrapU8(v: int): (r: int)
    ensures 0 <= r < 0x100
    ensures (v - r) % 0x100 == 0
    ensures 0 <= v < 0x100 ==> r == v
  {
    v % 0x100
  }

  /** `std::min(std::max(v, lo), hi)`: saturation to [lo, hi]; when the
      bounds cross, the upper one wins. */
  function Clamp(v: int, lo: int, hi: int): (r: int)
    ensures lo <= hi ==> lo <= r <= hi
    ensures lo <= v <= hi ==> r == v
    ensures v < lo && lo <= hi ==> r == lo
    ensures v > hi ==> r == hi
    ensures lo > hi ==> r == hi
  {
    var m := if v < lo then lo else v;
    if hi < m then hi else m
  }

  /** `((int64_t)acc * m0 + (1 << (30 + n))) >> (31 + n)`: the product
      acc * m0 divided by 2^(31+n) and rounded to the nearest integer,
      halves rounded up. */
  function RoundingRescale(acc: int, m0: int, n: int): (r: int)
    requires -30 <= n <= 32
    ensures Pow2(31 + n) * (2 * r - 1) <= 2 * (acc * m0) < Pow2(31 + n) * (2 * r + 1)
  {
    var d := Pow2(31 + n);
    var half := Pow2(30 + n);
    var v := acc * m0 + half;
    DivBounds(v, d);
    HalfBounds(acc * m0, half, d, v / d);
    v / d
  }

  /** `((int64_t)acc * m0) >> n`: the product divided by 2^n, rounded down. */
  function FloorRescale(acc: int, m0: int, n: int): (r: int)
    requires 0 <= n < 64
    ensures Pow2(n) * r <= acc * m0 < Pow2(n) * (r + 1)
  {
    DivBounds(acc * m0, Pow2(n));
    acc * m0 / Pow2(n)
  }

  /** Euclidean division by a positive divisor rounds down. */
  lemma DivBounds(v: int, d: int)
    requires d > 0
    ensures d * (v / d) <= v < d * (v / d) + d
  {
    assert v == d * (v / d) + v % d;
  }

  /** Adding half the divisor before rounding down rounds to the nearest quotient. */
  lemma HalfBounds(p: int, half: int, d: int, q: int)
    requires d == 2 * half && d * q <= p + half < d * q + d
    ensures d * (2 * q - 1) <= 2 * p < d * (2 * q + 1)
  {
    assert d * (2 * q - 1) == 2 * (d * q) - d;
    assert d * (2 * q + 1) == 2 * (d * q) + d;
  }

  /** The steps of Conv2D_int8_int8 after the bias is added: rescale with
      rounding, wrap to int32, add the output offset, saturate, narrow to int8. */
  function Requantize(acc: int, m0: int, n: int, outputOffset: int, lo: int, hi: int): (r: int)
    requires -30 <= n <= 32
    ensures -0x80 <= r < 0x80
    ensures -0x80 <= lo <= hi < 0x80 ==>
              lo <= r <= hi && r == Clamp(Wrap32(RoundingRescale(acc, m0, n)) + outputOffset, lo, hi)
  {
    Wrap8(Clamp(Wrap32(RoundingRescale(acc, m0, n)) + outputOffset, lo, hi))
  }

  /** The steps of Conv2D_uint8_uint8 after the bias is added: no offsets and
      no rounding term; rescale down, wrap to int32, saturate, narrow to uint8. */
  function RequantizeUnsigned(acc: int, m0: int, n: int, lo: int, hi: int): (r: int)
    requires 0 <= n < 64
    ensures 0 <= r < 0x100
    ensures 0 <= lo <= hi < 0x100 ==>
              lo <= r <= hi && r == Clamp(Wrap32(FloorRescale(acc, m0, n)), lo, hi)
  {
    WrapU8(Clamp(Wrap32(FloorRescale(acc, m0, n)), lo, hi))
  }

  /** The 64-bit intermediate `(int64_t)acc * m0 + (1 << (30 + n))` of the
      rounding rescale stays within int64 for every int32 accumulator and
      every non-negative int32 multiplier. */
  lemma RescaleFitsInt64(acc: int, m0: int, n: int)
    requires -0x8000_0000 <= acc < 0x8000_0000 && 0 <= m0 < 0x8000_0000 && -30 <= n <= 32
    ensures -0x8000_0000_0000_0000 <= acc * m0 + Pow2(30 + n) < 0x8000_0000_0000_0000
  {
    Pow2Value62();
    Pow2Mono(30 + n, 62);
    if acc >= 0 {
      MulBelow(acc, m0, 0x8000_0000);
    } else {
      MulBelow(-acc, m0, 0x8000_0001);
      assert acc * m0 == -((-acc) * m0);
    }
  }

  /** The one int32 corner where that intermediate leaves int64: accumulator
      and multiplier both -2^31 with shift 32 give exactly 2^63. */
  lemma RescaleOverflowsInt64()
    ensures (-0x8000_0000) * (-0x8000_0000) + Pow2(30 + 32) == 0x8000_0000_0000_0000
  {
    Pow2Value62();
  }

  /** Both factors below `b` (and non-negative) keep the product below b * b. */
  lemma MulBelow(a: int, m: int, b: int)
    requires 0 <= a < b && 0 <= m < b
    ensures 0 <= a * m <= (b - 1) * (b - 1)
  {
    MulMono(0, a, m);
    MulMono(a, b - 1, m);
    MulMono(m, b - 1, b - 1);
    assert (b - 1) * m == m * (b - 1);
  }

  lemma {:induction false} Pow2Mono(a: nat, b: nat)
    requires a <= b
    ensures Pow2(a) <= Pow2(b)
  {
    if a < b {
      Pow2Mono(a, b - 1);
    }
  }

  /** With multiplier 2^30 and shift -1 the rescale is the identity. */
  lemma IdentityRescale(acc: int)
    ensures RoundingRescale(acc, 0x4000_0000, -1) == acc
  {
    var r := RoundingRescale(acc, 0x4000_0000, -1);
    Pow2Value30();
    assert Pow2(30) * (2 * r - 1) <= Pow2(30) * (2 * acc) < Pow2(30) * (2 * r + 1);
  }

  /** With multiplier 2^30 and shift 30 every accumulator of magnitude below
      2^30 rescales to 0: the real multiplier is 2^-31, not 1. */
  lemma VanishingRescale(acc: int)
    requires -0x4000_0000 <= acc < 0x4000_0000
    ensures RoundingRescale(acc, 0x4000_0000, 30) == 0
  {
    var r := RoundingRescale(acc, 0x4000_0000, 30);
    Pow2Value61();
    var d := 0x2000_0000_0000_0000;
    assert d * (2 * r - 1) <= 2 * (acc * 0x4000_0000) < d * (2 * r + 1);
    assert -d <= 2 * (acc * 0x4000_0000) < d;
  }

  lemma Pow2Value30()
    ensures Pow2(30) == 0x4000_0000
  {
    assert Pow2(10) == 0x400;
    assert Pow2(20) == 0x10_0000;
  }

  lemma Pow2Value62()
    ensures Pow2(62) == 0x4000_0000_0000_0000
  {
    Pow2Value61();
  }

  lemma Pow2Value61()
    ensures Pow2(61) == 0x2000_0000_0000_0000
  {
    Pow2Value30();
    assert Pow2(40) == 0x100_0000_0000;
    assert Pow2(50) == 0x4_0000_0000_0000;
    assert Pow2(60) == 0x1000_0000_0000_0000;
  }
}
