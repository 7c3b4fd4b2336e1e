/** `roundnextpow2up`: rounding a C `int` up to the next power of two by
    smearing its highest set bit downwards. The plane texture sizes of the
    mesh tracker are produced by it. */
module RoundPow2 {

  /** A C `int`, held as its 32-bit two's-complement bit pattern. */
  type CInt = bv32

  /** The bit pattern of INT_MIN, which is also 2^31 read unsigned. */
  const IntMinBits: CInt := 0x8000_0000

  predicate IsNegative(x: CInt) {
    x >= IntMinBits
  }

  predicate IsPositive(x: CInt) {
    0 < x < IntMinBits
  }

  /** Exactly one bit of `p` is set: `p` is a power of two read unsigned. */
  predicate IsPow2(p: bv32) {
    p != 0 && p & (p - 1) == 0
  }

  /** Reference definition: `r` is a power of two, at least `x`, and no
      power of two that is at least `x` is smaller. */
  ghost predicate IsLeastPow2AtLeast(x: bv32, r: bv32) {
    IsPow2(r) && x <= r && forall p :: IsPow2(p) && x <= p ==> r <= p
  }

  /** There is at most one least power of two. */
  lemma LeastPow2Unique(x: bv32, r: bv32, r': bv32)
    requires IsLeastPow2AtLeast(x, r) && IsLeastPow2AtLeast(x, r')
    ensures r == r'
  {
  }

  /** The least power of two that is at least `x`; it exists for every `x`
      up to 2^31. */
  ghost function LeastPow2AtLeast(x: bv32): (r: bv32)
    requires 1 <= x <= IntMinBits
    ensures IsLeastPow2AtLeast(x, r)
  {
    SmearIsLeastPow2(x);
    var r :| IsLeastPow2AtLeast(x, r); r
  }

  /** What `roundnextpow2up` returns: 0 for a negative or zero argument,
      otherwise the least power of two not below it. For arguments above 2^30
      that power is 2^31, whose `int` reading is INT_MIN. */
  ghost function NextPow2(x: CInt): CInt {
    if IsNegative(x) || x == 0 then 0 else LeastPow2AtLeast(x)
  }

  /** For 1 <= x <= 2^30 the result is a power of two p with x <= p < 2x. */
  lemma NextPow2Bounds(x: CInt)
    requires 1 <= x <= 0x4000_0000
    ensures var p := NextPow2(x); IsPow2(p) && x <= p < 2 * x
  {
    var p := NextPow2(x);
    var q := Smear(x - 1) + 1;
    SmearIsLeastPow2(x);
    LeastPow2Unique(x, p, q);
  }

  /** A power of two is returned unchanged. */
  lemma NextPow2OfPow2(x: CInt)
    requires IsPow2(x) && !IsNegative(x)
    ensures NextPow2(x) == x
  {
  }

  /** Every positive `int` is rounded to a power of two not below it (as
      unsigned bits); above 2^30 that is the bit pattern of INT_MIN. */
  lemma NextPow2OfPositive(x: CInt)
    requires IsPositive(x)
    ensures IsPow2(NextPow2(x)) && x <= NextPow2(x)
    ensures x > 0x4000_0000 ==> NextPow2(x) == IntMinBits
  {
    if x > 0x4000_0000 {
      assert IsPow2(IntMinBits);
    }
  }

  /** The smear: the highest set bit is copied into every lower bit, so the
      result keeps every bit of `v`. */
  function Smear(v: bv32): (r: bv32)
    ensures r & v == v
  {
    var a := v | (v >> 1);
    var b := a | (a >> 2);
    var c := b | (b >> 4);
    var d := c | (c >> 8);
    d | (d >> 16)
  }

  /** Smearing `x - 1` and adding one gives the least power of two that is
      at least `x`. */
  lemma SmearIsLeastPow2(x: bv32)
    requires 1 <= x <= IntMinBits
    ensures IsLeastPow2AtLeast(x, Smear(x - 1) + 1)
  {
    var s := Smear(x - 1) + 1;
    forall p | IsPow2(p) && x <= p
      ensures s <= p
    {
    }
  }

  /** `roundnextpow2up`, step by step. C's `>>` on a signed `int` is an
      arithmetic shift; the only negative value shifted here is -1 (from an
      argument of 0), for which the arithmetic and the logical shift give the
      same all-ones result once OR-ed back, so a logical shift is used. */
  method RoundNextPow2Up(x0: CInt) returns (r: CInt)
    ensures r == NextPow2(x0)
  {
    if IsNegative(x0) {
      return 0;
    }
    var x := x0 - 1;
    x := x | (x >> 1);
    x := x | (x >> 2);
    x := x | (x >> 4);
    x := x | (x >> 8);
    x := x | (x >> 16);
    r := x + 1;
    if x0 != 0 {
      SmearIsLeastPow2(x0);
      LeastPow2Unique(x0, r, NextPow2(x0));
    }
  }
}
