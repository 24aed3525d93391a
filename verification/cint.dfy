/**
 * The C `int` the program computes with: a 32-bit two's-complement integer.
 * Mathematical integers are unbounded in Dafny, so every place where the
 * C code can leave this range is written out with `Wrap32`, and C's
 * truncating `%` is written out with `CRem`.
 */
module CInt {
  const INT_MIN: int := -0x8000_0000
  const INT_MAX: int := 0x7fff_ffff
  const TWO_32: int := 0x1_0000_0000

  type Int32 = x: int | INT_MIN <= x <= INT_MAX

  /** The value a 32-bit register holds after computing `x`: `x` reduced modulo 2^32 into the signed range. */
  function Wrap32(x: int): (r: Int32)
    ensures (r - x) % TWO_32 == 0
    ensures INT_MIN <= x <= INT_MAX ==> r == x
  {
    var m := (x - INT_MIN) % TWO_32;
    m + INT_MIN
  }

  /**
   * C's `a % 360`: the remainder of division truncated toward zero, so it
   * takes the sign of `a` (Dafny's own `%` is Euclidean and never negative).
   */
  function CRem360(a: int): (r: int)
    ensures -360 < r < 360
    ensures a >= 0 ==> r >= 0
    ensures a <= 0 ==> r <= 0
    ensures (a - r) % 360 == 0
  {
    if a >= 0 then a % 360 else -((-a) % 360)
  }

  /** The remainder is the only value with the sign of `a`, below 360 in magnitude, congruent to `a`. */
  lemma {:induction false} CRem360Unique(a: int, r: int)
    requires -360 < r < 360 && (a >= 0 ==> r >= 0) && (a <= 0 ==> r <= 0) && (a - r) % 360 == 0
    ensures CRem360(a) == r
  {
    var q := CRem360(a);
    assert (a - q) % 360 == 0;
    assert a - r == ((a - r) / 360) * 360;
    assert a - q == ((a - q) / 360) * 360;
    var k := (a - r) / 360 - (a - q) / 360;
    assert q - r == k * 360;
    assert -720 < q - r < 720;
  }

  /** Reducing twice is reducing once. */
  lemma {:induction false} CRem360Idempotent(a: int)
    ensures CRem360(CRem360(a)) == CRem360(a)
  {
    var r := CRem360(a);
    CRem360Unique(r, r);
  }
}
