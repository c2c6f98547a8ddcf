/**
 The fragment of C integer arithmetic the simulator relies on: the `int32_t`
 range, division that truncates toward zero, and the `clamp_i32` helper of
 Boundary-of-Spheres.c.
 */
module CArith {

  const Int32Min: int := -0x8000_0000
  const Int32Max: int := 0x7FFF_FFFF

  /** The values of an `int32_t`. */
  type Int32 = x: int | Int32Min <= x <= Int32Max

  /** C's `a / b` for a positive divisor: the quotient truncated toward zero
      (Dafny's own `/` is Euclidean and differs for negative `a`). */
  function Quot(a: int, b: int): (q: int)
    requires b > 0
    ensures 0 <= a ==> 0 <= q && q * b <= a < q * b + b
    ensures a <= 0 ==> q <= 0 && a <= q * b < a + b
    ensures -b < a < b ==> q == 0
  {
    if a >= 0 then a / b else -((-a) / b)
  }

  /** Truncating division is monotone in the dividend. */
  lemma QuotMonotone(a: int, a': int, b: int)
    requires b > 0 && a <= a'
    ensures Quot(a, b) <= Quot(a', b)
  {
    var q, q' := Quot(a, b), Quot(a', b);
    if 0 <= a || a' < 0 {
      assert q * b < q' * b + b;
      MulCancel(q, q', b);
    }
  }

  /** `x * b < y * b + b` with a positive `b` forces `x <= y`. */
  lemma MulCancel(x: int, y: int, b: int)
    requires b > 0 && x * b < y * b + b
    ensures x <= y
  {
    if x > y {
      MulNonneg(x - y - 1, b);
      assert false;
    }
  }

  lemma MulNonneg(x: int, y: int)
    requires 0 <= x && 0 <= y
    ensures 0 <= x * y
  {
  }

  /** `clamp_i32(v, lo, hi)`: `lo` below the range, `hi` above it, `v` itself otherwise. */
  function Clamp(v: int, lo: int, hi: int): (r: int)
    ensures lo <= hi ==> lo <= r <= hi
    ensures lo <= v <= hi ==> r == v
    ensures r == v || r == lo || r == hi
  {
    if v < lo then lo
    else if v > hi then hi
    else v
  }

  /** Of all points of a non-empty range, the clamp of `v` is a nearest one to `v`. */
  lemma ClampIsNearest(v: int, lo: int, hi: int, x: int)
    requires lo <= x <= hi
    ensures Dist(Clamp(v, lo, hi), v) <= Dist(x, v)
  {
  }

  /** Clamping to a fixed range preserves order. */
  lemma ClampMonotone(v: int, v': int, lo: int, hi: int)
    requires lo <= hi && v <= v'
    ensures Clamp(v, lo, hi) <= Clamp(v', lo, hi)
  {
  }

  function Dist(a: int, b: int): nat {
    if a <= b then b - a else a - b
  }

  function Max(a: int, b: int): int {
    if a >= b then a else b
  }

  function Min(a: int, b: int): int {
    if a <= b then a else b
  }
}
