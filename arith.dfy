/**
 * Integer facts behind the dashboard's page counts and time labels:
 * `Math.floor(a / b)` for a positive `b` is Dafny's `/`.
 */
module Arith {

  /** `a * k < b * k` with a positive `k` means `a < b`. */
  lemma MulCancelLess(a: int, b: int, k: int)
    requires k > 0 && a * k < b * k
    ensures a < b
  {
  }

  /** The quotient is the only `q` leaving a remainder in `[0, d)`. */
  lemma DivUnique(a: int, d: int, q: int, r: int)
    requires d > 0 && a == d * q + r && 0 <= r < d
    ensures a / d == q
  {
    var q0 := a / d;
    assert d * q0 <= a < d * q0 + d;
    assert (q0 - q) * d == d * q0 - d * q;
    assert (q - q0) * d == d * q - d * q0;
    MulCancelLess(q0 - q, 1, d);
    MulCancelLess(q - q0, 1, d);
  }

  lemma MulLeft(k: int, x: int, y: int)
    requires k > 0 && x <= y
    ensures k * x <= k * y
  {
  }

  lemma Distribute(b: int, c: int, q: int, r: int)
    ensures b * (c * q + r) == (b * c) * q + b * r
  {
  }

  /** Flooring twice is flooring once by the product. */
  lemma {:induction false} NestedFloor(a: int, b: int, c: int)
    requires b > 0 && c > 0
    ensures (a / b) / c == a / (b * c)
  {
    var q1, r1 := a / b, a % b;
    var q2, r2 := q1 / c, q1 % c;
    assert a == b * q1 + r1;
    assert q1 == c * q2 + r2;
    Distribute(b, c, q2, r2);
    assert a == (b * c) * q2 + (b * r2 + r1);
    MulLeft(b, r2, c - 1);
    Distribute(b, 1, c - 1, 0);
    assert b * (c - 1) == b * c - b;
    DivUnique(a, b * c, q2, b * r2 + r1);
  }
}
