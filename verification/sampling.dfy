/** Random draws as the pipeline consumes them.

    Every call to p5's `random(a, b)` is modelled by a unit draw `u` in [0, 1)
    supplied by the caller, mapped onto the range exactly as p5 does it: the
    two bounds are ordered first (so `random(0, -0.2)` draws from [-0.2, 0)),
    then the value is `lo + u * (hi - lo)`.
 */
module Sampling {

  /** A value of the underlying uniform generator. */
  type Unit = u: real | 0.0 <= u < 1.0

  function Min(a: real, b: real): real { if a <= b then a else b }
  function Max(a: real, b: real): real { if a <= b then b else a }

  /** p5's `random(a, b)` for the unit draw `u`. */
  function Random(u: Unit, a: real, b: real): (v: real)
    ensures Min(a, b) <= v <= Max(a, b)
    ensures a != b ==> v < Max(a, b)
    ensures a == b ==> v == a
  {
    if a > b then Scaled(u, b, a) else Scaled(u, a, b)
  }

  /** The point a fraction `u` of the way from `lo` to `hi`. */
  function Scaled(u: Unit, lo: real, hi: real): (v: real)
    requires lo <= hi
    ensures lo <= v <= hi
    ensures lo < hi ==> v < hi
    ensures lo == hi ==> v == lo
  {
    var d := hi - lo;
    var p := u * d;
    UnitScale(u, d, p);
    lo + p
  }

  /** Scaling a non-negative width by a unit draw stays inside the width,
      strictly when the width is positive. */
  lemma UnitScale(u: real, d: real, p: real)
    requires 0.0 <= u < 1.0 && d >= 0.0 && p == u * d
    ensures 0.0 <= p <= d
    ensures d > 0.0 ==> p < d
    ensures d == 0.0 ==> p == 0.0
  {
    NonNegativeProduct(u, d);
    NonNegativeProduct(1.0 - u, d);
    assert (1.0 - u) * d == d - p;
    if d > 0.0 {
      PositiveProduct(1.0 - u, d);
    }
  }

  lemma NonNegativeProduct(x: real, y: real)
    requires 0.0 <= x && 0.0 <= y
    ensures 0.0 <= x * y
  {}

  lemma PositiveProduct(x: real, y: real)
    requires 0.0 < x && 0.0 < y
    ensures 0.0 < x * y
  {}

  /** `floor(random(0, n))`: the index `drawImage` picks when it is given -1. */
  function RandomIndex(u: Unit, n: nat): (i: int)
    ensures n > 0 ==> 0 <= i < n
    ensures n == 0 ==> i == 0
  {
    var v := Random(u, 0.0, n as real);
    assert 0.0 <= v;
    assert n > 0 ==> v < n as real;
    v.Floor
  }
}
