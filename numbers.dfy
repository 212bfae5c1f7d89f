/** JavaScript numbers as far as the arithmetic of the pages can see them:
    a finite value (a real, so without rounding error), NaN, or one of the
    two infinities that a division by zero produces. */
module Numbers {

  datatype Number = Finite(value: real) | NaN | Infinity | NegInfinity

  /** `a / b` on finite operands. */
  function Divide(a: real, b: real): (r: Number)
    ensures b != 0.0 ==> r == Finite(a / b)
    ensures b == 0.0 ==> (r == NaN <==> a == 0.0) && (r == Infinity <==> a > 0.0) && (r == NegInfinity <==> a < 0.0)
    ensures r.Finite? <==> b != 0.0
    ensures r.Finite? ==> r.value * b == a
  {
    if b != 0.0 then Finite(a / b)
    else if a > 0.0 then Infinity
    else if a < 0.0 then NegInfinity
    else NaN
  }

  /** `n * k` for a positive constant `k`. */
  function Scale(n: Number, k: real): (r: Number)
    requires k > 0.0
    ensures r.Finite? <==> n.Finite?
    ensures n.Finite? ==> r.value == n.value * k
    ensures !n.Finite? ==> r == n
  {
    if n.Finite? then Finite(n.value * k) else n
  }

  function Floor(x: real): int {
    x.Floor
  }

  /** `Math.round`: the nearest integer, halves rounded up. */
  function Round(n: Number): (r: Number)
    ensures r.Finite? <==> n.Finite?
    ensures n.Finite? ==> r.value - 0.5 <= n.value < r.value + 0.5
    ensures n.Finite? ==> r.value == r.value.Floor as real
    ensures !n.Finite? ==> r == n
  {
    if n.Finite? then Finite(Floor(n.value + 0.5) as real) else n
  }

  /** `Math.min(bound, n)`: NaN stays NaN, the infinities are ordered. */
  function Min(bound: real, n: Number): (r: Number)
    ensures n.Finite? ==> r == Finite(if n.value <= bound then n.value else bound)
    ensures n == NaN ==> r == NaN
    ensures n == Infinity ==> r == Finite(bound)
    ensures n == NegInfinity ==> r == NegInfinity
  {
    match n
    case Finite(v) => Finite(if v <= bound then v else bound)
    case NaN => NaN
    case Infinity => Finite(bound)
    case NegInfinity => NegInfinity
  }

  /** `Math.ceil` on a finite value. */
  function Ceil(x: real): (r: int)
    ensures r as real - 1.0 < x <= r as real
  {
    -((-x).Floor)
  }
}
