/** JavaScript numbers as the workout logic sees them. Finite values are exact
    reals (IEEE-754 rounding is not modelled); the non-finite values are kept
    apart so that `Number.isFinite` and the `> 0` test can be stated. */
module Numbers {

  datatype Num = Finite(value: real) | PositiveInfinity | NegativeInfinity | NaN

  /** `Number.isFinite(x)` */
  predicate IsFinite(x: Num)
    ensures IsFinite(x) <==> !(x.PositiveInfinity? || x.NegativeInfinity? || x.NaN?)
  {
    x.Finite?
  }

  /** `x > 0`: Infinity is greater than zero, NaN and -Infinity are not. */
  predicate IsPositive(x: Num)
    ensures IsPositive(x) ==> !x.NaN? && !x.NegativeInfinity?
    ensures x.Finite? ==> (IsPositive(x) <==> x.value > 0.0)
  {
    match x
    case Finite(v) => v > 0.0
    case PositiveInfinity => true
    case NegativeInfinity => false
    case NaN => false
  }

  /** `a / b` for finite operands: the exact quotient when `b` is not zero,
      otherwise NaN for `0 / 0` and an infinity carrying the sign of `a`
      (the divisor is taken to be +0). */
  function Divide(a: real, b: real): (q: Num)
    ensures q.Finite? <==> b != 0.0
    ensures q.Finite? ==> q.value * b == a
    ensures q.NaN? <==> a == 0.0 && b == 0.0
    ensures q.PositiveInfinity? <==> a > 0.0 && b == 0.0
    ensures q.NegativeInfinity? <==> a < 0.0 && b == 0.0
  {
    if b != 0.0 then Finite(a / b)
    else if a == 0.0 then NaN
    else if a > 0.0 then PositiveInfinity
    else NegativeInfinity
  }
}
