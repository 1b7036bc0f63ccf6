/**
 * JavaScript's `number` type as the lucky-canvas core uses it.
 *
 * Finite values are exact reals (IEEE-754 rounding and the sign of zero are
 * not modelled); the two infinities and NaN are kept apart because the source
 * divides by quantities that can be zero and then tests the result for
 * truthiness.
 */
module JsNumbers {

  datatype Number = Finite(value: real) | PosInf | NegInf | NaN

  /** JavaScript truthiness of a number: everything except 0 and NaN. */
  predicate Truthy(n: Number) {
    n != NaN && n != Finite(0.0)
  }

  /** The sign of a non-NaN number: -1, 0 or 1. */
  function Sign(n: Number): (s: int)
    requires n != NaN
    ensures -1 <= s <= 1
    ensures s == 0 <==> n == Finite(0.0)
  {
    match n
    case Finite(v) => if v > 0.0 then 1 else if v < 0.0 then -1 else 0
    case PosInf => 1
    case NegInf => -1
  }

  /** The infinity with the given sign. */
  function Infinity(sign: int): (r: Number)
    requires sign != 0
    ensures r.PosInf? || r.NegInf?
    ensures Sign(r) == (if sign > 0 then 1 else -1)
  {
    if sign > 0 then PosInf else NegInf
  }

  /** Unary minus. */
  function Neg(a: Number): (r: Number)
    ensures a.Finite? ==> r == Finite(-a.value)
    ensures a.NaN? <==> r.NaN?
    ensures a != NaN ==> Sign(r) == -Sign(a)
  {
    match a
    case Finite(v) => Finite(-v)
    case PosInf => NegInf
    case NegInf => PosInf
    case NaN => NaN
  }

  /** `a + b`: opposite infinities give NaN. */
  function Add(a: Number, b: Number): (r: Number)
    ensures a.Finite? && b.Finite? ==> r == Finite(a.value + b.value)
    ensures (a.NaN? || b.NaN?) ==> r.NaN?
    ensures r.Finite? ==> a.Finite? && b.Finite?
  {
    if a.NaN? || b.NaN? then NaN
    else if a.Finite? && b.Finite? then Finite(a.value + b.value)
    else if a.Finite? then b
    else if b.Finite? then a
    else if a == b then a
    else NaN
  }

  /** `a - b`. */
  function Sub(a: Number, b: Number): (r: Number)
    ensures a.Finite? && b.Finite? ==> r == Finite(a.value - b.value)
    ensures (a.NaN? || b.NaN?) ==> r.NaN?
  {
    Add(a, Neg(b))
  }

  /** `a * b`: an infinity times zero gives NaN. */
  function Mul(a: Number, b: Number): (r: Number)
    ensures a.Finite? && b.Finite? ==> r == Finite(a.value * b.value)
    ensures (a.NaN? || b.NaN?) ==> r.NaN?
    ensures r.Finite? ==> a.Finite? && b.Finite?
  {
    if a.NaN? || b.NaN? then NaN
    else if a.Finite? && b.Finite? then Finite(a.value * b.value)
    else if Sign(a) == 0 || Sign(b) == 0 then NaN
    else Infinity(Sign(a) * Sign(b))
  }

  /**
   * `a / b`: a non-zero number over zero is an infinity with the sign of the
   * numerator (the divisor is taken as +0), 0 / 0 and an infinity over an
   * infinity are NaN, and a finite number over an infinity is 0.
   */
  function Div(a: Number, b: Number): (r: Number)
    ensures a.Finite? && b.Finite? && b.value != 0.0 ==> r == Finite(a.value / b.value)
    ensures a.Finite? && b == Finite(0.0) ==> !r.Finite?
    ensures (a.NaN? || b.NaN?) ==> r.NaN?
  {
    if a.NaN? || b.NaN? then NaN
    else if a.Finite? && b.Finite? then
      if b.value != 0.0 then Finite(a.value / b.value)
      else if a.value == 0.0 then NaN
      else Infinity(Sign(a))
    else if a.Finite? then Finite(0.0)
    else if b.Finite? then
      (if b.value == 0.0 then a else Infinity(Sign(a) * Sign(b)))
    else NaN
  }

  /** `Math.abs`. */
  function Abs(a: Number): (r: Number)
    ensures a.Finite? ==> r.Finite? && r.value >= 0.0 && (r.value == a.value || r.value == -a.value)
    ensures a.NaN? <==> r.NaN?
    ensures (a.PosInf? || a.NegInf?) ==> r.PosInf?
  {
    match a
    case Finite(v) => Finite(if v < 0.0 then -v else v)
    case PosInf => PosInf
    case NegInf => PosInf
    case NaN => NaN
  }

  /** Multiplying by one leaves every number, NaN and the infinities included, as it was. */
  lemma MulOne(a: Number)
    ensures Mul(a, Finite(1.0)) == a
  {
  }

  /** Dividing a product by a finite non-zero factor recovers the other factor. */
  lemma MulDivCancel(x: real, d: real)
    requires d != 0.0
    ensures Div(Mul(Finite(x), Finite(d)), Finite(d)) == Finite(x)
  {
    var p := x * d;
    var q := p / d;
    assert q * d == p;
    assert d * q == d * x;
    CancelNonZero(d, q, x);
  }

  /** A non-zero factor can be cancelled from both sides of an equation. */
  lemma CancelNonZero(d: real, a: real, b: real)
    requires d != 0.0 && d * a == d * b
    ensures a == b
  {
    assert d * (a - b) == 0.0;
  }
}
