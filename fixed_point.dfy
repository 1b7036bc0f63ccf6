/**
 * `Number.prototype.toFixed(8)` followed by unary `+`, as `getArcPointerByDeg`
 * uses it: round to 8 decimals and read the digits back as a number.
 */
module JsToFixed {
  import opened JsNumbers

  /** 10^8, the scale of `toFixed(8)`. */
  const Fixed8Scale: real := 100000000.0

  /** Half a unit in the 8th decimal: the most `toFixed(8)` moves a value. */
  const Fixed8HalfStep: real := 0.000000005

  /** `a` is `b` rounded to 8 decimals or closer: they differ by at most half a step. */
  predicate Within8(a: real, b: real) {
    -Fixed8HalfStep <= a - b <= Fixed8HalfStep
  }

  /** `r` is a whole number of steps of 10^-8. */
  predicate OnGrid8(r: real) {
    (r * Fixed8Scale).Floor as real == r * Fixed8Scale
  }

  /** Below 10^21 in magnitude `toFixed(8)` rounds; from there on it prints every digit. */
  predicate RoundsAt8(x: real) {
    -1000000000000000000000.0 < x < 1000000000000000000000.0
  }

  /**
   * What `+x.toFixed(8)` returns for `x`: a point of the 10^-8 grid within
   * half a step of `x`, a tie going to the grid point farther from zero;
   * a magnitude of 10^21 or more comes back unchanged.
   */
  predicate RoundedTo8(r: real, x: real) {
    if RoundsAt8(x) then
      && Within8(r, x) && OnGrid8(r)
      && (x >= 0.0 ==> x - Fixed8HalfStep < r)
      && (x < 0.0 ==> r < x + Fixed8HalfStep)
    else
      r == x
  }

  /** An integer number of steps lies on the grid. */
  lemma StepsOnGrid(n: int)
    ensures OnGrid8(n as real / Fixed8Scale)
  {
    var r := n as real / Fixed8Scale;
    assert r * Fixed8Scale == n as real;
    assert (n as real).Floor == n;
  }

  /**
   * `+x.toFixed(8)` on exact reals: round to 8 decimals, halves away from zero;
   * a magnitude of 10^21 or more is printed in full and comes back unchanged.
   */
  function ToFixed8(x: real): (r: real)
    ensures RoundedTo8(r, x)
    ensures Within8(r, x)
    ensures x >= 0.0 ==> r >= 0.0
    ensures x <= 0.0 ==> r <= 0.0
  {
    if !RoundsAt8(x) then x
    else if x >= 0.0 then
      var n := (x * Fixed8Scale + 0.5).Floor;
      StepsOnGrid(n);
      assert n as real > x * Fixed8Scale - 0.5;
      n as real / Fixed8Scale
    else
      var n := ((-x) * Fixed8Scale + 0.5).Floor;
      StepsOnGrid(-n);
      assert n as real > (-x) * Fixed8Scale - 0.5;
      assert -(n as real / Fixed8Scale) == (-n) as real / Fixed8Scale;
      -(n as real / Fixed8Scale)
  }

  /**
   * `RoundedTo8` leaves no choice: two values that both round `x` as
   * `toFixed(8)` does are equal, so `ToFixed8` is the only function meeting
   * its contract.
   */
  lemma {:induction false} RoundedTo8Unique(r1: real, r2: real, x: real)
    requires RoundedTo8(r1, x) && RoundedTo8(r2, x)
    ensures r1 == r2
  {
    if RoundsAt8(x) {
      var n1, n2 := (r1 * Fixed8Scale).Floor, (r2 * Fixed8Scale).Floor;
      assert n1 as real == r1 * Fixed8Scale && n2 as real == r2 * Fixed8Scale;
      var m := x * Fixed8Scale;
      assert m - 0.5 <= n1 as real <= m + 0.5 && m - 0.5 <= n2 as real <= m + 0.5;
      if x >= 0.0 {
        assert m - 0.5 < n1 as real && m - 0.5 < n2 as real;
      } else {
        assert n1 as real < m + 0.5 && n2 as real < m + 0.5;
      }
      assert -1 < n1 - n2 < 1;
      assert n1 == n2;
    }
  }

  /** Rounding to 8 decimals is symmetric about zero... */
  lemma ToFixed8Odd(x: real)
    ensures ToFixed8(-x) == -ToFixed8(x)
  {
  }

  /** ...and rounding an already rounded value changes nothing. */
  lemma ToFixed8Idempotent(x: real)
    ensures ToFixed8(ToFixed8(x)) == ToFixed8(x)
  {
    var r := ToFixed8(x);
    if RoundsAt8(x) {
      if x >= 0.0 {
        var n := (x * Fixed8Scale + 0.5).Floor;
        assert n >= 0;
        assert r * Fixed8Scale == n as real;
        assert (r * Fixed8Scale + 0.5).Floor == n;
      } else {
        var n := ((-x) * Fixed8Scale + 0.5).Floor;
        assert n >= 0;
        assert (-r) * Fixed8Scale == n as real;
        assert ((-r) * Fixed8Scale + 0.5).Floor == n;
      }
    }
  }

  /** `toFixed` on any number: an infinity prints as "Infinity" and NaN as "NaN", and both come back. */
  function ToFixed8Number(n: Number): (r: Number)
    ensures n.Finite? ==> r == Finite(ToFixed8(n.value))
    ensures n.Finite? ==> RoundedTo8(r.value, n.value) && Within8(r.value, n.value)
    ensures !n.Finite? ==> r == n
  {
    match n
    case Finite(v) => Finite(ToFixed8(v))
    case _ => n
  }

  /** `+(f * n).toFixed(8)`: the exact product rounded to 8 decimals as `toFixed` does. */
  function ProductToFixed8(f: real, n: Number): (q: Number)
    ensures n.Finite? ==> q.Finite? && RoundedTo8(q.value, f * n.value) && Within8(q.value, f * n.value)
    ensures n.NaN? ==> q.NaN?
  {
    var product := Mul(Finite(f), n);
    assert n.Finite? ==> product.Finite? && product.value == f * n.value;
    ToFixed8Number(product)
  }
}
