/**
 * Quadratic easing of packages/core/src/utils/tween.ts: `t` is the elapsed
 * time, `b` the start value, `c` the change and `d` the duration. Elapsed
 * times past the duration are clamped to it; earlier ones, negative included,
 * are used as they are.
 */
module Tween {
  import opened JsNumbers

  /** The elapsed time actually used: `if (t >= d) t = d`. */
  function Clamp(t: real, d: real): (u: real)
    ensures u <= d
    ensures u == t || (t >= d && u == d)
  {
    if t >= d then d else t
  }

  /** The change covered by easing in after the fraction `u` of the duration. */
  function QuadIn(c: real, u: real): real {
    c * u * u
  }

  /** The change covered by easing out after the fraction `u` of the duration. */
  function QuadOut(c: real, u: real): real {
    -c * u * (u - 2.0)
  }

  /** `quad.easeIn(t, b, c, d)`: `c * (t/d)^2 + b`, starting slowly. */
  function EaseIn(t: real, b: real, c: real, d: real): (r: real)
    requires d != 0.0
    ensures t == 0.0 && d > 0.0 ==> r == b
    ensures t >= d ==> r == b + c
  {
    QuadIn(c, Clamp(t, d) / d) + b
  }

  /** `quad.easeOut(t, b, c, d)`: `-c * (t/d) * (t/d - 2) + b`, ending slowly. */
  function EaseOut(t: real, b: real, c: real, d: real): (r: real)
    requires d != 0.0
    ensures t == 0.0 && d > 0.0 ==> r == b
    ensures t >= d ==> r == b + c
  {
    QuadOut(c, Clamp(t, d) / d) + b
  }

  lemma ScaleMonotone(k: real, x: real, y: real)
    requires k >= 0.0 && x <= y
    ensures k * x <= k * y
  {
  }

  /** A later elapsed time is a larger fraction of the duration, and the clamp keeps it at most 1. */
  lemma ProgressBetween(t1: real, t2: real, d: real)
    requires d > 0.0 && 0.0 <= t1 <= t2
    ensures 0.0 <= Clamp(t1, d) / d <= Clamp(t2, d) / d <= 1.0
  {
    var a, b := Clamp(t1, d), Clamp(t2, d);
    assert 0.0 <= a <= b <= d;
    assert (a / d) * d == a;
    NonNegativeFactor(a / d, d);
    FractionMonotone(a, b, d);
    assert (1.0 - b / d) * d == d - b;
    NonNegativeFactor(1.0 - b / d, d);
  }

  /** Dividing by a positive duration keeps the order of elapsed times. */
  lemma FractionMonotone(a: real, b: real, d: real)
    requires d > 0.0 && a <= b
    ensures a / d <= b / d
  {
    var p, q := a / d, b / d;
    assert p * d == a && q * d == b;
    assert (q - p) * d == b - a;
    NonNegativeFactor(q - p, d);
  }

  /** A number whose product with a positive one is non-negative is itself non-negative. */
  lemma NonNegativeFactor(x: real, d: real)
    requires d > 0.0 && x * d >= 0.0
    ensures x >= 0.0
  {
  }

  /** `c * u^2` grows with `u` on u >= 0 when c >= 0. */
  lemma QuadInGrows(c: real, u1: real, u2: real)
    requires c >= 0.0 && 0.0 <= u1 <= u2
    ensures QuadIn(c, u1) <= QuadIn(c, u2)
  {
    ScaleMonotone(u1, u1, u2);
    ScaleMonotone(u2, u1, u2);
    ScaleMonotone(c, u1 * u1, u2 * u2);
    assert c * u1 * u1 == c * (u1 * u1);
    assert c * u2 * u2 == c * (u2 * u2);
  }

  /** `-c * u * (u - 2)` grows with `u` on [0, 1] when c >= 0. */
  lemma QuadOutGrows(c: real, u1: real, u2: real)
    requires c >= 0.0 && 0.0 <= u1 <= u2 <= 1.0
    ensures QuadOut(c, u1) <= QuadOut(c, u2)
  {
    // u * (2 - u) grows on [0, 1]: the difference is (u2 - u1) * (2 - u1 - u2).
    ScaleMonotone(u2 - u1, 0.0, 2.0 - u1 - u2);
    assert u2 * (2.0 - u2) - u1 * (2.0 - u1) == (u2 - u1) * (2.0 - u1 - u2);
    ScaleMonotone(c, u1 * (2.0 - u1), u2 * (2.0 - u2));
    assert -c * u1 * (u1 - 2.0) == c * (u1 * (2.0 - u1));
    assert -c * u2 * (u2 - 2.0) == c * (u2 * (2.0 - u2));
  }

  /** For a non-negative change, easing in never goes backwards. */
  lemma EaseInMonotone(t1: real, t2: real, b: real, c: real, d: real)
    requires d > 0.0 && c >= 0.0 && 0.0 <= t1 <= t2
    ensures EaseIn(t1, b, c, d) <= EaseIn(t2, b, c, d)
  {
    ProgressBetween(t1, t2, d);
    QuadInGrows(c, Clamp(t1, d) / d, Clamp(t2, d) / d);
  }

  /** For a non-negative change, easing out never goes backwards. */
  lemma EaseOutMonotone(t1: real, t2: real, b: real, c: real, d: real)
    requires d > 0.0 && c >= 0.0 && 0.0 <= t1 <= t2
    ensures EaseOut(t1, b, c, d) <= EaseOut(t2, b, c, d)
  {
    ProgressBetween(t1, t2, d);
    QuadOutGrows(c, Clamp(t1, d) / d, Clamp(t2, d) / d);
  }

  /** From the start on, with a non-negative change, both curves stay between `b` and `b + c`. */
  lemma EaseWithinRange(t: real, b: real, c: real, d: real)
    requires d > 0.0 && c >= 0.0 && t >= 0.0
    ensures b <= EaseIn(t, b, c, d) <= b + c
    ensures b <= EaseOut(t, b, c, d) <= b + c
  {
    EaseInMonotone(0.0, t, b, c, d);
    EaseInMonotone(t, t + d, b, c, d);
    EaseOutMonotone(0.0, t, b, c, d);
    EaseOutMonotone(t, t + d, b, c, d);
  }

  /**
   * Easing out is easing in run backwards: on [0, d] the ease-out curve is the
   * ease-in curve mirrored in time and in value.
   */
  lemma EaseOutMirrorsEaseIn(t: real, b: real, c: real, d: real)
    requires d > 0.0 && 0.0 <= t <= d
    ensures EaseOut(t, b, c, d) == b + c - EaseIn(d - t, 0.0, c, d)
  {
    var u := t / d;
    assert Clamp(t, d) == t;
    var v := Clamp(d - t, d) / d;
    assert v == 1.0 - u by {
      assert Clamp(d - t, d) == d - t;
      assert d * v == d - t && d * u == t;
      assert d * (1.0 - u) == d - d * u;
      CancelNonZero(d, v, 1.0 - u);
    }
    calc {
      b + c - EaseIn(d - t, 0.0, c, d);
      b + c - c * v * v;
      b + c - c * (1.0 - u) * (1.0 - u);
      { assert c * (1.0 - u) * (1.0 - u) == c - 2.0 * c * u + c * u * u; }
      b + 2.0 * c * u - c * u * u;
      { assert -c * u * (u - 2.0) == 2.0 * c * u - c * u * u; }
      -c * u * (u - 2.0) + b;
      EaseOut(t, b, c, d);
    }
  }
}
