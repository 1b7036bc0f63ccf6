/**
 * JavaScript's `Number(string)` conversion, restricted to the strings the
 * length parser in packages/core/src/lib/lucky.ts hands it: an optional sign
 * followed by a plain decimal literal, or the empty string (which converts to
 * 0). Anything else converts to NaN.
 */
module NumberParsing {
  import opened JsNumbers

  predicate IsDigit(c: char) {
    '0' <= c <= '9'
  }

  predicate AllDigits(s: string) {
    forall k :: 0 <= k < |s| ==> IsDigit(s[k])
  }

  function DigitValue(c: char): (d: nat)
    requires IsDigit(c)
    ensures d < 10
  {
    c as int - '0' as int
  }

  function DigitChar(d: nat): (c: char)
    requires d < 10
    ensures IsDigit(c) && DigitValue(c) == d
  {
    ('0' as int + d) as char
  }

  /** The value of a string of decimal digits, most significant first ("" is 0). */
  function DigitsValue(s: string): nat
    requires AllDigits(s)
  {
    if s == [] then 0 else DigitsValue(s[..|s| - 1]) * 10 + DigitValue(s[|s| - 1])
  }

  function Pow10(n: nat): (p: nat)
    ensures p >= 1
  {
    if n == 0 then 1 else 10 * Pow10(n - 1)
  }

  /** Index of the first '.', or |s| when there is none. */
  function DotIndex(s: string): (i: nat)
    ensures i <= |s|
    ensures i < |s| ==> s[i] == '.'
    ensures forall k :: 0 <= k < i ==> s[k] != '.'
  {
    if s == [] then 0 else if s[0] == '.' then 0 else 1 + DotIndex(s[1..])
  }

  /**
   * An unsigned decimal literal: digits, optionally one '.', more digits, and
   * at least one digit in all ("5", "5.", ".5", "5.25"); anything else is NaN.
   */
  function ParseUnsigned(s: string): (r: Number)
    ensures r.Finite? || r.NaN?
    ensures r.Finite? ==> r.value >= 0.0
    ensures s == [] ==> r.NaN?
  {
    var dot := DotIndex(s);
    var whole := s[..dot];
    var fraction := if dot < |s| then s[dot + 1..] else [];
    if AllDigits(whole) && AllDigits(fraction) && |whole| + |fraction| > 0 then
      Finite(DigitsValue(whole) as real + DigitsValue(fraction) as real / Pow10(|fraction|) as real)
    else
      NaN
  }

  /** `Number(s)` for an optionally signed decimal literal; the empty string gives 0. */
  function ParseNumber(s: string): (r: Number)
    ensures r.Finite? || r.NaN?
    ensures s == [] ==> r == Finite(0.0)
    ensures |s| > 0 && s[0] == '-' ==> r == Neg(ParseUnsigned(s[1..]))
  {
    if s == [] then Finite(0.0)
    else if s[0] == '-' then Neg(ParseUnsigned(s[1..]))
    else if s[0] == '+' then ParseUnsigned(s[1..])
    else ParseUnsigned(s)
  }

  /** The shortest decimal numeral of a natural number. */
  function ShowNat(n: nat): (s: string)
    ensures |s| > 0
  {
    if n < 10 then [DigitChar(n)] else ShowNat(n / 10) + [DigitChar(n % 10)]
  }

  lemma {:induction false} ShowNatDigits(n: nat)
    ensures AllDigits(ShowNat(n))
    ensures DigitsValue(ShowNat(n)) == n
  {
    if n >= 10 {
      ShowNatDigits(n / 10);
      var s := ShowNat(n);
      assert s[..|s| - 1] == ShowNat(n / 10);
    }
  }

  /** Converting the numeral of `n` back with `Number(...)` gives `n`. */
  lemma ParseShowNat(n: nat)
    ensures ParseNumber(ShowNat(n)) == Finite(n as real)
  {
    var s := ShowNat(n);
    ShowNatDigits(n);
    assert s[0] != '-' && s[0] != '+' by { assert IsDigit(s[0]); }
    var dot := DotIndex(s);
    assert dot == |s|;
    assert s[..dot] == s;
  }

  /** ... and a leading minus sign negates it. */
  lemma ParseNegatedShowNat(n: nat)
    ensures ParseNumber("-" + ShowNat(n)) == Finite(-(n as real))
  {
    ParseShowNat(n);
    var s := ShowNat(n);
    assert ("-" + s)[1..] == s;
    ShowNatDigits(n);
    assert s[0] != '-' && s[0] != '+' by { assert IsDigit(s[0]); }
  }

  /** Appending digits shifts the value of the digits before them left. */
  lemma {:induction false} DigitsValueAppend(a: string, b: string)
    requires AllDigits(a) && AllDigits(b)
    ensures AllDigits(a + b)
    ensures DigitsValue(a + b) == DigitsValue(a) * Pow10(|b|) + DigitsValue(b)
  {
    if b == [] {
      assert a + b == a;
    } else {
      var b' := b[..|b| - 1];
      DigitsValueAppend(a, b');
      assert (a + b)[..|a + b| - 1] == a + b';
      assert DigitsValue(a) * Pow10(|b'|) * 10 == DigitsValue(a) * Pow10(|b|);
    }
  }

  /** `m` zero digits. */
  function Zeros(m: nat): (s: string)
    ensures |s| == m && AllDigits(s)
  {
    if m == 0 then [] else Zeros(m - 1) + "0"
  }

  lemma {:induction false} ZerosValue(m: nat)
    ensures DigitsValue(Zeros(m)) == 0
  {
    if m > 0 {
      ZerosValue(m - 1);
      assert Zeros(m)[..m - 1] == Zeros(m - 1);
    }
  }

  /** The numeral of `n` with zeros in front up to at least `width` digits. */
  function PaddedDigits(n: nat, width: nat): (s: string)
    ensures AllDigits(s) && |s| >= width && |s| > 0
  {
    var d := ShowNat(n);
    ShowNatDigits(n);
    if |d| >= width then d else Zeros(width - |d|) + d
  }

  /** Leading zeros do not change the value. */
  lemma LeadingZerosValue(m: nat, d: string)
    requires AllDigits(d)
    ensures AllDigits(Zeros(m) + d) && DigitsValue(Zeros(m) + d) == DigitsValue(d)
  {
    var z := Zeros(m);
    ZerosValue(m);
    DigitsValueAppend(z, d);
    var p := Pow10(|d|);
    assert DigitsValue(z) * p == 0 * p == 0;
  }

  lemma PaddedDigitsValue(n: nat, width: nat)
    ensures DigitsValue(PaddedDigits(n, width)) == n
  {
    var d := ShowNat(n);
    ShowNatDigits(n);
    if |d| < width {
      assert PaddedDigits(n, width) == Zeros(width - |d|) + d;
      LeadingZerosValue(width - |d|, d);
    } else {
      assert PaddedDigits(n, width) == d;
    }
  }

  /**
   * The decimal numeral of `n / 10^k`: the digits of `n`, padded with zeros
   * so that at least one digit precedes the point, with a '.' in front of
   * the last `k` of them ("5", "0.05", "12.50").
   */
  function ShowDecimal(n: nat, k: nat): (s: string)
    ensures |s| > 0 && IsDigit(s[0])
    ensures forall i :: 0 <= i < |s| ==> IsDigit(s[i]) || s[i] == '.'
  {
    var digits := PaddedDigits(n, k + 1);
    if k == 0 then digits else WithPoint(digits, k)
  }

  /** `digits` with a '.' in front of its last `k` digits. */
  function WithPoint(digits: string, k: nat): (s: string)
    requires AllDigits(digits) && 0 < k < |digits|
    ensures |s| == |digits| + 1 && IsDigit(s[0])
    ensures forall i :: 0 <= i < |s| ==> IsDigit(s[i]) || s[i] == '.'
  {
    digits[..|digits| - k] + "." + digits[|digits| - k..]
  }

  lemma ShowDecimalWhole(n: nat)
    ensures ShowDecimal(n, 0) == ShowNat(n)
    ensures n as real / Pow10(0) as real == n as real
  {
    ShowNatDigits(n);
  }

  /** A whole part plus a fraction over `p` is one fraction over `p`. */
  lemma OverCommonDenominator(a: real, b: real, p: real)
    requires p > 0.0
    ensures a + b / p == (a * p + b) / p
  {
    var x := a + b / p;
    var y := (a * p + b) / p;
    assert (b / p) * p == b;
    assert p * x == a * p + b;
    assert p * y == a * p + b;
    CancelNonZero(p, x, y);
  }

  /** The first '.' after a run of digits is the one right after them. */
  lemma DotIndexAfterDigits(whole: string, fraction: string)
    requires AllDigits(whole)
    ensures DotIndex(whole + "." + fraction) == |whole|
  {
    var s := whole + "." + fraction;
    assert s[|whole|] == '.';
    assert forall j :: 0 <= j < |whole| ==> s[j] == whole[j];
  }

  /** A literal with a point splits at that point into its whole and fractional digits. */
  lemma ParseWithPoint(whole: string, fraction: string)
    requires AllDigits(whole) && AllDigits(fraction) && |whole| > 0
    ensures ParseUnsigned(whole + "." + fraction)
         == Finite(DigitsValue(whole) as real + DigitsValue(fraction) as real / Pow10(|fraction|) as real)
  {
    var s := whole + "." + fraction;
    DotIndexAfterDigits(whole, fraction);
    var dot := DotIndex(s);
    assert dot < |s|;
    var w := s[..dot];
    var f := s[dot + 1..];
    assert w == whole;
    assert f == fraction;
    assert AllDigits(w) && AllDigits(f) && |w| + |f| > 0;
    assert ParseUnsigned(s) == Finite(DigitsValue(w) as real + DigitsValue(f) as real / Pow10(|f|) as real);
  }

  /** The value of a literal read as whole digits and fraction digits. */
  lemma PointValue(a: nat, b: nat, p: nat, n: nat)
    requires p >= 1 && n == a * p + b
    ensures a as real + b as real / p as real == n as real / p as real
  {
    assert n as real == a as real * p as real + b as real;
    OverCommonDenominator(a as real, b as real, p as real);
  }

  /** Splitting digits `k` places from the end splits their value over `10^k`. */
  lemma SplitValue(digits: string, k: nat)
    requires AllDigits(digits) && k <= |digits|
    ensures AllDigits(digits[..|digits| - k]) && AllDigits(digits[|digits| - k..])
    ensures DigitsValue(digits) as real / Pow10(k) as real
         == DigitsValue(digits[..|digits| - k]) as real + DigitsValue(digits[|digits| - k..]) as real / Pow10(k) as real
  {
    var whole := digits[..|digits| - k];
    var fraction := digits[|digits| - k..];
    assert whole + fraction == digits;
    DigitsValueAppend(whole, fraction);
    PointValue(DigitsValue(whole), DigitsValue(fraction), Pow10(k), DigitsValue(digits));
  }

  /** Placing a point before the last `k > 0` digits divides their value by `10^k`. */
  lemma ParseWithPointAt(digits: string, k: nat)
    requires AllDigits(digits) && 0 < k < |digits|
    ensures ParseUnsigned(WithPoint(digits, k)) == Finite(DigitsValue(digits) as real / Pow10(k) as real)
  {
    SplitValue(digits, k);
    ParseWithPoint(digits[..|digits| - k], digits[|digits| - k..]);
  }

  /** The unsigned literal `ShowDecimal(n, k)` has the value `n / 10^k`. */
  lemma ParseUnsignedShowDecimal(n: nat, k: nat)
    ensures ParseUnsigned(ShowDecimal(n, k)) == Finite(n as real / Pow10(k) as real)
  {
    if k == 0 {
      ShowDecimalWhole(n);
      ParseUnsignedShowNat(n);
    } else {
      var digits := PaddedDigits(n, k + 1);
      PaddedDigitsValue(n, k + 1);
      ParseWithPointAt(digits, k);
    }
  }

  lemma ParseUnsignedShowNat(n: nat)
    ensures ParseUnsigned(ShowNat(n)) == Finite(n as real)
  {
    ParseShowNat(n);
    ShowNatDigits(n);
    var s := ShowNat(n);
    assert s[0] != '-' && s[0] != '+' by { assert IsDigit(s[0]); }
  }

  /**
   * Converting the decimal numeral of `n / 10^k` back with `Number(...)`
   * gives `n / 10^k`, and a leading minus sign negates it.
   */
  lemma ParseShowDecimal(n: nat, k: nat)
    ensures ParseNumber(ShowDecimal(n, k)) == Finite(n as real / Pow10(k) as real)
    ensures ParseNumber("-" + ShowDecimal(n, k)) == Finite(-(n as real / Pow10(k) as real))
  {
    var s := ShowDecimal(n, k);
    assert ("-" + s)[1..] == s;
    assert s[0] != '-' && s[0] != '+' by { assert IsDigit(s[0]); }
    ParseUnsignedShowDecimal(n, k);
  }

  /** A second sign is never a number: `Number("--5")` and `Number("-")` are NaN. */
  lemma DoubleSignIsNaN(s: string)
    ensures ParseNumber("-") == NaN
    ensures ParseNumber("--" + s) == NaN
  {
    assert ("--" + s)[1..] == "-" + s;
    var t := "-" + s;
    assert DotIndex(t) > 0;
    assert !IsDigit(t[..DotIndex(t)][0]);
  }
}
