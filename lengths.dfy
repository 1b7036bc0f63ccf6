/**
 * Length resolution of the `Lucky` base class (packages/core/src/lib/lucky.ts):
 * splitting a CSS-like length string into its numeral and unit, the unit table
 * (`%`, `px`, `rem`, `vw`, then a user handler), `getLength`, the image render
 * size rule `computedWidthAndHeight`, and the centring offset `getOffsetX`.
 */
module Lengths {
  import opened Options
  import opened JsNumbers
  import opened NumberParsing

  /** A configured length: a number (already pixels), a string with a unit, or absent. */
  datatype Length = Px(px: real) | Text(text: string) | Undefined

  /** JavaScript truthiness of a configured length. */
  predicate LengthTruthy(l: Length) {
    match l
    case Px(x) => x != 0.0
    case Text(s) => s != []
    case Undefined => false
  }

  /** `config.handleCssUnit` (or `config.unitFunc`), called as `handler(Number(num), unit)`. */
  type UnitHandler = (Number, string) -> Number

  /**
   * What unit resolution reads besides its arguments: the root font size
   * (`htmlFontSize`), the viewport width (`window.innerWidth`), and the user's
   * handler for other units, if any.
   */
  datatype UnitContext = UnitContext(htmlFontSize: real, innerWidth: real, fallback: Option<UnitHandler>)

  predicate IsNumeralChar(c: char) {
    IsDigit(c) || c == '.'
  }

  predicate IsUnitChar(c: char) {
    'a' <= c <= 'z' || c == '%'
  }

  predicate AllUnitChars(s: string) {
    forall k :: 0 <= k < |s| ==> IsUnitChar(s[k])
  }

  /** Length of the longest prefix of '-' characters (the regex's `[-]*`). */
  function DashRun(s: string): (n: nat)
    ensures n <= |s|
    ensures forall k :: 0 <= k < n ==> s[k] == '-'
    ensures n < |s| ==> s[n] != '-'
  {
    if s != [] && s[0] == '-' then 1 + DashRun(s[1..]) else 0
  }

  /** Length of the longest prefix of digits and dots (the regex's `[0-9.]*`). */
  function NumeralRun(s: string): (n: nat)
    ensures n <= |s|
    ensures forall k :: 0 <= k < n ==> IsNumeralChar(s[k])
    ensures n < |s| ==> !IsNumeralChar(s[n])
  {
    if s != [] && IsNumeralChar(s[0]) then 1 + NumeralRun(s[1..]) else 0
  }

  /**
   * The regular expression `^([-]*[0-9.]*)([a-z%]*)$` matches `s` with the
   * dashes ending at `i` and the first group ending at `j`.
   */
  ghost predicate MatchesAt(s: string, i: int, j: int) {
    && 0 <= i <= j <= |s|
    && (forall k :: 0 <= k < i ==> s[k] == '-')
    && (forall k :: i <= k < j ==> IsNumeralChar(s[k]))
    && (forall k :: j <= k < |s| ==> IsUnitChar(s[k]))
  }

  /**
   * The two groups of the regex match: `Some((num, unit))`, or `None` when the
   * regex does not match (then `replace` leaves the string as it is).
   */
  function SplitLength(s: string): (r: Option<(string, string)>)
    ensures r.Some? ==> r.value.0 + r.value.1 == s && MatchesAt(s, DashRun(s), |r.value.0|)
  {
    var i := DashRun(s);
    var j := i + NumeralRun(s[i..]);
    if AllUnitChars(s[j..]) then Some((s[..j], s[j..])) else None
  }

  /** Every way the regex can match is the one `SplitLength` finds: the match is unique. */
  lemma SplitLengthComplete(s: string, i: int, j: int)
    requires MatchesAt(s, i, j)
    ensures SplitLength(s) == Some((s[..j], s[j..]))
  {
    assert forall k :: i <= k < |s| ==> s[k] != '-';
    var d := DashRun(s);
    assert i < |s| ==> s[i] != '-';
    assert d < |s| ==> s[d] != '-';
    assert d == i;
    var rest := s[i..];
    assert forall k :: 0 <= k < j - i ==> rest[k] == s[i + k];
    assert j < |s| ==> rest[j - i] == s[j] && !IsNumeralChar(s[j]);
    assert NumeralRun(rest) == j - i;
    assert AllUnitChars(s[j..]);
  }

  /** `SplitLength` answers exactly when the regex matches. */
  lemma SplitLengthExact(s: string)
    ensures SplitLength(s).Some? <==> exists i, j :: MatchesAt(s, i, j)
  {
    if exists i, j :: MatchesAt(s, i, j) {
      var i, j :| MatchesAt(s, i, j);
      SplitLengthComplete(s, i, j);
    }
  }

  /** The units the table of `changeUnits` knows. */
  predicate IsTableUnit(unit: string) {
    unit == "%" || unit == "px" || unit == "rem" || unit == "vw" || unit == "constructor"
  }

  /**
   * The unit table of `changeUnits` applied to `Number(num)`. The table is a
   * JavaScript object literal, so a lookup of "constructor" finds the inherited
   * `Object` function, which turns the number into itself; any unit outside the
   * table, the empty one included, goes to the user handler, or without one
   * the bare number is the result.
   */
  function ApplyUnit(unit: string, n: Number, denominator: real, ctx: UnitContext): (r: Number)
    ensures n.Finite? && unit == "%" ==> r == Finite(n.value * denominator / 100.0)
    ensures unit == "px" || unit == "constructor" ==> r == n
    ensures n.Finite? && unit == "rem" ==> r == Finite(n.value * ctx.htmlFontSize)
    ensures n.Finite? && unit == "vw" ==> r == Finite(n.value * ctx.innerWidth / 100.0)
    ensures !IsTableUnit(unit) && ctx.fallback.Some? ==> r == ctx.fallback.value(n, unit)
    ensures !IsTableUnit(unit) && ctx.fallback.None? ==> r == n
    ensures n.NaN? && IsTableUnit(unit) ==> r.NaN?
  {
    if unit == "%" then Mul(n, Finite(denominator / 100.0))
    else if unit == "px" then MulOne(n); Mul(n, Finite(1.0))
    else if unit == "rem" then Mul(n, Finite(ctx.htmlFontSize))
    else if unit == "vw" then Mul(Div(n, Finite(100.0)), Finite(ctx.innerWidth))
    else if unit == "constructor" then n
    else match ctx.fallback
      case Some(handler) => handler(n, unit)
      case None => n
  }

  /**
   * `changeUnits(value, denominator = 1)`: split `value` with the regex and
   * convert; when the regex does not match, the result is `Number(value)`.
   * (The callback's number is turned into a string by `replace` and back by
   * the outer `Number`, which gives the same number.)
   */
  function ChangeUnits(value: string, denominator: Option<real>, ctx: UnitContext): (r: Number)
    ensures SplitLength(value).None? ==> r == ParseNumber(value)
    ensures SplitLength(value).Some? ==>
      r == ApplyUnit(SplitLength(value).value.1, ParseNumber(SplitLength(value).value.0), denominator.GetOr(1.0), ctx)
  {
    match SplitLength(value)
    case None => ParseNumber(value)
    case Some((num, unit)) => ApplyUnit(unit, ParseNumber(num), denominator.GetOr(1.0), ctx)
  }

  /** The decimal numeral of `n / 10^k`, with a minus sign in front when `negative`. */
  function Numeral(n: nat, k: nat, negative: bool): (s: string)
    ensures |s| > (if negative then 1 else 0)
    ensures negative ==> s[0] == '-'
    ensures forall j :: (if negative then 1 else 0) <= j < |s| ==> IsNumeralChar(s[j])
  {
    (if negative then "-" else "") + ShowDecimal(n, k)
  }

  /** The value of `Numeral(n, k, negative)`: `n / 10^k`, negated when `negative`. */
  function NumeralValue(n: nat, k: nat, negative: bool): real {
    if negative then -(n as real / Pow10(k) as real) else n as real / Pow10(k) as real
  }

  /** The regex matches a numeral followed by a unit, the numeral as its first group. */
  lemma NumeralMatches(n: nat, k: nat, negative: bool, unit: string)
    requires AllUnitChars(unit)
    ensures MatchesAt(Numeral(n, k, negative) + unit, if negative then 1 else 0, |Numeral(n, k, negative)|)
  {
    var num := Numeral(n, k, negative);
    var s := num + unit;
    var i := if negative then 1 else 0;
    assert MatchesAt(s, i, |num|) by {
      forall j | 0 <= j < |num| ensures s[j] == num[j] { }
      forall j | |num| <= j < |s| ensures IsUnitChar(s[j]) {
        assert s[j] == unit[j - |num|];
      }
    }
  }

  /** The regex splits a numeral followed by a unit into the two. */
  lemma SplitNumeral(n: nat, k: nat, negative: bool, unit: string)
    requires AllUnitChars(unit)
    ensures SplitLength(Numeral(n, k, negative) + unit) == Some((Numeral(n, k, negative), unit))
  {
    var num := Numeral(n, k, negative);
    var s := num + unit;
    NumeralMatches(n, k, negative, unit);
    SplitLengthComplete(s, if negative then 1 else 0, |num|);
    assert s[..|num|] == num && s[|num|..] == unit;
  }

  /** `Number(...)` of a numeral is its value. */
  lemma ParseNumeral(n: nat, k: nat, negative: bool)
    ensures ParseNumber(Numeral(n, k, negative)) == Finite(NumeralValue(n, k, negative))
  {
    ParseShowDecimal(n, k);
    if !negative {
      assert Numeral(n, k, negative) == ShowDecimal(n, k);
    }
  }

  /**
   * A numeral followed by a unit is split into the two, and the numeral's
   * value goes through the unit table.
   */
  lemma ChangeUnitsOfNumeral(n: nat, k: nat, negative: bool, unit: string, denominator: Option<real>, ctx: UnitContext)
    requires AllUnitChars(unit)
    ensures ChangeUnits(Numeral(n, k, negative) + unit, denominator, ctx)
         == ApplyUnit(unit, Finite(NumeralValue(n, k, negative)), denominator.GetOr(1.0), ctx)
  {
    SplitNumeral(n, k, negative, unit);
    ParseNumeral(n, k, negative);
  }

  /** The same for a whole number written without a point. */
  lemma ChangeUnitsOfWhole(n: nat, unit: string, denominator: Option<real>, ctx: UnitContext)
    requires AllUnitChars(unit)
    ensures ChangeUnits(ShowNat(n) + unit, denominator, ctx) == ApplyUnit(unit, Finite(n as real), denominator.GetOr(1.0), ctx)
  {
    ShowDecimalWhole(n);
    var num := Numeral(n, 0, false);
    assert num == ShowNat(n);
    ChangeUnitsOfNumeral(n, 0, false, unit, denominator, ctx);
    assert ChangeUnits(num + unit, denominator, ctx) == ApplyUnit(unit, Finite(n as real), denominator.GetOr(1.0), ctx);
  }

  /** `changeUnits("50%", 200)` is 100. */
  lemma PercentOfDenominator(ctx: UnitContext)
    ensures ChangeUnits("50%", Some(200.0), ctx) == Finite(100.0)
  {
    assert ShowNat(50) + "%" == "50%";
    ChangeUnitsOfWhole(50, "%", Some(200.0), ctx);
  }

  /** `changeUnits("2rem")` with the initial root font size 16 is 32. */
  lemma RemOfRootFontSize(ctx: UnitContext)
    requires ctx.htmlFontSize == 16.0
    ensures ChangeUnits("2rem", None, ctx) == Finite(32.0)
  {
    assert ShowNat(2) + "rem" == "2rem";
    ChangeUnitsOfWhole(2, "rem", None, ctx);
  }

  /** "-0.5" is the numeral of -5 / 10. */
  lemma MinusHalfNumeral()
    ensures Numeral(5, 1, true) + "rem" == "-0.5rem"
    ensures 5 as real / Pow10(1) as real == 0.5
  {
    assert ShowNat(5) == "5";
    assert Zeros(1) == "0";
    var digits := PaddedDigits(5, 2);
    assert digits == "05";
    assert ShowDecimal(5, 1) == WithPoint(digits, 1) == "0.5";
  }

  /** `changeUnits("-0.5rem")` with the initial root font size 16 is -8. */
  lemma NegativeFractionalRem(ctx: UnitContext)
    requires ctx.htmlFontSize == 16.0
    ensures ChangeUnits("-0.5rem", None, ctx) == Finite(-8.0)
  {
    MinusHalfNumeral();
    ChangeUnitsOfNumeral(5, 1, true, "rem", None, ctx);
    assert ApplyUnit("rem", Finite(-0.5), 1.0, ctx) == Finite(-0.5 * 16.0);
  }

  /** A bare numeral has the empty unit, which the table does not know. */
  lemma BareNumeral(n: nat, denominator: Option<real>, ctx: UnitContext)
    ensures ChangeUnits(ShowNat(n), denominator, ctx)
         == if ctx.fallback.Some? then ctx.fallback.value(Finite(n as real), "") else Finite(n as real)
  {
    var s := ShowNat(n);
    assert s + "" == s;
    ChangeUnitsOfWhole(n, "", denominator, ctx);
    assert ChangeUnits(s, denominator, ctx) == ApplyUnit("", Finite(n as real), denominator.GetOr(1.0), ctx);
    assert !IsTableUnit("");
  }

  /** A percentage with no denominator is a percentage of 1. */
  lemma PercentDefaultDenominator(n: nat, ctx: UnitContext)
    ensures ChangeUnits(ShowNat(n) + "%", None, ctx) == Finite(n as real / 100.0)
  {
    var s := ShowNat(n);
    ChangeUnitsOfWhole(n, "%", None, ctx);
    assert ChangeUnits(s + "%", None, ctx) == ApplyUnit("%", Finite(n as real), 1.0, ctx);
    assert ApplyUnit("%", Finite(n as real), 1.0, ctx) == Finite(n as real * 1.0 / 100.0);
  }

  /** A number is already pixels, a string is converted, anything else is 0. */
  function GetLength(length: Length, maxLength: Option<real>, ctx: UnitContext): (r: Number)
    ensures length.Px? ==> r == Finite(length.px)
    ensures length.Undefined? ==> r == Finite(0.0)
    ensures length.Text? ==> r == ChangeUnits(length.text, maxLength, ctx)
  {
    match length
    case Px(x) => Finite(x)
    case Text(s) => ChangeUnits(s, maxLength, ctx)
    case Undefined => Finite(0.0)
  }

  /** Width and height settings of an image (`ImgItemType`). */
  datatype ImgItem = ImgItem(width: Length, height: Length)

  /**
   * `scaled : other == trueSide : side`, written without division: the
   * scaled length keeps the proportion of the intrinsic lengths.
   */
  predicate RatioKept(scaled: real, side: real, other: real, trueSide: real) {
    scaled * side == other * trueSide
  }

  /**
   * `other * (trueSide / side)`: the intrinsic length `other` scaled by the
   * factor that takes the intrinsic length `side` to `trueSide`, so that the
   * two results keep the intrinsic proportion; a zero `side` gives no finite
   * result.
   */
  function ScaleSide(other: real, trueSide: Number, side: real): (r: Number)
    ensures trueSide.Finite? && side != 0.0 ==> r.Finite? && RatioKept(r.value, side, other, trueSide.value)
    ensures side == 0.0 ==> !r.Finite?
  {
    var factor := Div(trueSide, Finite(side));
    if trueSide.Finite? && side != 0.0 then
      ProportionKept(other, trueSide.value, side);
      Mul(Finite(other), factor)
    else
      Mul(Finite(other), factor)
  }

  lemma ProportionKept(other: real, trueSide: real, side: real)
    requires side != 0.0
    ensures (other * (trueSide / side)) * side == other * trueSide
  {
    calc {
      (other * (trueSide / side)) * side;
      other * ((trueSide / side) * side);
      other * trueSide;
    }
  }

  /**
   * The render size of an image of intrinsic size `imgWidth` x `imgHeight`:
   * the intrinsic size when neither side is configured, the configured side
   * and the other scaled to keep the intrinsic aspect ratio when only one is,
   * and both configured sides (each against its own maximum) when both are.
   */
  function ComputedWidthAndHeight(imgWidth: real, imgHeight: real, info: ImgItem,
                                  maxWidth: real, maxHeight: real, ctx: UnitContext): (r: (Number, Number))
    ensures !LengthTruthy(info.width) && !LengthTruthy(info.height) ==>
      r == (Finite(imgWidth), Finite(imgHeight))
    ensures LengthTruthy(info.width) && !LengthTruthy(info.height) ==>
      && r.0 == GetLength(info.width, Some(maxWidth), ctx)
      && (r.0.Finite? && imgWidth != 0.0 ==> r.1.Finite? && RatioKept(r.1.value, imgWidth, imgHeight, r.0.value))
      && (imgWidth == 0.0 ==> !r.1.Finite?)
    ensures !LengthTruthy(info.width) && LengthTruthy(info.height) ==>
      && r.1 == GetLength(info.height, Some(maxHeight), ctx)
      && (r.1.Finite? && imgHeight != 0.0 ==> r.0.Finite? && RatioKept(r.0.value, imgHeight, imgWidth, r.1.value))
      && (imgHeight == 0.0 ==> !r.0.Finite?)
    ensures LengthTruthy(info.width) && LengthTruthy(info.height) ==>
      r == (GetLength(info.width, Some(maxWidth), ctx), GetLength(info.height, Some(maxHeight), ctx))
  {
    var widthSet, heightSet := LengthTruthy(info.width), LengthTruthy(info.height);
    var trueWidth, trueHeight := GetLength(info.width, Some(maxWidth), ctx), GetLength(info.height, Some(maxHeight), ctx);
    if !widthSet && !heightSet then
      (Finite(imgWidth), Finite(imgHeight))
    else if widthSet && !heightSet then
      (trueWidth, ScaleSide(imgHeight, trueWidth, imgWidth))
    else if !widthSet && heightSet then
      (ScaleSide(imgWidth, trueHeight, imgHeight), trueHeight)
    else
      (trueWidth, trueHeight)
  }

  /** `getOffsetX(width, maxWidth = 0)`: the left offset that centres `width` inside `maxWidth`. */
  function GetOffsetX(width: real, maxWidth: Option<real>): (r: real)
    ensures r + width + r == maxWidth.GetOr(0.0)
  {
    (maxWidth.GetOr(0.0) - width) / 2.0
  }
}
