/**
 * The geometry kernel of packages/core/src/utils/math.ts: degrees to radians,
 * a point on a circle, the tangent line through a point, and the two path
 * builders (a sector with a gutter, a rounded rectangle) that issue their
 * commands to a drawing context one after another.
 */
module MathUtils {
  import opened JsNumbers
  import opened Canvas
  import opened JsToFixed

  /** `Math.PI`: the double nearest to pi, written out exactly. */
  const PI: real := 3.141592653589793115997963468544185161590576171875

  /** `Math.sin` and `Math.cos`, left uninterpreted. */
  datatype Trig = Trig(sin: real -> real, cos: real -> real)

  /** `getAngle(deg)`: degrees to radians, `PI / 180 * deg`. */
  function GetAngle(deg: Number): (r: Number)
    ensures deg.Finite? ==> r.Finite? && r.value * 180.0 == deg.value * PI
    ensures !deg.Finite? ==> !r.Finite?
  {
    Mul(Finite(PI / 180.0), deg)
  }

  lemma GetAngleStraight()
    ensures GetAngle(Finite(180.0)) == Finite(PI)
  {
  }

  lemma GetAngleLinear(a: real, b: real)
    ensures GetAngle(Finite(a + b)) == Add(GetAngle(Finite(a)), GetAngle(Finite(b)))
  {
  }

  /**
   * `getArcPointerByDeg(deg, r)`: the point at angle `deg` (radians) on the
   * circle of radius `r`, each coordinate rounded to 8 decimals.
   */
  function GetArcPointerByDeg(deg: real, r: Number, trig: Trig): (p: (Number, Number))
    ensures r.Finite? ==>
      && p.0.Finite? && RoundedTo8(p.0.value, trig.cos(deg) * r.value) && Within8(p.0.value, trig.cos(deg) * r.value)
      && p.1.Finite? && RoundedTo8(p.1.value, trig.sin(deg) * r.value) && Within8(p.1.value, trig.sin(deg) * r.value)
    ensures r.NaN? ==> p.0.NaN? && p.1.NaN?
  {
    (ProductToFixed8(trig.cos(deg), r), ProductToFixed8(trig.sin(deg), r))
  }

  /**
   * `getTangentByPointer(x, y)`: the slope `k = -x / y` and intercept
   * `b = -k * x + y` of the line through (x, y) perpendicular to the radius.
   */
  function GetTangentByPointer(x: real, y: real): (r: (Number, Number))
    ensures y != 0.0 ==> r.0 == Finite(-x / y) && r.1.Finite? && y == r.0.value * x + r.1.value
    ensures y != 0.0 && x != 0.0 ==> r.0.value * (y / x) == -1.0
    ensures y == 0.0 ==> !r.0.Finite? && !r.1.Finite?
  {
    var k := Div(Neg(Finite(x)), Finite(y));
    var b := Add(Mul(Neg(k), Finite(x)), Finite(y));
    if y != 0.0 && x != 0.0 then
      SlopesPerpendicular(x, y);
      (k, b)
    else
      (k, b)
  }

  lemma SlopesPerpendicular(x: real, y: real)
    requires x != 0.0 && y != 0.0
    ensures (-x / y) * (y / x) == -1.0
  {
    calc {
      (-x / y) * (y / x);
      -((x / y) * (y / x));
      { assert (x / y) * (y / x) == (x * y) / (y * x); }
      -1.0;
    }
  }

  // ---------------------------------------------------------------------
  // roundRectByArc

  /** The corner radius actually drawn: `r`, but at most half the shorter side. */
  function ClampRadius(w: real, h: real, r: real): (e: real)
    ensures e <= r
    ensures 2.0 * e <= w && 2.0 * e <= h
    ensures e == r || 2.0 * e == w || 2.0 * e == h
  {
    var min := if w < h then w else h;
    if r > min / 2.0 then min / 2.0 else r
  }

  /** Clamping a clamped radius changes nothing: a too-large radius draws as the largest allowed one. */
  lemma ClampRadiusIdempotent(w: real, h: real, r: real)
    ensures ClampRadius(w, h, ClampRadius(w, h, r)) == ClampRadius(w, h, r)
  {
  }

  /** The commands of a rounded rectangle at (x, y) of size w x h with corner radius r (already clamped). */
  function RoundRectPath(x: real, y: real, w: real, h: real, r: real): (p: seq<Command>)
    ensures |p| == 12 && p[0] == BeginPath && p[11] == ClosePath
  {
    [ BeginPath,
      MoveTo(Finite(x + r), Finite(y)),
      LineTo(Finite(x + r), Finite(y)),
      LineTo(Finite(x + w - r), Finite(y)),
      Arc(Finite(x + w - r), Finite(y + r), Finite(r), Finite(-PI / 2.0), Finite(0.0), false),
      LineTo(Finite(x + w), Finite(y + h - r)),
      Arc(Finite(x + w - r), Finite(y + h - r), Finite(r), Finite(0.0), Finite(PI / 2.0), false),
      LineTo(Finite(x + r), Finite(y + h)),
      Arc(Finite(x + r), Finite(y + h - r), Finite(r), Finite(PI / 2.0), Finite(PI), false),
      LineTo(Finite(x), Finite(y + r)),
      Arc(Finite(x + r), Finite(y + r), Finite(r), Finite(PI), Finite(-PI / 2.0), false),
      ClosePath ]
  }

  /** `roundRectByArc(ctx, x, y, w, h, r)` issues the rounded-rectangle path with the clamped radius. */
  method RoundRectByArc(ctx: Context, x: real, y: real, w: real, h: real, r: real)
    modifies ctx
    ensures ctx.log == old(ctx.log) + RoundRectPath(x, y, w, h, ClampRadius(w, h, r))
  {
    var min := if w < h then w else h;
    var r := r;
    if r > min / 2.0 {
      r := min / 2.0;
    }
    TraceRoundRect(ctx, x, y, w, h, r);
  }

  /** The drawing calls of `roundRectByArc` once the radius is settled, in source order. */
  method TraceRoundRect(ctx: Context, x: real, y: real, w: real, h: real, r: real)
    modifies ctx
    ensures ctx.log == old(ctx.log) + RoundRectPath(x, y, w, h, r)
  {
    ctx.BeginPath();
    ctx.MoveTo(Finite(x + r), Finite(y));
    ctx.LineTo(Finite(x + r), Finite(y));
    ctx.LineTo(Finite(x + w - r), Finite(y));
    ctx.Arc(Finite(x + w - r), Finite(y + r), Finite(r), Finite(-PI / 2.0), Finite(0.0), false);
    ctx.LineTo(Finite(x + w), Finite(y + h - r));
    ctx.Arc(Finite(x + w - r), Finite(y + h - r), Finite(r), Finite(0.0), Finite(PI / 2.0), false);
    ctx.LineTo(Finite(x + r), Finite(y + h));
    ctx.Arc(Finite(x + r), Finite(y + h - r), Finite(r), Finite(PI / 2.0), Finite(PI), false);
    ctx.LineTo(Finite(x), Finite(y + r));
    ctx.Arc(Finite(x + r), Finite(y + r), Finite(r), Finite(PI), Finite(-PI / 2.0), false);
    ctx.ClosePath();
  }

  /** A 10 x 40 rectangle asked for radius 20 is drawn exactly as with radius 5. */
  lemma RoundRectClampExample(x: real, y: real)
    ensures RoundRectPath(x, y, 10.0, 40.0, ClampRadius(10.0, 40.0, 20.0))
         == RoundRectPath(x, y, 10.0, 40.0, ClampRadius(10.0, 40.0, 5.0))
  {
  }

  /** The four angles the rounded rectangle's arcs start and end at. */
  predicate IsQuarterAngle(a: real) {
    a == -PI / 2.0 || a == 0.0 || a == PI / 2.0 || a == PI
  }

  /** (cos a, sin a) for a quarter angle. */
  function QuarterDirection(a: real): (real, real)
    requires IsQuarterAngle(a)
  {
    if a == -PI / 2.0 then (0.0, -1.0)
    else if a == 0.0 then (1.0, 0.0)
    else if a == PI / 2.0 then (0.0, 1.0)
    else (-1.0, 0.0)
  }

  /** A clockwise arc from one quarter angle to the next (angles taken modulo 2 pi). */
  predicate QuarterArc(c: Command) {
    && c.Arc? && !c.anticlockwise
    && c.x.Finite? && c.y.Finite? && c.radius.Finite?
    && c.startAngle.Finite? && c.endAngle.Finite?
    && IsQuarterAngle(c.startAngle.value) && IsQuarterAngle(c.endAngle.value)
    && (c.endAngle.value == c.startAngle.value + PI / 2.0
        || c.endAngle.value == c.startAngle.value + PI / 2.0 - 2.0 * PI)
  }

  /** The point on the circle of a quarter arc at one of its end angles. */
  function ArcPoint(c: Command, a: real): (real, real)
    requires QuarterArc(c) && IsQuarterAngle(a)
  {
    var d := QuarterDirection(a);
    (c.x.value + c.radius.value * d.0, c.y.value + c.radius.value * d.1)
  }

  /** A move or a line to a finite point. */
  predicate PenMove(c: Command) {
    (c.MoveTo? || c.LineTo?) && c.x.Finite? && c.y.Finite?
  }

  function PenPoint(c: Command): (real, real)
    requires PenMove(c)
  {
    (c.x.value, c.y.value)
  }

  /** The pen stands exactly where `arc` begins after `line`, so no connecting segment is drawn. */
  predicate JoinsArc(line: Command, arc: Command) {
    PenMove(line) && QuarterArc(arc) && PenPoint(line) == ArcPoint(arc, arc.startAngle.value)
  }

  /** The straight edge from the end of `arc` to the point of `next` is tangent to the arc there. */
  predicate LeavesTangentially(arc: Command, next: Command) {
    && QuarterArc(arc) && PenMove(next)
    && var from := ArcPoint(arc, arc.endAngle.value);
       var d := QuarterDirection(arc.endAngle.value);
       (PenPoint(next).0 - from.0) * d.0 + (PenPoint(next).1 - from.1) * d.1 == 0.0
  }

  /**
   * The rounded rectangle is one closed, smooth outline: every edge ends where
   * the next corner's arc begins, every arc turns a quarter clockwise and hands
   * over tangentially to the next edge, and the last arc ends at the point the
   * path started from.
   */
  lemma RoundRectClosedOutline(x: real, y: real, w: real, h: real, r: real)
    ensures var p := RoundRectPath(x, y, w, h, r);
      && JoinsArc(p[3], p[4]) && LeavesTangentially(p[4], p[5])
      && JoinsArc(p[5], p[6]) && LeavesTangentially(p[6], p[7])
      && JoinsArc(p[7], p[8]) && LeavesTangentially(p[8], p[9])
      && JoinsArc(p[9], p[10])
      && PenMove(p[1]) && ArcPoint(p[10], p[10].endAngle.value) == PenPoint(p[1])
  {
    var p := RoundRectPath(x, y, w, h, r);
    assert QuarterDirection(-PI / 2.0) == (0.0, -1.0);
    assert QuarterDirection(0.0) == (1.0, 0.0);
    assert QuarterDirection(PI / 2.0) == (0.0, 1.0);
    assert QuarterDirection(PI) == (-1.0, 0.0);
    assert QuarterArc(p[10]) by {
      assert -PI / 2.0 == PI + PI / 2.0 - 2.0 * PI;
    }
  }

  /** After clamping, opposite corners never overlap: every straight edge has non-negative length. */
  lemma RoundRectEdgesNonNegative(x: real, y: real, w: real, h: real, r: real)
    ensures var e := ClampRadius(w, h, r);
      (x + e <= x + w - e) && (y + e <= y + h - e)
  {
  }

  // ---------------------------------------------------------------------
  // fanShapedByArc

  /**
   * At distance `radius` from the centre, the angle `angle` spans an arc of
   * half the gutter: `angle * radius == gutter / 2`.
   */
  predicate SpansHalfGutter(angle: real, radius: real, gutter: real) {
    angle * (2.0 * radius) == gutter
  }

  /**
   * `getAngle(90 / PI / radius * gutter)`: the angle by which a sector edge
   * is moved in so that half the gutter is left at `radius`.
   */
  function GutterAngle(radius: real, gutter: real): (r: Number)
    ensures radius != 0.0 ==> r.Finite? && SpansHalfGutter(r.value, radius, gutter)
    ensures radius == 0.0 ==> !r.Finite?
  {
    var a := GetAngle(Mul(Div(Div(Finite(90.0), Finite(PI)), Finite(radius)), Finite(gutter)));
    if radius != 0.0 then
      GutterAngleValue(radius, gutter);
      a
    else
      a
  }

  lemma GutterAngleValue(radius: real, gutter: real)
    requires radius != 0.0
    ensures (PI / 180.0) * ((90.0 / PI / radius) * gutter) * (2.0 * radius) == gutter
  {
    var c := PI / 180.0;
    var a := 90.0 / PI;
    var q := a / radius;
    assert q * radius == a;
    assert c * a == 0.5;
    var e := c * (q * gutter) * (2.0 * radius);
    assert e == 2.0 * (c * (q * radius)) * gutter;
    assert e == 2.0 * (c * a) * gutter;
    assert 2.0 * (c * a) == 1.0;
    assert e == gutter;
    assert c == PI / 180.0;
    assert q == 90.0 / PI / radius;
    assert (PI / 180.0) * ((90.0 / PI / radius) * gutter) * (2.0 * radius) == e;
  }

  /** The inset halves when the radius doubles: it is inversely proportional to the radius. */
  lemma {:induction false} GutterAngleInverse(radius: real, gutter: real, k: real)
    requires radius != 0.0 && k != 0.0
    ensures GutterAngle(k * radius, gutter).value * k == GutterAngle(radius, gutter).value
  {
    var a := GutterAngle(radius, gutter).value;
    var b := GutterAngle(k * radius, gutter).value;
    assert b * (2.0 * (k * radius)) == a * (2.0 * radius);
    assert (b * k) * (2.0 * radius) == a * (2.0 * radius);
  }

  /** `gutter / 2 / Math.abs(Math.sin((start - end) / 2))`: how far out on the bisector the wedge is closed. */
  function JoinDistance(start: real, end: real, gutter: real, trig: Trig): (d: Number)
    ensures trig.sin((start - end) / 2.0) != 0.0 ==>
      d.Finite? && d.value * Abs(Finite(trig.sin((start - end) / 2.0))).value == gutter / 2.0
    ensures trig.sin((start - end) / 2.0) == 0.0 ==> !d.Finite?
  {
    Div(Finite(gutter / 2.0), Abs(Finite(trig.sin((start - end) / 2.0))))
  }

  /**
   * The commands of a sector from `start` to `end` (radians) with outer radius
   * `maxRadius` and a gutter: the outer arc inset by the gutter angle at each
   * end, then a straight line to the point on the bisector at the join
   * distance, then back to the start.
   */
  function FanPath(maxRadius: real, start: real, end: real, gutter: real, trig: Trig): (p: seq<Command>)
    ensures |p| == 4 && p[0] == BeginPath && p[3] == ClosePath
  {
    var maxGutter := GutterAngle(maxRadius, gutter);
    var join := GetArcPointerByDeg((start + end) / 2.0, JoinDistance(start, end, gutter, trig), trig);
    [ BeginPath,
      Arc(Finite(0.0), Finite(0.0), Finite(maxRadius), Add(Finite(start), maxGutter), Sub(Finite(end), maxGutter), false),
      LineTo(join.0, join.1),
      ClosePath ]
  }

  /**
   * `fanShapedByArc(ctx, minRadius, maxRadius, start, end, gutter)`. The inner
   * radius only feeds the inner-arc branch, which the source has commented
   * out, so the wedge is always closed with a straight line.
   */
  method FanShapedByArc(ctx: Context, minRadius: real, maxRadius: real, start: real, end: real, gutter: real, trig: Trig)
    modifies ctx
    ensures ctx.log == old(ctx.log) + FanPath(maxRadius, start, end, gutter, trig)
  {
    ctx.BeginPath();
    var maxGutter := GutterAngle(maxRadius, gutter);
    var minGutter := GutterAngle(minRadius, gutter);
    var maxStart := Add(Finite(start), maxGutter);
    var maxEnd := Sub(Finite(end), maxGutter);
    var minStart := Add(Finite(start), minGutter);
    var minEnd := Sub(Finite(end), minGutter);
    ctx.Arc(Finite(0.0), Finite(0.0), Finite(maxRadius), maxStart, maxEnd, false);
    var join := GetArcPointerByDeg((start + end) / 2.0, JoinDistance(start, end, gutter, trig), trig);
    ctx.LineTo(join.0, join.1);
    ctx.ClosePath();
  }

  /**
   * The sector path has exactly one arc, the outer one, drawn clockwise about
   * the origin; whatever the radii and the gutter, the inner side is a straight
   * line to the join point.
   */
  lemma FanPathSingleOuterArc(minRadius: real, maxRadius: real, start: real, end: real, gutter: real, trig: Trig)
    ensures var p := FanPath(maxRadius, start, end, gutter, trig);
      && (forall i :: 0 <= i < |p| && p[i].Arc? ==> i == 1)
      && p[1].Arc? && p[1].x == Finite(0.0) && p[1].y == Finite(0.0)
      && p[1].radius == Finite(maxRadius) && !p[1].anticlockwise
      && p[2].LineTo?
  {
  }

  /**
   * For a non-zero outer radius the outer arc is the sector shrunk by the
   * same angle `gutter / (2 * maxRadius)` at both ends, so it is centred on
   * the sector's bisector.
   */
  lemma FanArcSymmetric(maxRadius: real, start: real, end: real, gutter: real, trig: Trig)
    requires maxRadius != 0.0
    ensures var arc := FanPath(maxRadius, start, end, gutter, trig)[1];
      && arc.startAngle.Finite? && arc.endAngle.Finite?
      && arc.startAngle.value - start == end - arc.endAngle.value
      && SpansHalfGutter(arc.startAngle.value - start, maxRadius, gutter)
      && (arc.startAngle.value + arc.endAngle.value) / 2.0 == (start + end) / 2.0
  {
    var inset := GutterAngle(maxRadius, gutter);
    var arc := FanPath(maxRadius, start, end, gutter, trig)[1];
    assert arc.startAngle == Finite(start + inset.value);
    assert arc.endAngle == Finite(end - inset.value);
    assert arc.startAngle.value - start == inset.value;
  }

  /**
   * A sector of zero width (sine of half its angle zero) has no finite join
   * point: the closing line goes to a non-finite coordinate.
   */
  lemma FanDegenerateJoin(maxRadius: real, start: real, end: real, gutter: real, trig: Trig)
    requires trig.sin((start - end) / 2.0) == 0.0
    requires gutter != 0.0
    ensures var line := FanPath(maxRadius, start, end, gutter, trig)[2];
      !line.x.Finite? && !line.y.Finite?
  {
  }
}
