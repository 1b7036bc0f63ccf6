/**
 * The stateful part of the `Lucky` base class (packages/core/src/lib/lucky.ts):
 * the device pixel ratio, the box size, and the pixel-ratio scaling of the
 * rectangles handed to the image-drawing primitives.
 */
module LuckyBase {
  import opened Options
  import opened JsNumbers
  import opened Lengths
  import opened NumberParsing
  import opened Canvas

  /** `config.flag`: the platform the widget runs on. */
  datatype Flag = Web | MpWx | UniH5 | UniMp | TaroH5 | TaroMp

  /** The platforms that count as a full browser. */
  predicate IsWebFlag(flag: Flag) {
    flag == Web || flag == UniH5 || flag == TaroH5
  }

  /**
   * The container element: the size the host measured, and the style the
   * widget writes back (`overflow: hidden` and its width and height in px).
   */
  class DivElement {
    var offsetWidth: real
    var offsetHeight: real
    var overflowHidden: bool
    var styleWidth: Number
    var styleHeight: Number

    constructor (offsetWidth: real, offsetHeight: real)
      ensures this.offsetWidth == offsetWidth && this.offsetHeight == offsetHeight
      ensures !overflowHidden && styleWidth == NaN && styleHeight == NaN
    {
      this.offsetWidth := offsetWidth;
      this.offsetHeight := offsetHeight;
      overflowHidden := false;
      styleWidth, styleHeight := NaN, NaN;
    }
  }

  /** The `<canvas>` element: the size of its backing store, in device pixels. */
  class CanvasElement {
    var width: Number
    var height: Number

    constructor ()
      ensures width == Finite(300.0) && height == Finite(150.0)
    {
      width, height := Finite(300.0), Finite(150.0);
    }
  }

  /** The parts of `ConfigType` the modelled operations read or write; an unset `dpr` is NaN. */
  datatype Config = Config(
    flag: Flag,
    dpr: Number,
    divElement: Option<DivElement>,
    canvasElement: Option<CanvasElement>,
    handleCssUnit: Option<UnitHandler>,
    unitFunc: Option<UnitHandler>)

  /** The objects `resetWidthAndHeight` may write: the container element, when there is one. */
  function DivFootprint(config: Config): set<object> {
    if config.divElement.Some? then {config.divElement.value} else {}
  }

  /** The objects `zoomCanvas` may resize: the canvas element, when there is one. */
  function CanvasFootprint(config: Config): set<object> {
    if config.canvasElement.Some? then {config.canvasElement.value} else {}
  }

  /** `config.handleCssUnit || config.unitFunc`. */
  function UnitHandlerOf(config: Config): (h: Option<UnitHandler>)
    ensures config.handleCssUnit.Some? ==> h == config.handleCssUnit
    ensures config.handleCssUnit.None? ==> h == config.unitFunc
  {
    if config.handleCssUnit.Some? then config.handleCssUnit else config.unitFunc
  }

  /** What the host environment supplies: whether `window` exists, its pixel ratio and width. */
  datatype Host = Host(hasWindow: bool, devicePixelRatio: Number, innerWidth: real)

  /** `this.data`: the widget's configured width and height. */
  datatype Size = Size(width: Length, height: Length)

  /** An image handle: its intrinsic size and, for a canvas or an image backed by one, that canvas's 2D context. */
  datatype Image = Image(width: real, height: real, surface: Option<Context>)

  function SurfaceFootprint(img: Image): set<object> {
    if img.surface.Some? then {img.surface.value} else {}
  }

  /**
   * The pixel ratio `setDpr` leaves: a configured (truthy) one is kept; with
   * a `window`, `window.devicePixelRatio || 1`; otherwise the unset value stays
   * (the source only logs a diagnostic).
   */
  function ResolveDpr(configured: Number, host: Host): (dpr: Number)
    ensures Truthy(configured) ==> dpr == configured
    ensures !Truthy(configured) && host.hasWindow ==>
      && Truthy(dpr)
      && dpr == (if Truthy(host.devicePixelRatio) then host.devicePixelRatio else Finite(1.0))
    ensures !Truthy(configured) && !host.hasWindow ==> dpr == configured
  {
    if Truthy(configured) then configured
    else if host.hasWindow then (if Truthy(host.devicePixelRatio) then host.devicePixelRatio else Finite(1.0))
    else configured
  }

  /**
   * One side of the box: `configured || measured`. The configured length wins
   * when it is truthy, otherwise the measured size is used, so the box is never
   * NaN.
   */
  function ResolveBoxSide(configured: Number, measured: real): (side: Number)
    ensures side != NaN
    ensures Truthy(configured) ==> side == configured
    ensures !Truthy(configured) ==> side == Finite(measured)
  {
    if Truthy(configured) then configured else Finite(measured)
  }

  /** A rectangle with its first `count` entries multiplied by the pixel ratio. */
  function ScaleFirst(rect: seq<real>, dpr: Number, count: nat): (r: seq<Number>)
    ensures |r| == |rect|
    ensures forall i :: 0 <= i < |rect| ==> r[i] == if i < count then Mul(Finite(rect[i]), dpr) else Finite(rect[i])
  {
    seq(|rect|, i requires 0 <= i < |rect| => if i < count then Mul(Finite(rect[i]), dpr) else Finite(rect[i]))
  }

  /**
   * The context calls `drawImage` makes: a pixel transfer (read the source
   * region from the image's own canvas, write it at the destination) or a
   * direct blit of the image into a rectangle.
   */
  datatype DrawPlan = PixelTransfer(source: seq<Number>, dest: seq<Number>) | Blit(rect: seq<Number>)

  /**
   * Which call `drawImage` makes and with which numbers. An image with its
   * own 2D context on a platform that is not a full browser is copied pixel
   * by pixel, every entry scaled by the pixel ratio; otherwise an 8-entry
   * rectangle has its 4 source entries scaled and a 4-entry one is passed
   * as it is.
   */
  function PlanDraw(offscreen: bool, web: bool, dpr: Number, rect: seq<real>): (plan: DrawPlan)
    requires 4 <= |rect| <= 8
    ensures offscreen && !web ==>
      && plan.PixelTransfer?
      && |plan.source| == 4
      && (forall i :: 0 <= i < 4 ==> plan.source[i] == Mul(Finite(rect[i]), dpr))
      && |plan.dest| == (if |rect| < 6 then |rect| else 6) - 4
      && (forall i :: 0 <= i < |plan.dest| ==> plan.dest[i] == Mul(Finite(rect[4 + i]), dpr))
    ensures !(offscreen && !web) ==>
      && plan.Blit?
      && |plan.rect| == |rect|
      && (forall i :: 0 <= i < |rect| ==>
            plan.rect[i] == if |rect| == 8 && i < 4 then Mul(Finite(rect[i]), dpr) else Finite(rect[i]))
  {
    if offscreen && !web then
      var scaled := ScaleFirst(rect, dpr, |rect|);
      PixelTransfer(scaled[..4], scaled[4..if |scaled| < 6 then |scaled| else 6])
    else if |rect| == 8 then
      Blit(ScaleFirst(rect, dpr, 4))
    else
      Blit(ScaleFirst(rect, dpr, 0))
  }

  /**
   * For a finite non-zero pixel ratio the scaling loses nothing: dividing
   * every scaled entry by the ratio gives back the layout rectangle.
   */
  lemma ScaledRectRecoversLayout(rect: seq<real>, d: real, count: nat)
    requires d != 0.0
    ensures forall i :: 0 <= i < |rect| && i < count ==>
      Div(ScaleFirst(rect, Finite(d), count)[i], Finite(d)) == Finite(rect[i])
  {
    forall i | 0 <= i < |rect| && i < count
      ensures Div(ScaleFirst(rect, Finite(d), count)[i], Finite(d)) == Finite(rect[i])
    {
      MulDivCancel(rect[i], d);
    }
  }

  /** Neither path of `drawImage` scales a 4-entry rectangle in a browser. */
  lemma FourEntryRectUnscaled(offscreen: bool, dpr: Number, rect: seq<real>)
    requires |rect| == 4
    ensures PlanDraw(offscreen, true, dpr, rect) == Blit([Finite(rect[0]), Finite(rect[1]), Finite(rect[2]), Finite(rect[3])])
  {
    var p := PlanDraw(offscreen, true, dpr, rect);
    assert p.rect == [Finite(rect[0]), Finite(rect[1]), Finite(rect[2]), Finite(rect[3])];
  }

  /** A pixel ratio that can be divided back out: finite and non-zero. */
  predicate PixelRatioInvertible(dpr: Number) {
    dpr.Finite? && dpr.value != 0.0
  }

  /** The rectangle `clearCanvas` clears: from (-w, -h), twice the box in each direction. */
  function ClearedRect(w: Number, h: Number): (rect: seq<Number>)
    ensures |rect| == 4
    ensures w.Finite? && h.Finite? ==>
      && rect[0] == Finite(-w.value) && rect[1] == Finite(-h.value)
      && Add(rect[0], rect[2]) == w && Add(rect[1], rect[3]) == h
  {
    [Neg(w), Neg(h), Mul(w, Finite(2.0)), Mul(h, Finite(2.0))]
  }

  class Lucky {
    const ctx: Context
    var config: Config
    var htmlFontSize: real
    var boxWidth: Number
    var boxHeight: Number
    var data: Size

    /**
     * The constructor keeps the configuration and the configured size, and
     * forces the platform flag to 'MP-WX'.
     */
    constructor (config: Config, data: Size, ctx: Context)
      ensures this.config == config.(flag := MpWx) && this.data == data && this.ctx == ctx
      ensures htmlFontSize == 16.0 && boxWidth == Finite(0.0) && boxHeight == Finite(0.0)
      ensures !IsWeb()
    {
      this.config := config.(flag := MpWx);
      this.data := data;
      this.ctx := ctx;
      htmlFontSize := 16.0;
      boxWidth, boxHeight := Finite(0.0), Finite(0.0);
    }

    /** `isWeb()`: the flag names a full browser, that is, any platform but the three mini-program ones. */
    predicate IsWeb()
      reads this
      ensures IsWeb() <==> !(config.flag == MpWx || config.flag == UniMp || config.flag == TaroMp)
    {
      IsWebFlag(config.flag)
    }

    /** What `changeUnits` reads from the widget and the host. */
    function Units(host: Host): (u: UnitContext)
      reads this
      ensures u.htmlFontSize == htmlFontSize && u.innerWidth == host.innerWidth
      ensures u.fallback == UnitHandlerOf(config)
    {
      UnitContext(htmlFontSize, host.innerWidth, UnitHandlerOf(config))
    }

    /**
     * The unit table with this widget's context: `rem` scales by the widget's
     * root font size, `vw` by the window width, and a unit outside the table
     * goes to `config.handleCssUnit`, else to `config.unitFunc`, else the
     * number stays.
     */
    lemma UnitsOfWidget(host: Host, x: Number, unit: string, denominator: real)
      ensures var r := ApplyUnit(unit, x, denominator, Units(host));
        && (unit == "rem" && x.Finite? ==> r == Finite(x.value * htmlFontSize))
        && (unit == "vw" && x.Finite? ==> r == Finite(x.value * host.innerWidth / 100.0))
        && (!IsTableUnit(unit) && config.handleCssUnit.Some? ==> r == config.handleCssUnit.value(x, unit))
        && (!IsTableUnit(unit) && config.handleCssUnit.None? && config.unitFunc.Some? ==> r == config.unitFunc.value(x, unit))
        && (!IsTableUnit(unit) && config.handleCssUnit.None? && config.unitFunc.None? ==> r == x)
    {
    }

    /**
     * `changeUnits(s)` on this widget, when the regex splits `s` into a
     * numeral and a unit outside the table: `config.handleCssUnit` is called
     * with `Number(numeral)` and the unit, else `config.unitFunc`, and
     * without either the number itself is the result.
     */
    lemma ChangeUnitsOfWidget(host: Host, s: string, denominator: Option<real>)
      ensures SplitLength(s).Some? ==>
        var unit := SplitLength(s).value.1;
        var x := ParseNumber(SplitLength(s).value.0);
        var r := ChangeUnits(s, denominator, Units(host));
        && (!IsTableUnit(unit) && config.handleCssUnit.Some? ==> r == config.handleCssUnit.value(x, unit))
        && (!IsTableUnit(unit) && config.handleCssUnit.None? && config.unitFunc.Some? ==> r == config.unitFunc.value(x, unit))
        && (!IsTableUnit(unit) && config.handleCssUnit.None? && config.unitFunc.None? ==> r == x)
    {
      if SplitLength(s).Some? {
        var unit := SplitLength(s).value.1;
        var x := ParseNumber(SplitLength(s).value.0);
        assert ChangeUnits(s, denominator, Units(host)) == ApplyUnit(unit, x, denominator.GetOr(1.0), Units(host));
        UnitsOfWidget(host, x, unit, denominator.GetOr(1.0));
      }
    }

    /**
     * The box `resetWidthAndHeight` settles on: each configured side where it
     * resolves to a truthy length, the container's measured side elsewhere
     * (0 without a container).
     */
    function SettledBox(host: Host): (box: (Number, Number))
      reads this, DivFootprint(config)
      ensures box.0 != NaN && box.1 != NaN
      ensures Truthy(GetLength(data.width, None, Units(host))) ==> box.0 == GetLength(data.width, None, Units(host))
      ensures Truthy(GetLength(data.height, None, Units(host))) ==> box.1 == GetLength(data.height, None, Units(host))
      ensures !Truthy(GetLength(data.width, None, Units(host))) ==>
        box.0 == Finite(if config.divElement.Some? then config.divElement.value.offsetWidth else 0.0)
      ensures !Truthy(GetLength(data.height, None, Units(host))) ==>
        box.1 == Finite(if config.divElement.Some? then config.divElement.value.offsetHeight else 0.0)
    {
      var div := config.divElement;
      (ResolveBoxSide(GetLength(data.width, None, Units(host)), if div.Some? then div.value.offsetWidth else 0.0),
       ResolveBoxSide(GetLength(data.height, None, Units(host)), if div.Some? then div.value.offsetHeight else 0.0))
    }

    /** `setDpr()`: settle `config.dpr`. */
    method SetDpr(host: Host)
      modifies this`config
      ensures config == old(config).(dpr := ResolveDpr(old(config.dpr), host))
      ensures host.hasWindow ==> Truthy(config.dpr)
    {
      if Truthy(config.dpr) {
        // a configured pixel ratio takes precedence
      } else if host.hasWindow {
        var ratio := if Truthy(host.devicePixelRatio) then host.devicePixelRatio else Finite(1.0);
        config := config.(dpr := ratio);
      } else {
        // the source logs that no pixel ratio was given
      }
    }

    /**
     * `resetWidthAndHeight()`: the box takes the configured size where it is
     * truthy and the container's measured size elsewhere (0 without a
     * container), and the container is given that size.
     */
    method ResetWidthAndHeight(host: Host)
      modifies this`boxWidth, this`boxHeight, DivFootprint(config)
      ensures (boxWidth, boxHeight) == old(SettledBox(host))
      ensures config.divElement.Some? ==>
        var div := config.divElement.value;
        && div.overflowHidden && div.styleWidth == boxWidth && div.styleHeight == boxHeight
        && div.offsetWidth == old(div.offsetWidth) && div.offsetHeight == old(div.offsetHeight)
      ensures boxWidth != NaN && boxHeight != NaN
    {
      var measuredWidth, measuredHeight := 0.0, 0.0;
      if config.divElement.Some? {
        measuredWidth := config.divElement.value.offsetWidth;
        measuredHeight := config.divElement.value.offsetHeight;
      }
      var units := Units(host);
      var width := GetLength(data.width, None, units);
      boxWidth := if Truthy(width) then width else Finite(measuredWidth);
      var height := GetLength(data.height, None, units);
      boxHeight := if Truthy(height) then height else Finite(measuredHeight);
      if config.divElement.Some? {
        var div := config.divElement.value;
        div.overflowHidden := true;
        div.styleWidth := boxWidth;
        div.styleHeight := boxHeight;
      }
    }

    /**
     * `drawImage(ctx, imgObj, ...rectInfo)`: issue the calls `PlanDraw`
     * chooses, on `ctx` and (for a pixel transfer) on the image's own context.
     * Exceptions from the direct blit are swallowed by the source; the
     * recorder raises none.
     */
    method DrawImage(ctx: Context, img: Image, rect: seq<real>)
      requires 4 <= |rect| <= 8
      modifies ctx, SurfaceFootprint(img)
      ensures var plan := PlanDraw(img.surface.Some?, IsWeb(), config.dpr, rect);
        match plan
        case Blit(r) =>
          && ctx.log == old(ctx.log) + [Command.DrawImage(r)]
          && (img.surface.Some? && img.surface.value != ctx ==> img.surface.value.log == old(img.surface.value.log))
        case PixelTransfer(source, dest) =>
          var surface := img.surface.value;
          if surface == ctx then
            ctx.log == old(ctx.log) + [Command.GetImageData(source), Command.PutImageData(dest)]
          else
            && surface.log == old(surface.log) + [Command.GetImageData(source)]
            && ctx.log == old(ctx.log) + [Command.PutImageData(dest)]
    {
      var plan := PlanDraw(img.surface.Some?, IsWeb(), config.dpr, rect);
      match plan {
        case PixelTransfer(source, dest) =>
          img.surface.value.GetImageData(source);
          ctx.PutImageData(dest);
        case Blit(r) =>
          ctx.DrawImage(r);
      }
    }

    /**
     * `zoomCanvas()`: size the canvas backing store to the box in device
     * pixels and scale the context by the pixel ratio; without a canvas
     * element nothing happens.
     */
    method ZoomCanvas()
      modifies ctx, CanvasFootprint(config)
      ensures config.canvasElement.None? ==> ctx.log == old(ctx.log)
      ensures config.canvasElement.Some? ==>
        var canvas := config.canvasElement.value;
        && canvas.width == Mul(boxWidth, config.dpr)
        && canvas.height == Mul(boxHeight, config.dpr)
        && ctx.log == old(ctx.log) + [Command.Scale(config.dpr, config.dpr)]
      ensures config.canvasElement.Some? && PixelRatioInvertible(config.dpr) && boxWidth.Finite? && boxHeight.Finite? ==>
        var canvas := config.canvasElement.value;
        Div(canvas.width, config.dpr) == boxWidth && Div(canvas.height, config.dpr) == boxHeight
    {
      var width, height := Mul(boxWidth, config.dpr), Mul(boxHeight, config.dpr);
      if config.canvasElement.None? {
        return;
      }
      var canvas := config.canvasElement.value;
      canvas.width := width;
      canvas.height := height;
      ctx.Scale(config.dpr, config.dpr);
      if PixelRatioInvertible(config.dpr) && boxWidth.Finite? && boxHeight.Finite? {
        // the backing store is the box in device pixels: the ratio divides back out
        MulDivCancel(boxWidth.value, config.dpr.value);
        MulDivCancel(boxHeight.value, config.dpr.value);
      }
    }

    /** `clearCanvas()`: clear a rectangle twice the box, centred on the origin. */
    method ClearCanvas()
      modifies ctx
      ensures ctx.log == old(ctx.log) + [Command.ClearRect(ClearedRect(boxWidth, boxHeight))]
    {
      ctx.ClearRect(ClearedRect(boxWidth, boxHeight));
    }

    /**
     * `resize()`: settle the pixel ratio, then the box, then the canvas.
     * The box and the canvas use the settled ratio.
     */
    method Resize(host: Host)
      modifies this`config, this`boxWidth, this`boxHeight, DivFootprint(config), CanvasFootprint(config), ctx
      ensures config == old(config).(dpr := ResolveDpr(old(config.dpr), host))
      ensures (boxWidth, boxHeight) == old(SettledBox(host))
      ensures config.divElement.Some? ==>
        var div := config.divElement.value;
        && div.overflowHidden && div.styleWidth == boxWidth && div.styleHeight == boxHeight
        && div.offsetWidth == old(div.offsetWidth) && div.offsetHeight == old(div.offsetHeight)
      ensures config.canvasElement.None? ==> ctx.log == old(ctx.log)
      ensures config.canvasElement.Some? ==>
        var canvas := config.canvasElement.value;
        && canvas.width == Mul(boxWidth, config.dpr)
        && canvas.height == Mul(boxHeight, config.dpr)
        && ctx.log == old(ctx.log) + [Command.Scale(config.dpr, config.dpr)]
    {
      SetDpr(host);
      ResetWidthAndHeight(host);
      // the container is neither the canvas element nor the context, so zooming leaves it as it is
      assert DivFootprint(config) !! CanvasFootprint(config) + {ctx};
      ZoomCanvas();
    }

    /**
     * `initLucky()`: resize, and report whether both box sides came out
     * truthy (the source logs an error when one did not).
     */
    method InitLucky(host: Host) returns (sized: bool)
      modifies this`config, this`boxWidth, this`boxHeight, DivFootprint(config), CanvasFootprint(config), ctx
      ensures config == old(config).(dpr := ResolveDpr(old(config.dpr), host))
      ensures (boxWidth, boxHeight) == old(SettledBox(host))
      ensures config.divElement.Some? ==>
        var div := config.divElement.value;
        && div.overflowHidden && div.styleWidth == boxWidth && div.styleHeight == boxHeight
        && div.offsetWidth == old(div.offsetWidth) && div.offsetHeight == old(div.offsetHeight)
      ensures config.canvasElement.None? ==> ctx.log == old(ctx.log)
      ensures config.canvasElement.Some? ==>
        var canvas := config.canvasElement.value;
        && canvas.width == Mul(boxWidth, config.dpr)
        && canvas.height == Mul(boxHeight, config.dpr)
        && ctx.log == old(ctx.log) + [Command.Scale(config.dpr, config.dpr)]
      ensures sized <==> Truthy(boxWidth) && Truthy(boxHeight)
    {
      Resize(host);
      sized := Truthy(boxWidth) && Truthy(boxHeight);
    }
  }
}
