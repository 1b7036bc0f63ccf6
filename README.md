# lucky-canvas core, modelled in Dafny

lucky-canvas draws prize wheels, prize grids and slot machines on an HTML
canvas or a mini-program canvas. Every widget extends the `Lucky` base class,
which:

- settles the device pixel ratio (`setDpr`);
- settles the box size from the configured width and height, or from the
  container element (`resetWidthAndHeight`, `getLength`, `changeUnits`);
- sizes and scales the canvas (`zoomCanvas`, `resize`, `initLucky`);
- clears it (`clearCanvas`);
- computes image render sizes and offsets (`computedWidthAndHeight`,
  `getOffsetX`);
- draws images with pixel-ratio scaling (`drawImage`).

The widgets draw with a few geometry helpers (`getAngle`,
`getArcPointerByDeg`, `getTangentByPointer`, `fanShapedByArc`,
`roundRectByArc`) and animate with quadratic easing (`quad.easeIn`,
`quad.easeOut`).

The Dafny project has these modules:

- `Options`: an `Option` type. It stands for optional arguments and unset
  configuration.
- `JsNumbers`: JavaScript numbers as `Finite(real) | PosInf | NegInf | NaN`.
  It gives their truthiness and the arithmetic the core uses, with the IEEE
  rules for infinities, NaN and division by zero.
- `NumberParsing`: the part of `Number(string)` that `changeUnits` relies on.
- `JsToFixed`: `+x.toFixed(8)` on exact reals.
- `Lengths`: the CSS-unit conversion (`changeUnits`, `getLength`) and the
  image layout helpers (`computedWidthAndHeight`, `getOffsetX`).
- `Canvas`: a 2D context as a recorder class. Each drawing call appends one
  command to `log`, so a drawing routine is specified by the commands it
  issues.
- `MathUtils`: the geometry helpers and the two path builders.
- `Tween`: quadratic easing.
- `LuckyBase`: the `Lucky` class with its state, and the container and
  canvas elements as classes the methods update in place:
  - state: `config`, `htmlFontSize`, `boxWidth`, `boxHeight`, `data`;
  - methods: `setDpr`, `resetWidthAndHeight`, `zoomCanvas`, `clearCanvas`,
    `resize`, `initLucky`, `drawImage`.

Behaviours of the code worth noting, which the model keeps:

- `computedWidthAndHeight` keeps the aspect ratio only when exactly one side
  is configured. When both are configured, both are used as given.
- `roundRectByArc` issues `lineTo(x + r, y)` right after `moveTo(x + r, y)`,
  so the path has 12 commands.
- `fanShapedByArc` always closes the sector with a straight line to a point
  on the bisector. The inner-arc branch is commented out, so the inner radius
  and `minGutter` are computed and never used.
- `changeUnits` looks up a unit in a JavaScript object literal. The unit
  `constructor` therefore finds the inherited `Object` function, which
  returns the number unchanged and bypasses the user's unit handler.

## Model

| member | source | states |
|---|---|---|
| NumberParsing.ParseNumber | packages/core/src/lib/lucky.ts:269-281 | `Number` of a string is finite or NaN, of the empty string 0, and a leading minus negates the unsigned value after it |
| NumberParsing.ParseShowNat | packages/core/src/lib/lucky.ts:277 | `Number` of a decimal numeral gives back the natural number it was written from |
| NumberParsing.ParseNegatedShowNat | packages/core/src/lib/lucky.ts:277 | a leading minus sign on a numeral (which the regex's `[-]*` admits) gives the negated value |
| NumberParsing.DigitsValueAppend | packages/core/src/lib/lucky.ts:277 | digits appended after others multiply the value of the earlier digits by ten per appended digit and add their own value |
| NumberParsing.ParseWithPoint | packages/core/src/lib/lucky.ts:277 | `Number` of digits, a point and more digits is the whole part plus the fraction digits over ten to their count |
| NumberParsing.ParseWithPointAt | packages/core/src/lib/lucky.ts:277 | putting a point before the last `k` digits of a digit string divides its value by `10^k` |
| NumberParsing.ParseShowDecimal | packages/core/src/lib/lucky.ts:277 | `Number` of the decimal numeral of `n / 10^k` (zero-padded, point `k` places from the end) gives `n / 10^k`, and with a leading minus its negation |
| NumberParsing.DoubleSignIsNaN | packages/core/src/lib/lucky.ts:269 | the regex admits a lone `-` and several minus signs, and `Number` of them is NaN |
| Lengths.SplitLength | packages/core/src/lib/lucky.ts:269 | when it answers, the numeral part followed by the unit part is the whole input, and the split is a match of `^([-]*[0-9.]*)([a-z%]*)$` |
| Lengths.SplitLengthComplete | packages/core/src/lib/lucky.ts:269 | every match of the regex is the split it finds, so the match is unique |
| Lengths.SplitLengthExact | packages/core/src/lib/lucky.ts:269 | it answers if and only if the regex matches the input |
| Lengths.ApplyUnit | packages/core/src/lib/lucky.ts:270-280 | `%` is a fraction of the denominator, `px` is the number itself, `rem` is a multiple of the root font size, `vw` is a percentage of the window width; `constructor` returns the number; any other unit goes to the user handler, or without one is the bare number; NaN stays NaN through the table |
| Lengths.ChangeUnits | packages/core/src/lib/lucky.ts:267-282 | a value the regex does not match is `Number(value)`; otherwise the numeral's value goes through the unit table with denominator 1 when none is given |
| Lengths.NumeralMatches | packages/core/src/lib/lucky.ts:269 | the regex matches a (possibly negated) decimal numeral followed by a unit of letters and `%`, with the dashes and the numeral as its first group |
| Lengths.SplitNumeral | packages/core/src/lib/lucky.ts:269 | the regex splits a (possibly negated) decimal numeral followed by a unit into exactly that numeral and that unit |
| Lengths.ParseNumeral | packages/core/src/lib/lucky.ts:277 | `Number` of the numeral of `n / 10^k`, optionally negated, is that value |
| Lengths.ChangeUnitsOfNumeral | packages/core/src/lib/lucky.ts:267-282 | for every (possibly negated) decimal numeral `n / 10^k` (digits with an optional point) followed by a unit of letters and `%`, the result is the unit table applied to the numeral's value |
| Lengths.ChangeUnitsOfWhole | packages/core/src/lib/lucky.ts:267-282 | the same for a whole number written without a point |
| Lengths.NegativeFractionalRem | packages/core/src/lib/lucky.ts:269-273 | `"-0.5rem"` at the initial root font size 16 is -8 |
| Lengths.PercentOfDenominator | packages/core/src/lib/lucky.ts:271 | `"50%"` of 200 is 100 |
| Lengths.PercentDefaultDenominator | packages/core/src/lib/lucky.ts:267-271 | `n%` without a denominator is `n / 100` |
| Lengths.RemOfRootFontSize | packages/core/src/lib/lucky.ts:273 | `"2rem"` at the initial root font size 16 is 32 |
| Lengths.BareNumeral | packages/core/src/lib/lucky.ts:276-280 | a numeral with no unit goes to the user handler with the empty unit, or without one is its own value |
| Lengths.GetLength | packages/core/src/lib/lucky.ts:290-294 | a number is returned as it is, a string is converted against the maximum length, anything else is 0 |
| Lengths.ScaleSide | packages/core/src/lib/lucky.ts:247 | the scaled side keeps the intrinsic proportion (cross-multiplied) when the reference side is non-zero, and is not finite when it is zero |
| Lengths.ComputedWidthAndHeight | packages/core/src/lib/lucky.ts:233-259 | no side configured gives the intrinsic size; one side configured gives that length, with the other side keeping the image's aspect ratio; both configured gives both lengths as they are |
| Lengths.GetOffsetX | packages/core/src/lib/lucky.ts:301-303 | the offset on each side plus the width fills the maximum width exactly (0 by default), so the width is centred |
| JsToFixed.ToFixed8 | packages/core/src/utils/math.ts:17 | below 10^21 in magnitude, the result is a multiple of 10^-8 within half a step of the input, with a tie going away from zero; larger magnitudes come back unchanged; the sign is kept |
| JsToFixed.RoundedTo8Unique | packages/core/src/utils/math.ts:17 | the rounding rule leaves exactly one possible result, so the contract of `ToFixed8` determines it completely |
| JsToFixed.ToFixed8Odd | packages/core/src/utils/math.ts:17 | rounding to 8 decimals is symmetric about zero |
| JsToFixed.ToFixed8Idempotent | packages/core/src/utils/math.ts:17 | rounding an already rounded value changes nothing |
| JsToFixed.ToFixed8Number | packages/core/src/utils/math.ts:17 | finite numbers are rounded to 8 decimals by that rule; infinities and NaN come back unchanged |
| JsToFixed.ProductToFixed8 | packages/core/src/utils/math.ts:17 | the product of a finite factor and a finite number is the exact product rounded to 8 decimals by that rule; NaN stays NaN |
| MathUtils.GetAngle | packages/core/src/utils/math.ts:6-8 | a finite angle in degrees times pi equals the result times 180; a non-finite input gives a non-finite result |
| MathUtils.GetAngleStraight | packages/core/src/utils/math.ts:6-8 | 180 degrees is pi radians |
| MathUtils.GetAngleLinear | packages/core/src/utils/math.ts:6-8 | the conversion is additive: the angle of a sum is the sum of the angles |
| MathUtils.GetArcPointerByDeg | packages/core/src/utils/math.ts:16-18 | for a finite radius, each coordinate is `cos(deg)·r` or `sin(deg)·r` rounded to 8 decimals as `toFixed(8)` does (a multiple of 10^-8 within half a step, ties away from zero); a NaN radius gives NaN coordinates |
| MathUtils.GetTangentByPointer | packages/core/src/utils/math.ts:26-30 | the line passes through the point and is perpendicular to the radius to it; for `y = 0` the slope and intercept are not finite |
| MathUtils.SlopesPerpendicular | packages/core/src/utils/math.ts:27 | the tangent slope times the radius slope is -1 |
| MathUtils.ClampRadius | packages/core/src/utils/math.ts:68-69 | the radius drawn is at most the given one and at most half of each side, and equals the given radius or half the shorter side |
| MathUtils.ClampRadiusIdempotent | packages/core/src/utils/math.ts:68-69 | clamping a clamped radius changes nothing |
| MathUtils.RoundRectPath | packages/core/src/utils/math.ts:70-81 | the path has 12 commands, opened by `beginPath` and ended by `closePath` |
| MathUtils.TraceRoundRect | packages/core/src/utils/math.ts:70-81 | the context receives exactly the rounded-rectangle commands, in order |
| MathUtils.RoundRectByArc | packages/core/src/utils/math.ts:64-82 | the context receives exactly the rounded-rectangle commands for the clamped radius |
| MathUtils.RoundRectClampExample | packages/core/src/utils/math.ts:68-69 | a concrete call with an oversized radius draws with half the shorter side |
| MathUtils.RoundRectClosedOutline | packages/core/src/utils/math.ts:70-81 | each edge ends where the next corner's arc starts; each arc turns a quarter clockwise and leaves tangentially along the next edge; the last arc ends at the starting point |
| MathUtils.RoundRectEdgesNonNegative | packages/core/src/utils/math.ts:68-79 | after clamping, every straight edge has non-negative length |
| MathUtils.GutterAngle | packages/core/src/utils/math.ts:42 | for a non-zero radius, the inset angle spans half the gutter at that radius; for radius 0 it is not finite |
| MathUtils.GutterAngleInverse | packages/core/src/utils/math.ts:42 | the inset angle is inversely proportional to the radius |
| MathUtils.JoinDistance | packages/core/src/utils/math.ts:56 | the distance times the absolute sine of half the sector angle is half the gutter; it is not finite when that sine is 0 |
| MathUtils.FanPath | packages/core/src/utils/math.ts:41-60 | the sector path has four commands, opened by `beginPath` and ended by `closePath` |
| MathUtils.FanShapedByArc | packages/core/src/utils/math.ts:33-61 | the context receives exactly the sector commands; the inner radius has no effect |
| MathUtils.FanPathSingleOuterArc | packages/core/src/utils/math.ts:48-60 | the path has one arc, clockwise about the origin at the outer radius, followed by a straight line |
| MathUtils.FanArcSymmetric | packages/core/src/utils/math.ts:42-48 | the outer arc is the sector shrunk by the same gutter angle at both ends, so it keeps the sector's bisector |
| MathUtils.FanDegenerateJoin | packages/core/src/utils/math.ts:53-58 | a sector whose half-angle sine is 0 with a non-zero gutter closes to a non-finite point |
| Tween.Clamp | packages/core/src/utils/tween.ts:19 | the elapsed time used never passes the duration, and is the given time unless that passed it |
| Tween.EaseIn | packages/core/src/utils/tween.ts:18-21 | starts at `b` at time 0 and is `b + c` at and after the duration |
| Tween.EaseOut | packages/core/src/utils/tween.ts:22-25 | starts at `b` at time 0 and is `b + c` at and after the duration |
| Tween.EaseInMonotone | packages/core/src/utils/tween.ts:18-21 | with a non-negative change, easing in never decreases over time |
| Tween.EaseOutMonotone | packages/core/src/utils/tween.ts:22-25 | with a non-negative change, easing out never decreases over time |
| Tween.EaseWithinRange | packages/core/src/utils/tween.ts:18-25 | from time 0 on, both curves stay between `b` and `b + c` |
| Tween.EaseOutMirrorsEaseIn | packages/core/src/utils/tween.ts:18-25 | on the duration, easing out is easing in mirrored in time and in value |
| LuckyBase.UnitHandlerOf | packages/core/src/lib/lucky.ts:279 | `handleCssUnit` when set, `unitFunc` otherwise |
| LuckyBase.ResolveDpr | packages/core/src/lib/lucky.ts:93-102 | a truthy configured ratio is kept; with a window it becomes `devicePixelRatio`, or 1 when that is falsy, and is then truthy; otherwise it is left as it was |
| LuckyBase.ResolveBoxSide | packages/core/src/lib/lucky.ts:116-117 | the configured length when truthy, the measured size otherwise, so never NaN |
| LuckyBase.PlanDraw | packages/core/src/lib/lucky.ts:200-213 | an image with its own 2D context outside a browser is copied pixel by pixel: all entries are scaled by the ratio, the first four are the source region and entries 4 and 5 the destination; otherwise an 8-entry rectangle has its first four entries scaled and other rectangles are passed as they are |
| LuckyBase.ScaledRectRecoversLayout | packages/core/src/lib/lucky.ts:204-209 | for a finite non-zero ratio, dividing any scaled entry by the ratio gives back the layout entry |
| LuckyBase.FourEntryRectUnscaled | packages/core/src/lib/lucky.ts:207-213 | in a browser a 4-entry rectangle is drawn unscaled |
| LuckyBase.ClearedRect | packages/core/src/lib/lucky.ts:84-87 | the cleared rectangle starts at minus the box and reaches plus the box in each direction |
| LuckyBase.Lucky.constructor | packages/core/src/lib/lucky.ts:25-52 | keeps the configuration and size, forces the flag to `MP-WX` (so not a browser), and starts with root font size 16 and a 0 x 0 box |
| LuckyBase.Lucky.IsWeb | packages/core/src/lib/lucky.ts:168-170 | the widget is in a full browser exactly when its flag is none of the three mini-program platforms |
| LuckyBase.Lucky.Units | packages/core/src/lib/lucky.ts:270-280 | unit conversion reads the widget's root font size, the window width and the user's unit handler |
| LuckyBase.Lucky.UnitsOfWidget | packages/core/src/lib/lucky.ts:270-280 | with the widget's context, `rem` scales by the widget's root font size, `vw` by the window width, and any other unit goes to `config.handleCssUnit`, else `config.unitFunc`, else is the bare number |
| LuckyBase.Lucky.ChangeUnitsOfWidget | packages/core/src/lib/lucky.ts:267-282 | `changeUnits` on the widget, for a string the regex splits with a unit outside the table, calls `config.handleCssUnit` on `Number(numeral)` and the unit when it is set, else `config.unitFunc`, else returns the number |
| LuckyBase.Lucky.SettledBox | packages/core/src/lib/lucky.ts:110-117 | each side is the configured length where truthy, the container's measured size elsewhere (0 without a container), never NaN |
| LuckyBase.Lucky.SetDpr | packages/core/src/lib/lucky.ts:93-102 | only `config.dpr` changes, to the resolved ratio; with a window it ends up truthy |
| LuckyBase.Lucky.ResetWidthAndHeight | packages/core/src/lib/lucky.ts:107-124 | the box becomes the settled box; the container gets `overflow: hidden` and the box as its style size; its measured size is untouched |
| LuckyBase.Lucky.ZoomCanvas | packages/core/src/lib/lucky.ts:129-137 | with a canvas element, its size becomes the box times the ratio and the context is scaled by the ratio once; for a finite non-zero ratio, dividing the canvas size by the ratio gives the box back; without a canvas element the context is untouched |
| LuckyBase.Lucky.ClearCanvas | packages/core/src/lib/lucky.ts:84-87 | exactly one `clearRect` of the cleared rectangle is issued |
| LuckyBase.Lucky.Resize | packages/core/src/lib/lucky.ts:57-65 | the ratio is resolved first, then the box is settled and the container styled (its measured size untouched), then the canvas is sized and scaled with the resolved ratio |
| LuckyBase.Lucky.InitLucky | packages/core/src/lib/lucky.ts:70-75 | it leaves everything `resize` does (ratio, box, container style, canvas size and one `scale` call), and reports success exactly when both box sides are truthy |
| LuckyBase.Lucky.DrawImage | packages/core/src/lib/lucky.ts:195-223 | the calls issued are those of the draw plan: `getImageData` on the image's own context and `putImageData` on the target (both on one log when they are the same context), or a single `drawImage`; nothing else is drawn |

## Left out

- The spin state machines of the wheel, grid and slot machine are not part of this model. Only the base class, the geometry helpers and the easing functions are modelled.
- `$set`, `$computed` and `$watch`, the reactive observer they use, `initWindowFunction`, `loadImg` (a promise) and `handleClick` (empty) are not part of this model.
- The `config.beforeResize` hook in `resize` is a foreign call and is left out.
- The `console.error` diagnostics in the constructor, `setDpr` and `initLucky` are left out. `InitLucky` returns false exactly when the source would log the error.
- LuckyBase.Lucky.constructor: the string and DOM-element forms of `config` are not modelled. The 2D context is passed in instead of being read from `config.canvasElement.getContext('2d')`.
- Canvas pixels are not modelled. The context records the calls it receives.
- LuckyBase.Lucky.DrawImage: the exception the source swallows around `ctx.drawImage` is not modelled, because the recorder raises none. `putImageData` with fewer than two destination entries is recorded as it is rather than raising.
- LuckyBase.Lucky.ZoomCanvas: a canvas's width and height are integers in the DOM, and the truncation on assignment is not modelled.
- LuckyBase.Lucky.ResetWidthAndHeight: the style strings `width + 'px'` are modelled as the numbers they print.
- LuckyBase.Lucky.SetDpr: in an environment where `window` is not declared, the bare `window` test throws. The model takes a host without a window to the logging branch instead.
- JsNumbers: numbers are exact reals. Floating-point rounding and the sign of zero are not modelled, so `Math.PI` is the exact value of the double and `PI / 180 * deg` is exact.
- NumberParsing.ParseNumber covers the numerals the unit regex can produce: an optional sign, digits and at most one dot. Whitespace, exponents, hexadecimal and `Infinity` are read as NaN. They are reachable only when the regex does not match.
- Lengths.ChangeUnitsOfNumeral: the numerals it covers are those `ShowDecimal` writes, with no leading zeros beyond the single one in front of the point. Other spellings such as `.5`, `5.` or `007` are parsed by `ParseNumber`, but no round-trip is stated for them.
- Lengths.ApplyUnit: `vw` reads `window.innerWidth` from the host passed in. The `ReferenceError` without a window is not modelled.
- MathUtils.GetArcPointerByDeg: `Math.sin` and `Math.cos` are uninterpreted functions, so the contract states each coordinate as the rounded product with them and proves no trigonometric values.
- MathUtils.RoundRectByArc: the `IndexSizeError` a canvas raises for a negative radius is not modelled.
- Tween.EaseIn: requires a non-zero duration. With a zero duration the source divides by zero: the result is NaN for `t >= 0` and an infinity (or NaN when `c` is 0) for `t < 0`, which a real-valued model cannot represent. Its lemmas also require a positive duration.
- Tween.EaseOut: requires a non-zero duration, for the same reason as `EaseIn`.
