# Pseudo-3D bar chart: a Dafny model

This project models the deterministic core of `BarChart3D`, a React component
that draws a bar chart on a fixed 800 x 500 canvas. Each bar is a front
rectangle plus two parallelograms, a lighter top face and a darker right
face, pushed back by the skew vector (+10, -10). The bars grow from the
baseline over 80 frames. Once the animation completes, moving the pointer
over a bar hovers it.

The model has seven modules, all in the component's one source file:

- `Colour` (`colour.dfy`) is `shadeColor`. It parses `#rrggbb` into a packed
  integer and splits it into channels. It shifts every channel by
  `Math.round(2.55 * percent)` and clamps the result into [0, 255]. It writes
  the result back as `#` and six lower-case hex digits.
- `Layout` (`layout.dfy`) is the `data.map` in `drawChart`. It turns the data
  series into bar records, using the constants of the source (bar width 40,
  chart height 400, x offset 150, y offset 50, right margin 100).
- `Axes` (`axes.dfy`) holds `drawYAxisLabels` and `drawXAxisLabels`.
  `drawYAxisLabels` draws the six Y ticks with their labels and gridlines.
  `drawXAxisLabels` draws one label per bar.
- `Extrusion` (`extrusion.dfy`) is `draw3DBar`. It returns the three faces, the
  value label and where they are drawn.
- `Animation` (`animation.dfy`) is `animateBars`: the self-rescheduling loop
  over `progress`, as a method with a `while` loop.
- `HitTest` (`hittest.dfy`) is the scan in `handleMouseMove`. It has a pure
  recursive specification, `LastHit`, and a method with a loop that is proved
  equal to it.
- `Chart` (`chart.dfy`) is the component's two state slots, `hoveredBar` and
  `animationComplete`. They are fields of a class, and its methods are the
  render pass and the two pointer listeners.

Coordinates are exact `real`s. `Math.round(x)` is `floor(x + 1/2)`. The packed
colour is a `nat`. For `0 <= num < 2^24`, `num >> k` is `num / 2^k` and
`num & (2^k - 1)` is `num % 2^k`, so the channel split is written with `/`
and `%`. The field `label` of a data point is called `name`, because `label`
is a reserved word in Dafny.

Two facts about the code shape the preconditions and what is left out:

- The code has no guard on an empty series: line 20 gives `Math.max()` =
  -Infinity and line 170 divides by 0. Nor does it guard an all-zero series,
  where line 172 computes 0 / 0. The model therefore requires a non-empty
  series with a positive maximum (`Layout.Drawable`), which also leaves out
  the series whose maximum is negative.
- The code never cancels a pending frame, and line 217 removes a new arrow
  function, so it cannot detach the `mouseout` listener attached at line 213.

`Chart.HoverAfterAnimation` is a usage example, not a model of any source
line. It shows on the two-bar series that a move before the animation
changes nothing, that a move onto the second bar afterwards hovers it, and
that leaving the canvas clears the hover.

## Model

| member | source | states |
|---|---|---|
| Colour.Digit | src/component/Bar3DChart.tsx:69 | the digit written for a value below 16 is a lower-case hex digit that reads back as that value |
| Colour.ParseHex | src/component/Bar3DChart.tsx:61 | `parseInt(_, 16)` of a string of `k` hex digits, either case, is below `16^k` |
| Colour.ToHexString | src/component/Bar3DChart.tsx:69 | `n.toString(16)` is at least one digit long and uses only lower-case hex digits |
| Colour.HexDigits | src/component/Bar3DChart.tsx:69-70 | the last `k` hex digits of a value, zero-padded, are exactly `k` lower-case hex digits |
| Colour.ToHexStringLeadingOne | src/component/Bar3DChart.tsx:66-70 | writing `16^k + v` (for `v < 16^k`) gives `1` followed by `v` on exactly `k` digits, zero-padded |
| Colour.DropLeadingOne | src/component/Bar3DChart.tsx:66-70 | `(0x1000000 + v).toString(16).slice(1)` is `v` written on exactly six digits, for every `v < 2^24` |
| Colour.ParseHexDigits | src/component/Bar3DChart.tsx:61 | `parseInt(_, 16)` reads a value written on `k` digits back as that same value |
| Colour.HexDigitsOfParse | src/component/Bar3DChart.tsx:61 | rewriting a parsed digit string on the same number of digits gives the same digits, lower-cased |
| Colour.Channels | src/component/Bar3DChart.tsx:63-65 | `>> 16`, `(>> 8) & 0xFF` and `& 0xFF` each give a channel in [0, 255] |
| Colour.Pack | src/component/Bar3DChart.tsx:66-68 | `R*0x10000 + G*0x100 + B` of three channels in [0, 255] fits in 24 bits |
| Colour.PackChannels | src/component/Bar3DChart.tsx:63-68 | packing the three split channels, `R*0x10000 + G*0x100 + B`, gives back the packed value |
| Colour.ChannelsPack | src/component/Bar3DChart.tsx:63-68 | splitting a packed colour gives back its channels, and the packed value is below 2^24 |
| Colour.ColourOf | src/component/Bar3DChart.tsx:61-65 | decoding a well-formed `#rrggbb` gives three channels in [0, 255] |
| Colour.Round | src/component/Bar3DChart.tsx:62 | `Math.round` picks the integer within one half of `x`, rounding halves up |
| Colour.Amount | src/component/Bar3DChart.tsx:62 | the shift `Math.round(2.55 * percent)` is within one half of `2.55 * percent` |
| Colour.AmountOfFaceShades | src/component/Bar3DChart.tsx:62 | the shift is +26 at +10 percent (top face) and -25 at -10 percent (right face) |
| Colour.Clamp | src/component/Bar3DChart.tsx:66-68 | the result is a channel; below 1 gives 0, 255 and above gives 255, and a value already in [0, 255] is kept |
| Colour.ClampMonotone | src/component/Bar3DChart.tsx:66-68 | clamping preserves order: values saturate and never wrap |
| Colour.ShiftChannels | src/component/Bar3DChart.tsx:63-68 | shifting and clamping always yields three valid channels |
| Colour.Encode | src/component/Bar3DChart.tsx:66-70 | the encoding is `#` and six lower-case hex digits, and decoding it gives the channels back |
| Colour.EncodeColourOf | src/component/Bar3DChart.tsx:61-70 | decoding and re-encoding a well-formed colour gives its digits back, lower-cased |
| Colour.LowerHexColourDeterminedByChannels | src/component/Bar3DChart.tsx:66-70 | two lower-case colours with the same channels are the same string |
| Colour.ShadeColor | src/component/Bar3DChart.tsx:60-71 | `shadeColor` decodes the colour, shifts and clamps each channel by `Math.round(2.55 * percent)`, and encodes the result |
| Colour.ShadeColorOutput | src/component/Bar3DChart.tsx:60-71 | for every percentage the output is `#` and six lower-case hex digits, and each output channel is the clamped shifted input channel |
| Colour.ShadeByZero | src/component/Bar3DChart.tsx:60-71 | shading by 0 percent returns the colour with its digits lower-cased |
| Colour.ShadeByZeroLowerCase | src/component/Bar3DChart.tsx:60-71 | a lower-case colour is unchanged by shading by 0 percent |
| Colour.LighterFace | src/component/Bar3DChart.tsx:43 | the top face colour gains 26 per channel, saturating, so it is channel-wise at least the base colour |
| Colour.DarkerFace | src/component/Bar3DChart.tsx:32 | the right face colour loses 25 per channel, saturating, so it is channel-wise at most the base colour |
| Colour.GreyFaces | src/component/Bar3DChart.tsx:60-71 | `#808080` shades to `#9a9a9a` at +10 and to `#676767` at -10 |
| Layout.MaxValue | src/component/Bar3DChart.tsx:20 | `Math.max` over a non-empty series is at least every value and equal to one of them |
| Layout.BarSpacing | src/component/Bar3DChart.tsx:170 | the spacing `550 / n` is positive |
| Layout.BarAt | src/component/Bar3DChart.tsx:171-176 | the record of point `i` is 40 wide, carries the point's colour and value, has its target height `HeightOf(value, max)` (proportional to its value by `Layout.HeightProportional`) and its bottom on the baseline 450, and starts at or right of x = 150 |
| Layout.Bars | src/component/Bar3DChart.tsx:171-177 | the output has exactly one bar per data point, in series order |
| Layout.BarShape | src/component/Bar3DChart.tsx:171-177 | each bar keeps its point's colour and value, is 40 wide, and has its bottom (`y + targetHeight`) on the baseline 450 |
| Layout.BarX | src/component/Bar3DChart.tsx:170-173 | bar `i` has its left edge at `150 + i * 550 / n` |
| Layout.XStrictlyIncreasing | src/component/Bar3DChart.tsx:170-173 | x is strictly increasing in the index, and two bars are `(j - i)` spacings apart |
| Layout.HeightBounded | src/component/Bar3DChart.tsx:172-174 | with non-negative values, every target height is in [0, 400] and every top is in [50, 450] |
| Layout.HeightProportional | src/component/Bar3DChart.tsx:172 | the height `(value / max) * 400` is proportional to the value: height times max is value times 400 |
| Layout.TallestBarFullHeight | src/component/Bar3DChart.tsx:172 | the bar with the maximum value has the full chart height 400 |
| Layout.TwoBarExample | src/component/Bar3DChart.tsx:167-177 | the series A=50, B=100 gives maximum 100, heights 200 and 400, and x positions 150 and 425 |
| Axes.YTickAt | src/component/Bar3DChart.tsx:82-92 | tick `i` is at `y = 450 - 80*i`, its label is anchored at (140, y + 5), its gridline runs from x=150 to x=750, and its label is within one half of `max / 5 * i` |
| Axes.DrawYAxisLabels | src/component/Bar3DChart.tsx:73-95 | the loop draws exactly six ticks, `i = 0..5`; tick `i` is at `y = 450 - 80*i`, and its gridline runs from x=150 to x=750 |
| Axes.YTicksSpan | src/component/Bar3DChart.tsx:82-84 | the ticks go from the baseline (label 0) up to y=50 (label `round(max)`), strictly upwards |
| Axes.YLabelsNonDecreasing | src/component/Bar3DChart.tsx:83 | for a non-negative maximum, the tick labels never decrease going up |
| Axes.YLabelsForHundred | src/component/Bar3DChart.tsx:74-83 | a maximum of 100 gives the labels 0, 20, 40, 60, 80 and 100 |
| Axes.XLabels | src/component/Bar3DChart.tsx:97-108 | one label per data point, in series order, each carrying its point's name, 30 below the baseline, at `x = 150 + i * 550 / n + 20`; an empty series draws none |
| Axes.XLabelCentred | src/component/Bar3DChart.tsx:105 | each X label is centred under its own bar |
| Extrusion.Skew | src/component/Bar3DChart.tsx:36-37 | the skew moves a vertex 10 right and 10 up |
| Extrusion.Rectangle | src/component/Bar3DChart.tsx:29 | `fillRect(x, y, w, h)` is the axis-aligned parallelogram with top-left corner (x, y), width `w` and height `h` |
| Extrusion.RightFace | src/component/Bar3DChart.tsx:34-40 | the right face is the front's right edge and its copy pushed back by the skew vector, a parallelogram |
| Extrusion.TopFace | src/component/Bar3DChart.tsx:45-51 | the top face is the front's top edge and its copy pushed back by the skew vector, a parallelogram |
| Extrusion.Draw3DBar | src/component/Bar3DChart.tsx:26-58 | the front face is the bar's rectangle; the right and top faces hang off its right and top edges and share the edge that recedes from its top-right corner, from `front[1]` to `Skew(front[1])`; the fill colours are the darker and lighter shades; the value is drawn at the top centre, 10 above the bar |
| Extrusion.FaceShading | src/component/Bar3DChart.tsx:32-44 | the top face is channel-wise at least the front colour and the right face at most, both in output form |
| Animation.DrawnAt | src/component/Bar3DChart.tsx:151-152 | the drawn height is the smaller of `progress` and the target height, the bottom stays where the target bar's bottom is, and x, width, colour and value are kept |
| Animation.FrameAt | src/component/Bar3DChart.tsx:150-153 | each frame draws every bar, in order, clipped to `min(progress, targetHeight)` with its top at `y + targetHeight - height` |
| Animation.AnimateBars | src/component/Bar3DChart.tsx:129-165 | the loop runs exactly 80 frames; progress goes 5, 10, ..., 400, one step of 5 per frame; the completion flag is raised on the last frame and on no other |
| Animation.DrawnBarBounds | src/component/Bar3DChart.tsx:150-152 | a drawn bar's height is in [0, target], its bottom stays fixed, and it never shrinks as progress grows |
| Animation.FramesStandOnBaseline | src/component/Bar3DChart.tsx:150-152 | in every frame every laid-out bar stands on the baseline 450 and stays within its target height |
| Animation.LastFrameFullHeight | src/component/Bar3DChart.tsx:150-161 | the last frame draws every bar at its full laid-out height and position |
| HitTest.InHitBox | src/component/Bar3DChart.tsx:199-204 | for a laid-out bar the closed hit box is exactly the front rectangle drawn once the animation has completed |
| HitTest.Hovered | src/component/Bar3DChart.tsx:205 | the hover record carries the bar's index and value and is anchored at the middle of the front face's top edge, which lies inside the bar's own box for a non-negative value |
| HitTest.LastHit | src/component/Bar3DChart.tsx:193-207 | the last match among the first `n` bars, when there is one, is a matching index below `n` with that bar's hover record |
| HitTest.LastHitIsGreatestMatch | src/component/Bar3DChart.tsx:193-207 | the scan's result is empty exactly when no box contains the pointer; otherwise it is the greatest matching index, with `x = x_i + 20`, `y = y_i` and that bar's value |
| HitTest.ScanBars | src/component/Bar3DChart.tsx:191-209 | the `forEach` loop, which overwrites `foundBar` on every match, computes the last match |
| HitTest.SpacingExceedsBarWidth | src/component/Bar3DChart.tsx:191 | for 1 to 13 bars the spacing `550 / n` is wider than the bar width 40 |
| HitTest.AtMostOneMatch | src/component/Bar3DChart.tsx:194-204 | with at most 13 bars no two boxes overlap, so at most one bar matches |
| HitTest.FourteenBarsOverlap | src/component/Bar3DChart.tsx:194-206 | with 14 equal bars the point (190, 450) lies in the boxes of bars 0 and 1, and bar 1 wins |
| HitTest.FacesOutsideHitBox | src/component/Bar3DChart.tsx:199-204 | the extruded top and right faces are not part of the hit box |
| Chart.BarChart3D.constructor | src/component/Bar3DChart.tsx:8-9 | the component starts with nothing hovered and the animation not complete |
| Chart.BarChart3D.DrawChart | src/component/Bar3DChart.tsx:167-180 | rendering lays the bars out, draws all 80 frames over them, and raises the completion flag without touching the hover slot |
| Chart.BarChart3D.HandleMouseMove | src/component/Bar3DChart.tsx:184-210 | before completion a move leaves the hover slot unchanged; after it the slot holds the last matching bar, or nothing |
| Chart.BarChart3D.HandleMouseOut | src/component/Bar3DChart.tsx:213 | `mouseout` clears the hover slot and leaves the completion flag alone |

## Left out

- React wiring is not modelled: `useRef`, `useState`, `useEffect` and its dependency list.
- No canvas call is modelled: `getContext`, `clearRect`, `fillStyle`, `font`, `textAlign`, `strokeStyle`, `lineWidth`, the path calls and `fillText`. Drawing becomes returned faces, ticks, labels and frames.
- `getBoundingClientRect` is not modelled. `HandleMouseMove` takes pointer coordinates that are already relative to the canvas.
- `requestAnimationFrame` becomes one iteration of the loop in `AnimateBars`. Frames are never cancelled, and concurrent animation loops are not modelled.
- The effect runs again when `animationComplete` flips, which replays the animation. That replay is not modelled.
- Listener teardown is not modelled. The cleanup removes a new arrow function, so the `mouseout` listener is never detached. Nothing here claims teardown is correct.
- `handleMouseMove` reads the `animationComplete` captured when the effect ran. Line 156 only schedules the state update. Until React commits it and re-runs the effect (the cleanup of line 216, then the effect again), the attached listener is the old closure, which holds `false` and ignores every move. The model's slot is already `true` when `DrawChart` returns, so this window is not modelled.
- `drawTooltip` is not modelled, because nothing calls it. The `backgroundColor` prop is not modelled either, because nothing uses it.
- `drawTitle` is not modelled. It draws the title at the fixed point (400, 30), so there is nothing to state.
- The white baseline drawn at y = 450 each frame is not modelled, for the same reason.
- A frame records only its bars. The title, axis labels and gridlines it redraws are the same every frame and are given by `Axes`.
- IEEE-754 rounding is not modelled: in `550 / n`, `value / max * 400` and `2.55 * percent`. Arithmetic is exact, so `2.55 * 10` is exactly 25.5.
- Series the layout cannot use are excluded by the precondition `Layout.Drawable`. An empty series gives `Math.max()` = -Infinity and a spacing of `550 / 0`; an all-zero series gives `0 / 0` heights. The code does not guard either case. `Layout.Drawable` also excludes every series whose maximum is negative, although the code lays such a series out without dividing by zero (every value is at most the negative maximum, so every height `value / max * 400` is at least 400 and the bars reach above the top of the plot); the model promises nothing about such a series.
- Colour strings that are not `#` plus six hex digits are excluded by `Colour.WellFormed`: `parseInt` would give NaN or a value of the wrong width.
- Numbers are never turned into text (`toString()` of a value or tick label). Values stay numbers and tick labels stay integers.
