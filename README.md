# SparkChart: a verified model of the clui spark-chart widget

The clui `SparkChart` shows a stream of numeric samples as a row of
one-column bars, with an optional value axis at the left.

The widget keeps a trailing buffer of samples, which `AddData` and `SetData`
cut to the newest samples that fit the bar area. It splits the control width
between the axis and the bar area (`calculateBarArea`) and derives a vertical
scale from the whole buffer (`calculateMultiplier`). On every repaint it fills
the background, draws the axis labels (`drawValues`) and then the bars
(`drawBars`), using the peak colours for bars whose sample equals the maximum.

The model has five modules:

- `Layout` covers `calculateBarArea`, with Go's truncating `width / 2` written
  out as `Half`.
- `Window` covers the trailing-suffix cut of the buffer and the sliding-window
  laws that repeated cuts obey.
- `Scale` covers the maximum scan and the choice of coefficient, as functions
  over `real` samples.
- `Render` describes what a repaint puts on the canvas as an ordered trace of
  paint records: a `Rect` with a colour role (background, normal or peak), or
  a `Label` with its row, field width and numeric value. `Truncate` models
  Go's `int(float64)`, which rounds toward zero.
- `Chart` defines the widget state as a value (`State`) and the trace each
  drawing pass produces in a state (`BarsTrace`, `ValuesTrace`,
  `RepaintTrace`). It also holds the class `SparkChart`, whose fields the
  mutators update in place.
  - Each mutator states its whole new state as `Snapshot() ==
    old(Snapshot()).(field := ...)`.
  - `CalculateMultiplier` keeps the scan loop of the source and is proved to
    return `ScaleOf(Snapshot())`.
  - `DrawBars`/`PaintColumns`, `DrawValues` and `Repaint` keep the loops of
    the source. Each is proved to return exactly the trace function of the
    current state. The lemmas in `Chart` then say what those traces mean.

## Model

| member | source | states |
|---|---|---|
| Layout.Half | sparkchart.go:173 | Go's `w/2` truncates toward zero: for `n >= 0` the result is the floor of n/2; for `n < 0` it is the ceiling of n/2. |
| Layout.BarArea | sparkchart.go:169-179 | The axis offset and the bar width always add up to the control width. The offset is the value width when that is below width/2, and 0 otherwise. |
| Layout.BarAreaWithinControl | sparkchart.go:169-179 | With a non-negative width and value width, both regions lie inside the control. A reserved axis is less than half the width and narrower than the bar area. |
| Layout.CapacityNonNegative | sparkchart.go:169-179 | A control of non-negative width never gets a negative bar capacity, whatever value width is set. |
| Layout.WideAxisSuppressed | sparkchart.go:173-176 | Value width 6 on a 10-column control is not below 10/2, so the axis is dropped and the bars get all 10 columns. |
| Window.Newest | sparkchart.go:213-216 | The cut keeps `min(|s|, w)` samples, and they are a suffix of the input. |
| Window.NewestAt | sparkchart.go:214-215 | Kept sample `i` is input sample `|s| - |kept| + i`: nothing is reordered or invented. |
| Window.NewestOfSuffix | sparkchart.go:214-215 | Cutting a suffix of `u` to `w` equals cutting `u` to the smaller of the suffix length and `w`. |
| Window.WindowSlides | sparkchart.go:210-216 | After AddData on the newest w1 samples of the history with capacity w2, the buffer holds the newest min(w1+1, w2) samples of the whole history: the one-call step of `Window.AppendAllIsNewest`. |
| Window.AppendAll | sparkchart.go:210-216 | Defines the buffer after a run of AddData calls at one capacity; it has no contract of its own. `Window.AppendAllIsNewest` states its meaning. |
| Window.AppendAllIsNewest | sparkchart.go:210-233 | With the capacity unchanged, a run of AddData calls after SetData of `t` (or after ClearData or construction, `t` empty) leaves exactly the newest `w` samples of `t + vs`, where `vs` are the samples added since. |
| Window.FifteenIntoTen | sparkchart.go:214-215 | Fifteen samples on a ten-column bar area keep samples 6..15. |
| Scale.Max | sparkchart.go:191-196 | Defines the left-to-right maximum scan; it has no contract of its own. `Scale.MaxIsLargest` states what it computes. |
| Scale.MaxIsLargest | sparkchart.go:191-196 | The left-to-right scan returns one of the samples, and no sample exceeds it. |
| Scale.Multiplier | sparkchart.go:181-207 | An empty buffer or a height of at most one row gives (0, 0). The coefficient is 0 exactly when the maximum is 0. |
| Scale.MultiplierDegenerate | sparkchart.go:182-200 | The result is (0, 0) if and only if the buffer is empty, the height is at most one row, or the scanned maximum is 0. |
| Scale.MultiplierMax | sparkchart.go:191-196 | Whenever the buffer is scanned, the reported maximum is a sample of the whole buffer and at least every sample. |
| Scale.MultiplierCoefficient | sparkchart.go:202-206 | A non-zero coefficient implies a non-empty buffer and a height above 1. Under auto-scale or an unset top value, coeff * max == height. Otherwise the top value is non-zero and coeff * top == height. |
| Scale.AutoScaleFits | sparkchart.go:202-203 | Under auto-scale or an unset top value with a positive maximum, the coefficient is positive and every sample of the buffer times the coefficient is at most the height. |
| Scale.NegativeMultiplier | sparkchart.go:191-203 | Under auto-scale or an unset top value with a negative maximum, the height exceeds one row, coeff * max == height, and every sample is at most the maximum. |
| Render.Truncate | sparkchart.go:119 | `int(d*coeff)` drops the fraction toward zero: for a non-negative argument n <= r < n+1; for a negative one n-1 < r <= n. |
| Render.TruncateAtMost | sparkchart.go:119 | Truncating a value no greater than an integer bound gives at most that bound. |
| Render.NegativeScaledAtLeast | sparkchart.go:119 | When the coefficient scales a negative maximum to the height h, every sample at or below the maximum gets a bar of at least h cells, and the maximum itself a bar of exactly h. |
| Render.BarHeight | sparkchart.go:119 | Defines a sample's bar height as the truncated product with the coefficient; it has no contract of its own. `Render.Truncate`, `Chart.SampleFits` and `Chart.NegativeBarsOverflow` state its bounds. |
| Render.ToneOf | sparkchart.go:126-129 | A bar takes the peak colours exactly when highlighting is on and its sample equals the maximum. It never takes the background colours. |
| Render.BarAt | sparkchart.go:126-131 | Defines the one-column rectangle of a sample; it has no contract of its own. `Render.BarsSound` states its position, size and tone. |
| Render.Column | sparkchart.go:119-131 | Defines what one column contributes: nothing for a height of at most 0, else its rectangle. It has no contract of its own; `Render.BarsSound` and `Render.BarsComplete` state its meaning. |
| Render.Bars | sparkchart.go:118-134 | Defines the column loop as a trace; it has no contract of its own. `Render.BarsSound`, `Render.BarsComplete`, `Render.BarsColumns` and `Render.BarsOrdered` state what it paints. |
| Render.BarsSnoc | sparkchart.go:118-134 | One more displayed sample adds exactly that sample's column at the end of the trace. |
| Render.BarsPair | sparkchart.go:118-134 | A two-sample window paints its two columns in order. |
| Render.BarsNone | sparkchart.go:121-124 | A window whose bar heights are all at most 0 paints nothing. |
| Render.BarsAll | sparkchart.go:118-134 | A window whose every bar height is positive paints exactly one rectangle per displayed sample. |
| Render.BarsSound | sparkchart.go:118-134 | Every painted rectangle belongs to a displayed sample with a positive bar height. It sits in column `left + i` of that sample, is one column wide, stands on the bottom edge, is as tall as the sample's bar height, and has the sample's tone. |
| Render.BarsComplete | sparkchart.go:118-134 | Every displayed sample with a positive bar height has its rectangle in the trace. |
| Render.BarsColumns | sparkchart.go:118-134 | All rectangles lie in the columns of the displayed samples. |
| Render.BarsOrdered | sparkchart.go:118-134 | The column cursor only moves right: rectangles come in strictly increasing column order. |
| Render.LabelValue | sparkchart.go:160 | Defines the value of the label in row dy as (h-dy)/h of the label maximum; it has no contract of its own. `Render.LabelsScaled` states its meaning. |
| Render.Labels | sparkchart.go:157-166 | Defines the row loop of the axis as a trace; it has no contract of its own. `Render.LabelsShape` states its count, rows, column and values. |
| Render.LabelsShape | sparkchart.go:157-166 | From row offset dy there are (h-dy)/2 labels, or none when dy >= h-1. Label k is in row dy+2k with dy+2k+2 <= h, in column x, cut to the value width, and carries (h-dy-2k)/h of the label maximum. |
| Render.LabelsScaled | sparkchart.go:160 | When the coefficient scales the label maximum to h, it scales label k to exactly h-2k. |
| Render.LabelScaledAt | sparkchart.go:160 | The same statement for one label k. |
| Render.ScaledLabel | sparkchart.go:160 | The same statement for a single value n/h of the maximum: it scales to n. |
| Chart.Capacity | sparkchart.go:93 | Defines the bar capacity as the bar width of the layout; it has no contract of its own. `Layout.CapacityNonNegative` and `Layout.BarAreaWithinControl` state its bounds. |
| Chart.Origin | sparkchart.go:104 | Defines the first bar column as x plus the axis offset; it has no contract of its own. `Chart.BarsPlacement` states where bars land relative to it. |
| Chart.ScaleOf | sparkchart.go:98 | Defines the scale of a state as `Multiplier` of its buffer, height and configuration; it has no contract of its own. The `Scale` lemmas state its meaning. |
| Chart.Displayed | sparkchart.go:111-116 | Defines the displayed samples as the newest `Capacity` samples of the buffer; it has no contract of its own. `Window.Newest` and `Chart.SamplesPainted` state what it holds. |
| Chart.BarsTrace | sparkchart.go:88-135 | Defines the drawBars pass, with its early exits, as a trace; it has no contract of its own. `Chart.BarsPlacement`, `Chart.PeakColour`, `Chart.AutoScaleBarsFit` and `Chart.TopValueHidesNegative` state what it paints. |
| Chart.LabelTop | sparkchart.go:152-154 | Defines the label maximum by the literal rule of the source: the top value whenever auto-scale is off or the top value is 0. It has no contract of its own; `Chart.LabelsLayout` and `Chart.LabelScale` state its consequences. |
| Chart.ValuesTrace | sparkchart.go:137-167 | Defines the drawValues pass, with its early exits, as a trace; it has no contract of its own. `Chart.ValuesShownIff`, `Chart.LabelsLayout` and `Chart.LabelValues` state its meaning. |
| Chart.RepaintTrace | sparkchart.go:73-86 | Defines a repaint as the background followed, on a non-empty buffer, by the two passes. It has no contract of its own; `Chart.RepaintOrder` states the order. |
| Chart.BarsTraceAt | sparkchart.go:88-116 | Past the early exits, the bar trace is the column trace of the displayed window, its origin and its scale. |
| Chart.BarsTraceIs | sparkchart.go:88-116 | The same statement in terms of `Displayed`, `Origin` and `ScaleOf`. |
| Chart.BarsPlacement | sparkchart.go:104-134 | Every painted bar is one column wide, positive, and on the bottom edge. It lies in column Origin + i of displayed sample i, and its height is that sample's truncated scaled value. |
| Chart.BarPlacedAt | sparkchart.go:104-134 | The same statement for a single painted bar. |
| Chart.SamplesPainted | sparkchart.go:111-134 | When bars are drawn, the window has min(|data|, capacity) samples. Each of them with a positive bar height is painted in column Origin + i with its tone. |
| Chart.DominatesIffMax | sparkchart.go:191-196 | For samples of the buffer, "at least every sample" is the same as "equal to the buffer maximum". |
| Chart.PeakColour | sparkchart.go:98-129 | A painted bar is peak-coloured exactly when highlighting is on and its sample is at least every sample of the whole buffer, including samples too old to be shown. All tied samples are highlighted, and none are with highlighting off. |
| Chart.PeakColourAt | sparkchart.go:98-129 | The same statement for a single painted bar. |
| Chart.PeakToneAt | sparkchart.go:126-129 | The same statement for a single displayed sample. |
| Chart.SampleFits | sparkchart.go:119 | Under auto-scale or an unset top value, with a positive maximum, no displayed sample's bar height exceeds the control height. |
| Chart.SampleScaled | sparkchart.go:202-203 | Under the same conditions, a displayed sample times the coefficient is at most the control height. |
| Chart.AutoScaleBarsFit | sparkchart.go:119-131 | Under those conditions every painted bar has 0 < height <= control height and its top row is not above the control. |
| Chart.NegativeMaximum | sparkchart.go:191-196 | A non-empty buffer of only negative samples, scanned at a height above one row, has a negative maximum. |
| Chart.NegativeBarsOverflow | sparkchart.go:119-131 | Under auto-scale or an unset top value, a negative maximum gives every displayed sample a bar at least as tall as the control, and a sample equal to the maximum a bar exactly as tall. |
| Chart.NegativeBarsAllDrawn | sparkchart.go:88-134 | Under auto-scale or an unset top value, on a control taller than one row with a bar area of at least two columns, a non-empty all-negative buffer gets one rectangle per displayed sample. |
| Chart.TopValueHidesNegative | sparkchart.go:119-124 | With auto-scale off and a positive top value, a buffer of only negative samples paints no bar. |
| Chart.NegativeSamplesOverflow | sparkchart.go:119-131 | Samples [-1, -2] on a 10x5 chart give max -1 and coefficient -5. The bars get heights 5 and 10, so the second bar overflows the control, and the first is peak-coloured. |
| Chart.NegativeWindow | sparkchart.go:111-116 | Layout, window and scale of that all-negative chart. |
| Chart.NegativeScale | sparkchart.go:191-203 | The scale of that chart is (-5, -1). |
| Chart.NegativeBars | sparkchart.go:118-134 | The two rectangles of that chart. |
| Chart.NegativeColumns | sparkchart.go:119-131 | The two columns of that chart. |
| Chart.DefaultChartScenario | sparkchart.go:88-134 | On the default 10x5 chart, data [1,2,3,4,20] gives scale 5/20. The bar trace is a one-row normal bar in column 3 and a full-height peak bar in column 4. |
| Chart.DefaultWindow | sparkchart.go:111-116 | Layout, window and scale of the default-chart scenario. |
| Chart.DefaultScale | sparkchart.go:191-203 | Its scale is (0.25, 20). |
| Chart.DefaultBars | sparkchart.go:118-134 | Its rectangles. |
| Chart.DefaultPrefix | sparkchart.go:118-134 | Its first four samples paint only the bar in column 3. |
| Chart.DefaultColumns | sparkchart.go:119-131 | Its bar heights 0, 0, 0, 1, 5 and the columns of samples 4 and 20. |
| Chart.ValuesShownIff | sparkchart.go:138-151 | The axis is drawn if and only if the value width is positive, the layout reserves the axis, and the coefficient differs from the maximum. |
| Chart.LabelsLayout | sparkchart.go:152-166 | A drawn axis has height/2 labels. Label k is in row y+2k with 2k+2 <= height, in column x, and cut to the value width. With a top value of 0 every label reads 0. |
| Chart.LabelValues | sparkchart.go:152-160 | With a configured top value, label k names the sample value whose bar reaches exactly row 2k: coeff * value == height - 2k. |
| Chart.LabelScale | sparkchart.go:202-206 | On a drawn axis with a configured top value, the coefficient scales the label maximum to exactly the height. |
| Chart.LabelsHiddenWhenCoefficientEqualsMax | sparkchart.go:148-151 | On a 10x4 chart with value width 3, top value 1 and the single sample 2, coeff == max == 2. The axis stays blank while a full-height peak bar is drawn. |
| Chart.RepaintOrder | sparkchart.go:73-86 | The first record is the background over the whole control, and an empty buffer paints nothing else. Otherwise the records after it are the labels, then only bars, none of them in background colours. |
| Chart.ValuesAreLabels | sparkchart.go:159-166 | The axis pass emits only labels. |
| Chart.BarsAreBars | sparkchart.go:118-134 | The bar pass emits only bar rectangles, never background. |
| Chart.SparkChart.constructor | sparkchart.go:45-63 | AutoSize gives 10 columns or 5 rows. The buffer is empty, highlighting and auto-scale are on, and there is no axis and no top value. |
| Chart.SparkChart.Resize | sparkchart.go:58 | The size becomes the given width and height, and nothing else changes: a resize does not re-trim the buffer. |
| Chart.SparkChart.Move | sparkchart.go:78 | The position, which Repaint and both passes draw at, becomes the given one, and nothing else changes. |
| Chart.SparkChart.AddData | sparkchart.go:210-216 | The new buffer is the newest `capacity` samples of the old buffer plus `v`, taking the capacity from this call's width and value width. It is a suffix of old ++ [v] with min(|old|+1, capacity) samples, and nothing else changes. |
| Chart.SparkChart.ClearData | sparkchart.go:221-223 | The buffer becomes empty and nothing else changes. |
| Chart.SparkChart.SetData | sparkchart.go:226-233 | The buffer becomes the newest `capacity` of the given samples, a suffix of min(|s|, capacity) of them, and nothing else changes. |
| Chart.SparkChart.SetValueWidth | sparkchart.go:239-246 | ValueWidth() returns the new width and no other field changes. |
| Chart.SparkChart.ValueWidth | sparkchart.go:239-241 | Reads the one field; it has no contract of its own. `Chart.SparkChart.SetValueWidth` states that it returns the value last set. |
| Chart.SparkChart.SetTop | sparkchart.go:250-258 | Top() returns the new top value and no other field changes. |
| Chart.SparkChart.Top | sparkchart.go:250-252 | Reads the one field; it has no contract of its own. `Chart.SparkChart.SetTop` states that it returns the value last set. |
| Chart.SparkChart.SetAutoScale | sparkchart.go:262-269 | AutoScale() returns the new flag and no other field changes. |
| Chart.SparkChart.AutoScale | sparkchart.go:262-264 | Reads the one field; it has no contract of its own. `Chart.SparkChart.SetAutoScale` states that it returns the value last set. |
| Chart.SparkChart.SetHilitePeaks | sparkchart.go:273-281 | HilitePeaks() returns the new flag and no other field changes. |
| Chart.SparkChart.HilitePeaks | sparkchart.go:273-275 | Reads the one field; it has no contract of its own. `Chart.SparkChart.SetHilitePeaks` states that it returns the value last set. |
| Chart.SparkChart.CalculateMultiplier | sparkchart.go:181-207 | The scan loop and the early exits return exactly `Multiplier` of the current state, so every `Scale` lemma applies to its result. |
| Chart.SparkChart.DrawBars | sparkchart.go:88-135 | The early exits, the window choice and the column loop produce exactly `BarsTrace` of the current state. |
| Chart.SparkChart.PaintColumns | sparkchart.go:118-134 | The column loop with its cursor produces exactly the column trace `Bars` of the displayed samples. |
| Chart.SparkChart.DrawValues | sparkchart.go:137-167 | The early exits, the choice of label maximum and the row loop produce exactly `ValuesTrace` of the current state. |
| Chart.SparkChart.Repaint | sparkchart.go:73-86 | The background, labels and bars come in the source's order, producing exactly `RepaintTrace` of the current state. |

## How the code differs from a natural reading of the widget

The model follows the code in each of these cases.

- Label maximum (sparkchart.go:152-154). The labels use the top value whenever
  auto-scale is off or the top value is 0. They do not use it only when
  auto-scale is off and a top value is configured. So with auto-scale on and
  no top value every label reads 0 (`Chart.LabelsLayout`).
- Bar height (sparkchart.go:119). `int(d*coeff)` truncates toward zero, not
  down (`Render.Truncate`). The two only differ for negative products, and
  those bars are skipped anyway.
- Negative samples (sparkchart.go:191-205, 119-124). Negative samples are not
  always left undrawn. Under auto-scale or an unset top value, on a control
  taller than one row with a bar area of at least two columns, an
  all-negative buffer gives a negative maximum and so a negative coefficient.
  Every product is then positive, every bar is drawn, the peak bars are
  exactly as tall as the control and no bar is shorter
  (`Chart.NegativeMaximum`, `Chart.NegativeBarsAllDrawn`,
  `Chart.NegativeBarsOverflow`, `Chart.NegativeSamplesOverflow`). On a
  control of at most one row, or with a narrower bar area, drawBars exits before
  painting, as it does for any buffer. The height
  bound `Chart.AutoScaleBarsFit` therefore requires a positive maximum. With
  auto-scale off and a positive top value the coefficient is positive, and an
  all-negative buffer paints no bar at all (`Chart.TopValueHidesNegative`).
- Axis guard (sparkchart.go:149-151). The test `max == coeff` is meant for the
  (0, 0) sentinel. Under auto-scale or an unset top value it also fires
  whenever max * max equals the height
  (`Chart.LabelsHiddenWhenCoefficientEqualsMax`). With auto-scale off and a
  configured top value it fires whenever max * top equals the height.

## Left out

- Terminal output is left out: termbox cells, `RealColor`, the theme, the
  `SysObject` glyphs and the real `FillRect`/`PutText`. A repaint is a trace of
  `Paint` records whose colour is one of three roles: background, normal or
  peak.
- Label text is left out. `fmt.Sprintf("%N.2f")` and `CutText` are formatting
  code outside this file, so a `Label` keeps its real value and the field
  width it is cut to.
- `Logger().Printf` in AddData is diagnostic output only.
- The `ControlBase` plumbing is left out: `view`, `parent.AddChild`,
  `SetSize`, `SetConstraints` and `tabSkip`. ControlBase is not part of this
  model. `Chart.SparkChart.Resize` and `Chart.SparkChart.Move` stand in for
  the host changing the position and size, and neither touches the buffer.
  The constructor and `Resize` assume that `SetSize` (sparkchart.go:58)
  stores the size unchanged, with no clamping to constraints.
- clui's constants file is not part of this model. `AutoSize` is taken as
  clui's value -1.
- Render.BarHeight and Layout.BarArea: results outside Go's 64-bit `int`
  range are not modelled; integers here are unbounded. Go leaves `int(d*coeff)`
  implementation-defined for a product beyond the int64 range (on amd64 it
  yields the minimum int64, so the bar is skipped), while `Render.Truncate`
  returns the exact height and the bar is painted. Likewise
  `w - valueWidth` (sparkchart.go:174) wraps in Go for a value width near the
  minimum int64, giving a negative capacity, while `Layout.BarArea` computes
  the exact difference.
- Samples are mathematical reals, not IEEE-754 doubles. NaN, infinities and
  rounding in `h/max` and `d*coeff` are not modelled.
- Go slice aliasing and the copy in SetData are not modelled. The buffer is
  a value `seq`.
- Chart.SparkChart.AddData: requires a non-negative bar capacity, because Go's
  `data[len(data)-width:]` panics for a negative width. A control of
  non-negative width always meets this (`Layout.CapacityNonNegative`).
- Chart.SparkChart.SetData: requires a non-negative bar capacity, for the same
  reason.
