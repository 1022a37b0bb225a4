# Chart components of demo-svelte, modelled in Dafny

This project models the d3 code behind three chart components of a Svelte
dashboard. It proves what each of them draws or dispatches.

- **Timeline scrubber** (`src/lib/components/charts/timeline.ts`). The
  scrubber is a slider over a date-indexed series. Dragging the handle,
  auto-play (one animation frame at a time) and rewinding each move the
  position, then dispatch a `dateSelected` event. The event carries the
  date of the sample nearest the timestamp the position stands for. The
  component also shows the span of the series in days.
- **XY chart** (`src/lib/components/charts/xy.ts`). The chart is a
  multi-series time/value chart with baseline scales. It draws areas,
  lines and points for the selected series, has feature flags, and
  redraws everything from rescaled axes on each zoom event.
- **Metric chart** (`src/lib/components/chart.ts`). The chart draws one
  line per configured rating metric. Each line is shown or hidden by the
  set of active metrics. A dashed line runs through each point's average
  of the active metrics. Legend clicks toggle a metric and redraw the
  chart.

The modules are:

- `maybe.dfy`: `Option` and `Completion`. `None` stands for JavaScript's
  `undefined` and for a number that is not finite (NaN or an infinity).
  The one exception is `Timeline.NumOfDays`, where `None` is the TypeError
  thrown for empty data. `Completion` says whether a call returned
  normally or threw that TypeError.
- `scales.dfy`: the d3 linear/time scale in exact real arithmetic. It
  covers normalisation, interpolation, inversion, a zoom transform's
  `rescaleX`/`rescaleY`, and `d3.min`/`d3.max`.
- `timeline.dfy`: the scrubber's pure computations and the class
  `Scrubber`. The class holds the position store, the playing flag, the
  animation-frame reference, the pending frame requests and the events
  dispatched so far.
- `xy.dfy`: the scales, the drawables, and the class `XYChart`. The
  class holds the svg's children and the feature flags, which change, and
  the baseline scales, series and selection the zoom handler captures
  once, which do not.
- `chart.dfy`: parsing, the scales, the scene, the active-metric set, and
  the class `MetricChart`.

## Model

| member | source | states |
|---|---|---|
| Scales.ApplyEndpoints | src/lib/components/charts/xy.ts:31-39 | a scale sends the ends of its domain to the ends of its range |
| Scales.ApplyDegenerate | src/lib/components/charts/xy.ts:31-34 | a one-date domain puts every value at the middle of the range, as d3 does |
| Scales.ApplyAntitone | src/lib/components/charts/xy.ts:36-39 | with the y range `[height, 0]`, a larger value is drawn strictly higher |
| Scales.ApplyMonotone | src/lib/components/charts/xy.ts:31-34 | with the x range `[0, width]`, a later date is never drawn left of an earlier one |
| Scales.RescaleSpan | src/lib/components/charts/xy.ts:285-286 | the rescaled domain is the original domain's width divided by the zoom factor k |
| Scales.RescaleApply | src/lib/components/charts/xy.ts:285-286 | the rescaled scale draws every value at k times its original pixel plus the translation |
| Scales.RescaleIdentity | src/lib/components/charts/xy.ts:307-313 | the identity transform gives back the original scale |
| Scales.Min | src/lib/components/charts/xy.ts:33 | the minimum is an element and bounds every element from below |
| Scales.Max | src/lib/components/charts/xy.ts:38 | the maximum is an element and bounds every element from above |
| Timeline.NumOfDays | src/lib/components/charts/timeline.ts:131-135 | None (the TypeError thrown reading `data[0].date`) exactly for empty data; otherwise the first-to-last span rounded to days, halves up |
| Timeline.NumOfDaysWhole | src/lib/components/charts/timeline.ts:131-135 | a span of a whole number of days gives exactly that number |
| Timeline.DragPosition | src/lib/components/charts/timeline.ts:329-330 | the position is clamped to [0, width]: the cursor less the handle radius inside, 0 before, the width beyond; 0 whenever the width is negative (the max is taken last); a NaN width gives NaN |
| Timeline.ImpliedTimestamp | src/lib/components/charts/timeline.ts:334-338 | not finite exactly when the position or width is NaN or the width is 0; position 0 gives the first date, position = width the last |
| Timeline.ImpliedTimestampInRange | src/lib/components/charts/timeline.ts:334-338 | a position on the track gives a timestamp between the first and last date |
| Timeline.ClosestIndex | src/lib/components/charts/timeline.ts:339-344 | the chosen sample is nearest the timestamp, strictly nearer than every earlier one (ties keep the earliest); a non-finite timestamp keeps the first sample |
| Timeline.ClosestIndexUnique | src/lib/components/charts/timeline.ts:339-344 | nearest-and-earliest singles out exactly the index the reduce returns |
| Timeline.ClosestAtStart | src/lib/components/charts/timeline.ts:334-344 | a drag to position 0 selects the first sample, whatever the width |
| Timeline.ClosestAtEnd | src/lib/components/charts/timeline.ts:334-344 | a drag to the end of a track of non-zero width selects a sample with the last date |
| Timeline.WiredDragIgnoresCursor | src/lib/components/charts/timeline.ts:222-223 | as the drag is wired, the stored position is NaN and the first date is dispatched, wherever the cursor is |
| Timeline.WiredDragCounterexample | src/lib/components/charts/timeline.ts:222-223 | two samples a day apart, cursor at the end of a 100-pixel track: wired, the earlier date; with the track width, the later date |
| Timeline.FramesToEndExact | src/lib/components/charts/timeline.ts:375-399 | auto-play advances exactly FramesToEnd frames: each of them starts on the track, and the next starts past its end |
| Timeline.Scrubber.HandleDrag | src/lib/components/charts/timeline.ts:319-347 | empty data changes nothing; otherwise the position is the clamped cursor and one event is appended, carrying the date nearest that position |
| Timeline.Scrubber.Slide | src/lib/components/charts/timeline.ts:375-400 | past the end: playing off, latest frame cancelled, nothing else changes; otherwise advance by speed, dispatch the date for the old position, request one new frame; with empty data a TypeError after the advance |
| Timeline.Scrubber.StartAutoSlide | src/lib/components/charts/timeline.ts:363-402 | exactly one `slide` frame runs at once, with Slide's full contract: the stop branch, the advance with its dispatch and new frame request, and the TypeError after the advance for empty data |
| Timeline.Scrubber.Frame | src/lib/components/charts/timeline.ts:399 | the pending frame's request is used up, then one `slide` runs with Slide's full contract (every branch, the completion, frameRef and nextHandle) |
| Timeline.Scrubber.AutoSlideUntilEnd | src/lib/components/charts/timeline.ts:363-402 | auto-play stops after FramesToEnd frames with the position past the end, playing off and no frame left pending; earlier events are kept, and frame k appends the date selected at the k-th position |
| Timeline.Scrubber.Rewind | src/lib/components/charts/timeline.ts:405-409 | the position goes to 0 and the first date is dispatched; with empty data a TypeError after the reset |
| XY.AllValues | src/lib/components/charts/xy.ts:29 | holds exactly the samples of all series, and is empty exactly when every series is |
| XY.CreateScales | src/lib/components/charts/xy.ts:28-42 | undefined exactly when there are no samples; x onto [0, width]; y from 0 onto [height, 0] |
| XY.CreateScalesCover | src/lib/components/charts/xy.ts:28-42 | every sample's date lies in the x domain, and its value is at most the top of the y domain |
| XY.CreateScalesTight | src/lib/components/charts/xy.ts:28-42 | the earliest date, the latest date and the largest value each belong to a sample |
| XY.ScalesOrientation | src/lib/components/charts/xy.ts:31-39 | earliest date at pixel 0, latest at the width; value 0 at the bottom, the maximum at the top, larger values higher |
| XY.EmittedExactlySelected | src/lib/components/charts/xy.ts:87-142 | a series gets drawables exactly when its location is selected, and each one carries its series index |
| XY.AddAreas | src/lib/components/charts/xy.ts:87-105 | appends one area per selected series, in series order, filled down to y(0) |
| XY.AddLines | src/lib/components/charts/xy.ts:107-125 | appends one line per selected series, in series order |
| XY.AddPoints | src/lib/components/charts/xy.ts:127-142 | appends, per selected series, circles only for the values past that series' existing circles (d3 enter) |
| XY.Cleared | src/lib/components/charts/xy.ts:289-293 | no grid or axis remains, every remaining group is empty, every other node stays |
| XY.RedrawnReplacesAll | src/lib/components/charts/xy.ts:288-302 | after a zoom redraw, the new group comes last, every older group is empty, and every grid and axis uses the new scales |
| XY.RedrawnFlags | src/lib/components/charts/xy.ts:295-296 | a grid is present exactly when the grid flag is on, an axis exactly when the axis flag is on |
| XY.DrawnRespectsFlags | src/lib/components/charts/xy.ts:300-302 | every drawable belongs to a selected series, and its kind's flag is on |
| XY.RedrawnPointsComplete | src/lib/components/charts/xy.ts:298-302 | with points on, every value of every selected series gets its circle at (x(date), y(value)) |
| XY.InitializeShow | src/lib/components/charts/xy.ts:223-245 | a TypeError exactly when defaultFeatures is empty and show is absent; otherwise one flag per feature, decided by a non-empty defaultFeatures or else by show |
| XY.XYChart.constructor | src/lib/components/charts/xy.ts:272 | the chart keeps the scales, series and selection it is given as its zoom baseline, with the given svg children and flags |
| XY.XYChart.ToggleFeature | src/lib/components/charts/xy.ts:206-209 | exactly the clicked flag flips |
| XY.XYChart.OnZoom | src/lib/components/charts/xy.ts:284-303 | the svg becomes the redraw of its old children with the chart's baseline scales rescaled by the transform and the enabled kinds drawn with them |
| XY.XYChart.ResetZoom | src/lib/components/charts/xy.ts:307-313 | a right click redraws with the chart's baseline scales |
| MetricChart.ParseData | src/lib/components/chart.ts:22-31 | same length and dates; each point has exactly the configured metrics, each copied or undefined |
| MetricChart.MaxDefined | src/lib/components/chart.ts:48-50 | undefined exactly when all values are; otherwise a value that bounds every defined value |
| MetricChart.PointMax | src/lib/components/chart.ts:48-49 | per point: undefined exactly when no metric is defined, bounds each defined metric, and is attained |
| MetricChart.MaxMetric | src/lib/components/chart.ts:46-51 | undefined exactly when no metric value is defined anywhere; otherwise bounds every defined value and is attained |
| MetricChart.XScale | src/lib/components/chart.ts:39-42 | undefined exactly when there are no points |
| MetricChart.XScaleExtent | src/lib/components/chart.ts:39-42 | the domain is exactly the earliest to the latest date; the range is [0, width] |
| MetricChart.YScaleExtent | src/lib/components/chart.ts:44-52 | undefined exactly when no value is defined; otherwise domain from 0 to the attained maximum, range [height, 0] |
| MetricChart.MetricLines | src/lib/components/chart.ts:65-83 | one path per configured metric, in order; displayed exactly when the metric is active |
| MetricChart.DrawLines | src/lib/components/chart.ts:71-82 | the loop appends exactly those paths |
| MetricChart.Sum | src/lib/components/chart.ts:91 | defined exactly when every value is |
| MetricChart.Average | src/lib/components/chart.ts:86-92 | defined exactly when some metric is active and every active metric has a value |
| MetricChart.AverageBetween | src/lib/components/chart.ts:86-92 | the average lies within any bounds of the active values |
| MetricChart.AveragePoints | src/lib/components/chart.ts:85-99 | one point per data point, at its date and at the height of its average |
| MetricChart.RenderedInnerSize | src/lib/components/chart.ts:170-174 | the plot area is the configured size less the margins |
| MetricChart.Dedup | src/lib/components/chart.ts:204 | the same elements without repeats |
| MetricChart.Remove | src/lib/components/chart.ts:155 | exactly the element is gone, and there are still no repeats |
| MetricChart.Toggled | src/lib/components/chart.ts:154-158 | a metric is active afterwards exactly when it is the toggled one xor it was active; no repeats |
| MetricChart.ToggleTwice | src/lib/components/chart.ts:147-160 | toggling twice restores the active set (and its order, when the metric was inactive) |
| MetricChart.MetricChart.constructor | src/lib/components/chart.ts:195-206 | every configured metric starts active, and the chart is drawn |
| MetricChart.MetricChart.DrawChart | src/lib/components/chart.ts:162-193 | empty data leaves the svg alone; otherwise the svg is exactly the plot group and the legend for the data and active metrics |
| MetricChart.MetricChart.ToggleMetric | src/lib/components/chart.ts:147-160 | the active set is toggled, stays free of repeats, and the chart is redrawn from it |

## Left out

- Numbers are exact reals, not IEEE doubles. Rounding error is not modelled. A result that is NaN or infinite is `None`.
- Timestamps are given as integer milliseconds. Date-string parsing (`parseDate`, `d3.timeParse`, `d3.isoParse`) and a failed parse are not modelled.
- The millisecond truncation of `Date` objects that a rescaled time scale's domain goes through is not modelled.
- Visual detail is left out: colours, stroke widths, opacities, tick counts and formats, the path strings and curves d3 generates, translate offsets, text and cursor styling.
- Axes and grids are kept only as the scale they are drawn with.
- The nested `g` elements are flattened into one sequence of children.
- Building the DOM controls is not part of this model: the play/pause button, the rewind button, the day-count text, the slider line, the tooltip, the XY legend, the toggles and the svg/clip-path set-up (`createSvg`, `addLegend`, `addTooltip`, `drawToggles`, `useColors`).
- The XY toggle click is modelled as flipping the flag. The `startGraph` redraw it then calls lives in the Svelte component, which is not part of this model.
- `useScales` is the same code as `createScales`, so `XY.CreateScales` models both.
- `requestAnimationFrame` and `cancelAnimationFrame` become an explicit set of pending frame handles. The host running a frame is the `Frame` method.
- `Timeline.Scrubber.AutoSlideUntilEnd`: needs non-empty data, a positive speed and no pending frame. With a speed of 0 or less and a start on the track, the source animates forever. From past the end, the first frame stops at once, and `Slide` covers that case.
- The `position.subscribe` update of the handle's `cx` is not modelled.
- `updatePlayPauseButton`, `updateNumOfDaysText` and `updateSliderWidth` only write to the DOM or to a setter. `handleDragEnd` is empty. These are not modelled.
- Console logging is not modelled.
- `Timeline.Scrubber.HandleDrag`: takes the slider width as a number. The drag handler as the slider actually wires it is `Timeline.WiredDrag` (see Findings).
- `XY.XYChart.OnZoom`: the transform's k is assumed to lie in [1, 10], the zoom's `scaleExtent`.
- `XY.XYChart.OnZoom`: `translateExtent`'s limit on the translation is not modelled.
- The 750 ms transition back to the identity transform is modelled as one jump (`XY.XYChart.ResetZoom`).
- `XY.XYChart.ResetZoom`: needs a non-degenerate pixel range, so that rescaling by the identity gives back the same scale.
- The legend's translate and its opacity/colour encoding of `active` are kept only as the row's `active` flag.
- The Svelte components, the stores and the other chart files are not part of this model: `splitRadar.ts`, `components.ts`, `stores.js`, `static/data/types.ts` and `+layout.ts`.
- `Timeline.Scrubber` starts at position 0, not playing, with no pending frame. Those values live in the Svelte component, which is not part of this model.

## Findings

| source | as written | input that shows it | evidently intended | confidence | as-written member | corrected member |
|---|---|---|---|---|---|---|
| src/lib/components/charts/timeline.ts:222-223 | the drag handler passes `sliderWidth: +svg.attr("width")`. Line 189 sets that attribute to `"100%"`, so the width is NaN, and the spread at line 288 keeps it. Every drag stores a NaN position and dispatches the first date | samples dated 0 and one day later; handle radius 10; cursor x 110 on a 100-pixel track: the earlier date is dispatched | clamp and interpolate with the track's `sliderWidth` (line 187), so a drag to the end selects the last date. `Timeline.Scrubber` models only this corrected wiring, because its position is a real number and cannot hold NaN. As wired, the stored NaN position also breaks auto-play: the stop test at line 378 is never true, so play never stops and keeps dispatching the first date | high, not executed | Timeline.WiredDragIgnoresCursor, Timeline.WiredDragCounterexample | Timeline.Scrubber.HandleDrag, Timeline.ClosestAtEnd |
