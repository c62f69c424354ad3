# CPU + Throughput page: a Dafny model

This project models the logic of the CPU and throughput page (`script_cpu.js`).
That page receives payloads from a data feed. Each payload updates:

- a radial CPU gauge with a rounded centre label;
- a 120-sample CPU history, with its min/avg/max statistics row and a sparkline;
- a 60-sample throughput chart, with a hover tooltip.

A pause toggle (a button or the Space key) freezes the gauge and its label.
The histories keep filling while the page is paused.

Modules, one per concern of the page:

- `Common`: `Option`, small arithmetic helpers, and `Round` (JavaScript's `Math.round`).
- `History`: `createChartData`'s bounded FIFO buffer as a class (`BoundedSeries`). It comes with `Window` (the last `cap` elements) as its specification, and lemmas about runs of pushes.
- `Statistics`: minimum, maximum, left-fold sum and mean of a window. `WindowStats` gives the statistics row, or `None` for the "—" placeholders.
- `Gauges`: the clamp to [0, 100] and the `Gauge` class with its arc sweep.
- `Geometry`: placement of samples on the chart and on the sparkline, plus the vertical scales. This covers the guarded divisor `n || 1` and the scale floors (100 for the chart, 10 for the sparkline).
- `Hover`: the pointer-to-sample resolution, and what it guarantees about the resolved sample.
- `Render`: the point sequences traced on the canvases, as methods with loops, proved against the placement functions.
- `CpuPage`: the page's state (`Dashboard`). Its methods are the feed callback, the pause toggles, and the chart's mouse handlers. A pause-and-resume run with a disconnect at the end is proved step by step on top of them.

Numbers are modelled as exact reals. Where JavaScript yields an integer (`Math.round`), the model uses `int`.

## Model

| member | source | states |
|---|---|---|
| Common.Round | script_cpu.js:218 | `Math.round` for finite inputs: the result is the integer within one half of its argument, with halves rounding up |
| History.Window | script_cpu.js:36 | the retained window is as long as the history or the capacity, whichever is smaller |
| History.BoundedSeries.constructor | script_cpu.js:36 | a new buffer is empty and has the capacity it was given |
| History.BoundedSeries.Push | script_cpu.js:36 | after a push the buffer holds the last `capacity` elements of the old contents followed by `v`. It never exceeds its capacity, and it grows by one until it is full |
| History.BoundedSeries.Get | script_cpu.js:36 | `get` returns exactly the contents, in order, and changes nothing |
| History.WindowPush | script_cpu.js:36 | evicting before the next push leaves what evicting after it would: eviction loses nothing a later window keeps |
| History.PushAllIsWindow | script_cpu.js:36 | any run of pushes into a buffer within capacity leaves exactly the last `cap` elements of everything seen, in insertion order |
| History.LastCapacityValues | script_cpu.js:36 | after at least `cap` pushes into an empty buffer it is full and holds the last `cap` values pushed |
| Statistics.SeqMin | script_cpu.js:119 | `Math.min(...s)` is an element of `s` and at most every element |
| Statistics.SeqMax | script_cpu.js:119 | `Math.max(...s)` is an element of `s` and at least every element |
| Statistics.SumBetween | script_cpu.js:120 | if every sample lies in [lo, hi], the reduced total lies between n·lo and n·hi |
| Statistics.MeanOf | script_cpu.js:120 | if every sample lies in [lo, hi], so does the average, and the average times the count is the total |
| Statistics.AverageBetween | script_cpu.js:120 | the average of a non-empty window lies between its minimum and maximum, and multiplied by the length it gives back the sum |
| Statistics.SummaryOf | script_cpu.js:117-124 | minimum, mean and maximum of a non-empty window summarise it: min and max are samples bounding every sample, and the mean lies between them |
| Statistics.WindowStats | script_cpu.js:117-124 | placeholders exactly when the history is empty; otherwise min and max are samples bounding every sample, and avg is the mean, between them |
| Statistics.StatsExamples | script_cpu.js:117-124 | worked cases: [] gives placeholders, [50] gives 50/50/50, and [10,20,30] gives 10/20/30 |
| Gauges.Clamp | script_cpu.js:33 | the stored gauge value is always in [0, 100]. It equals the input inside that range and saturates at 0 below it and at 100 above it |
| Gauges.ClampIsNearest | script_cpu.js:33 | the clamped value is the point of [0, 100] nearest to the input |
| Gauges.ClampLaws | script_cpu.js:33 | clamping is idempotent; 150 shows as 100 and -5 as 0 |
| Gauges.Gauge.constructor | script_cpu.js:9 | a new gauge shows 0 |
| Gauges.Gauge.SetValue | script_cpu.js:33 | `setValue` stores the clamped value and keeps the gauge in range |
| Gauges.Gauge.Sweep | script_cpu.js:23 | the active arc covers a fraction in [0, 1] of the semicircle, proportional to the value |
| Gauges.Gauge.ArcEnd | script_cpu.js:23-25 | the arc and needle angle, in multiples of π, is one plus value/100: it stays in [π, 2π], π at 0 %, 2π at 100 % |
| Geometry.Spread | script_cpu.js:174 | `n \|\| 1` is never zero and leaves every non-zero divisor as it is |
| Geometry.ChartScale | script_cpu.js:162 | the chart's vertical scale is at least 100, at least every sample, and either 100 or one of the samples |
| Geometry.SparkScale | script_cpu.js:100 | the sparkline's scale is at least 10, at least every sample, and either 10 or one of the samples |
| Geometry.ChartXInPlot | script_cpu.js:174 | every chart sample is placed between the left and right paddings |
| Geometry.ChartXEdges | script_cpu.js:174 | the first sample is on the left edge, even when it is alone; with two or more samples the last is on the right edge |
| Geometry.ChartXStep | script_cpu.js:174 | neighbouring samples are one plot width over `len - 1` apart, from left to right |
| Geometry.ChartYInBand | script_cpu.js:175 | a value between 0 and the scale is drawn between the plot top (8 px) and the baseline (20 px above the bottom) |
| Geometry.ChartSampleInBand | script_cpu.js:162-175 | every non-negative chart sample is drawn inside that band |
| Geometry.SparkXInPlot | script_cpu.js:105 | every sparkline sample lies within the 3 px insets, and a lone sample sits at the left inset |
| Geometry.SparkYInBand | script_cpu.js:106 | a value between 0 and the scale is drawn within the sparkline's vertical insets |
| Geometry.SparkSampleInBand | script_cpu.js:100-106 | every non-negative history sample is drawn within those insets |
| Geometry.SparkMarkerOnLast | script_cpu.js:112 | the marker's separately computed position is that of the newest sample on the line |
| Geometry.SparkLastAtRight | script_cpu.js:105 | with two or more samples the newest sits on the right inset |
| Hover.ResolveHover | script_cpu.js:213-219 | an empty chart resolves to nothing. Otherwise the result is a valid index of the data, and it is 0 for a single sample. On a plot of zero width with two or more samples, the division by zero saturates: a pointer left of the padding gets the first sample and one right of it the last |
| Hover.HoverNearPointer | script_cpu.js:214-219 | for a pointer over the plot and two or more samples, the resolved sample is drawn within half a sample spacing of the pointer |
| Hover.HoverOfChartX | script_cpu.js:174-219 | the pointer placed where sample `i` is drawn resolves back to `i` |
| Hover.HoverLeftOfPlot | script_cpu.js:218-219 | a pointer at or left of the left padding resolves to the first sample |
| Hover.HoverRightOfPlot | script_cpu.js:218-219 | a pointer at or right of the right padding resolves to the last sample |
| Render.DrawSparkline | script_cpu.js:96-115 | nothing is drawn for an empty history. Otherwise there is one point per sample, at its sparkline position, and the marker is on the last point. For a canvas of at least 6×6 and non-negative samples, every point lies inside the insets |
| Render.DrawChart | script_cpu.js:159-205 | one point per sample, at its chart position. The fill area is the line closed along the baseline, or nothing for no data. The hover marker is drawn exactly when the index names a sample, at that sample's point. Non-negative samples on a canvas at least 16×28 stay inside the plot |
| CpuPage.Dashboard.constructor | script_cpu.js:44-45 | the page starts with empty histories, a gauge at 0, label 0, not paused, online, placeholders everywhere, and no hover |
| CpuPage.Dashboard.Ingest | script_cpu.js:288-314 | a null payload only sets offline. Any other payload clears offline; missing fields count as 0. Both histories take their sample with FIFO eviction, the statistics row follows the new CPU window, and the badge shows the throughput. The gauge and label follow the CPU value only when not paused; the pause state itself never changes |
| CpuPage.Dashboard.RecordCpu | script_cpu.js:294-295 | the CPU history takes the sample with eviction at 120, and the statistics row is recomputed from the whole new window |
| CpuPage.Dashboard.ShowCpu | script_cpu.js:299-306 | unpaused: the gauge shows the clamped value and the label the unclamped rounded value. Paused: both keep their values |
| CpuPage.Dashboard.RecordThroughput | script_cpu.js:309-312 | the chart data takes the sample with eviction at 60, and the badge shows it |
| CpuPage.Dashboard.TogglePause | script_cpu.js:82 | the button flips `paused` and changes nothing else |
| CpuPage.Dashboard.KeyDown | script_cpu.js:127-129 | Space flips `paused`; any other key changes nothing |
| CpuPage.Dashboard.MouseMove | script_cpu.js:209-229 | whenever the code names a sample (see `Hover.Resolvable`): over empty data the tooltip is hidden and the hover index is kept. Otherwise the hover index and the tooltip are the resolved sample and its value |
| CpuPage.Dashboard.MouseLeave | script_cpu.js:238 | leaving the chart clears the hover index and changes nothing else |
| CpuPage.Dashboard.CpuTooltip | script_cpu.js:244-252 | the gauge tooltip's caption value is the centre label's; its min/avg/max always agree with the statistics row, are placeholders exactly when the history is empty, and carry the pause state |
| CpuPage.FeedCpu | script_cpu.js:288-306 | one payload into a page whose CPU history is not full: the history grows by exactly that value, and the gauge and label follow it unless paused |
| CpuPage.RunningPhase | script_cpu.js:288-306 | a new page fed v1 then v2 while running shows Clamp(v1) then Clamp(v2), with labels Round(v1) and Round(v2), and holds [v1, v2] |
| CpuPage.PausedPhase | script_cpu.js:82-306 | after pausing, two more payloads extend the history but the gauge and label stay where they were |
| CpuPage.ResumedPhase | script_cpu.js:82-314 | after resuming, the next payload moves the gauge and label again; a following null payload marks the page offline and keeps history, gauge and label |
| CpuPage.PauseResumeScenario | script_cpu.js:82-314 | payloads v1, v2, pause, v3, v4, resume, v5, then a disconnect: the gauge shows v1, v2, v2, v2, v5 (labels likewise), the history holds all five values in order, and the page ends offline |

Notes on the model:

- The resolved hover sample is within half a sample spacing of the pointer (`Hover.HoverNearPointer`), which on a wide chart with few samples can be many pixels. The code promises no closer match.

## Left out

- Canvas drawing: strokes, colours, gradients, theme checks, the grid lines, the needle's cos/sin endpoint and `clearRect`. Only the coordinates of traced points are modelled (`Render`).
- IEEE-754 doubles: there is no NaN and no rounding error. On a canvas exactly 16 px wide the code divides the pointer offset by zero. With two or more samples the resulting infinity is clamped to the first or last sample, and `Hover.ResolveHover` models that. A pointer exactly on the left padding (0/0) or a single sample (∞·0) gives NaN, an undefined sample and a tooltip reading "undefined TP"; `Hover.Resolvable` excludes just those cases.
- Common.Round: models `Math.round` on finite values only. Negative halves round up (toward +∞), as in JavaScript.
- Text formatting: `toFixed(0)` on the statistics, the `%` and `TP:` suffixes, and the "(paused)" text. The model keeps the numbers and the flag, not the strings.
- The `#cpuCaption` element: it is written with the same rounded value as the centre label, so `centerLabel` stands for both, also in the gauge tooltip. Its initial text comes from the HTML page, which is not part of this model; the model starts it at 0 like the centre label.
- DOM work: tooltip positioning near the pointer and window edges, element creation, styles, and the pause button's text and opacity.
- `resize`, `devicePixelRatio` and the canvas sizes: widths and heights are parameters of the rendering and hover members.
- Redraws are not performed by the state methods. Each payload redraws the sparkline, which is `Render.DrawSparkline(cpuHist.samples, …)`. It also redraws the chart with the default hover index, which is `Render.DrawChart(chart.samples, -1, …)`. That removes the hover marker until the next mouse move, although `lastHoverIndex` keeps its value. A mouse move redraws with the resolved index and leaving the chart redraws with -1.
- `setLastUpdate` and the clock; `animateNumber` (`requestAnimationFrame` timing); `renderProcesses` (DOM table rows).
- The theme toggle, status-chip text, the service start/stop button and the `dataService` feed itself: the feed is the sequence of `Ingest` calls.
- CpuPage.Dashboard.constructor: starting online is an assumption; the page never sets the status chip before the first payload, so its initial state comes from the HTML page.
- CpuPage.Dashboard.Ingest: the offline flag stands for the status chip's `offline` class only, not its other classes or text.
