# SysIntel chart core in Dafny

SysIntel is a Tk system monitor. Its central component is a scrolling "Task Manager"
chart, implemented twice:

- a single-series graph (`ScrollingGraph`), used for CPU, memory, GPU and fan history;
- a multi-series graph (`DualLineGraph`), used for the CPU and GPU temperatures, with a
  legend.

On every redraw a graph takes a snapshot of its bounded sample buffer and does four things:

1. It smooths the snapshot with one of three modes: none, a centred 3-wide mean, or
   corner rounding.
2. It anchors the data to the right edge of a fixed `seconds`-long window.
3. It interpolates one value per pixel column.
4. It emits grid lines, a title, the filled area and the line, axis labels and a legend.

The main window feeds the buffers. It keeps six `deque(maxlen=points)`, sized from the
update interval, and appends one value to each of them per tick. It also colours its value
labels by threshold and encodes log timestamps in base 36. The hardware poller adds a few
pure rules over the records its libraries return:

- which GPU is reported;
- how a network adapter is classified;
- how fan sensors are bucketed;
- how per-disk I/O counters are totalled.

The two formatters pick the unit for byte counts and frequencies.

## How the model is built

- **Modules.** There is one module per component:
  - `Smoothing`: the two smoothing helpers.
  - `TimeMapping`: the geometry and the per-pixel interpolation.
  - `ChartParts`: the drawing steps both graphs share.
  - `ScrollingGraph` and `DualLineGraph`: the two graphs.
  - `SampleBuffer`: the bounded deque.
  - `History`: the main window's six buffers.
  - `Base36`, `LabelColours`, `Formatters` and `SystemStats`: the remaining rules.
- **Redraws.** Each graph is a class. Its `Redraw` clears and refills the display list
  `items`. It is proved equal to a function (`ScrollingFrame`, `DualFrame`) from the buffer
  snapshot, the configuration and the canvas size. The lemmas about that function state
  what a redraw shows.
- **Loops.** Every `for` or `while` statement of the modelled source is a method, proved
  equal to a function that builds the same result. This covers the per-pixel loop, the grid
  and label loops, the smoothing loops, the legend, the base-36 digit loop, `format_bytes`,
  and the adapter, fan, CPU-temperature and disk loops. List comprehensions are functions.
- **Exceptions during drawing.** An exception raised while drawing is part of the result,
  as `Frame.raised`, together with what was drawn before it. Two exceptions are modelled:
  - a `TypeError` from arithmetic on a missing sample;
  - an `IndexError` from reading past the end of a shorter series in the multi-series
    graph.
- **Specification functions.** The functions the methods are proved equal to carry no
  contract of their own; the lemmas beside them state what they mean. Each models these
  lines of the source:
  - `ScrollingGraph.ScrollingFrame`: gui/scrolling_graph.py:19-105, one whole redraw.
  - `DualLineGraph.DualFrame`: gui/dual_line_graph.py:20-110, one whole redraw.
  - `TimeMapping.Trace`: gui/scrolling_graph.py:71-85, the per-pixel loop from column `px`.
  - `TimeMapping.ValueAt`: gui/scrolling_graph.py:74-83, the value at a fractional index.
  - `Smoothing.WindowMean`: gui/scrolling_graph.py:112-117, the mean of the present
    samples in one window.
  - `Smoothing.IsSharpCorner`: gui/scrolling_graph.py:126-128, the sharp-corner test.
- **Numbers.** Coordinates and readings are exact reals. A label is a (value, unit) pair
  rather than formatted text.

## Model

| member | source | states |
|---|---|---|
| Smoothing.MovingAverageOf | gui/scrolling_graph.py:107-118 | the averaged list has the input's length; input shorter than 2 comes back unchanged; otherwise every entry is present |
| Smoothing.MovingAverage | gui/scrolling_graph.py:107-118 | the loop's result is `MovingAverageOf`: entry i is the mean of the present samples at max(0, i-1)..min(n-1, i+1), or 0 when there are none |
| Smoothing.AverageWithinInputRange | gui/scrolling_graph.py:112-117 | every averaged entry is either the 0 that stands for "no present neighbour" or lies within any bounds of the input's present values |
| Smoothing.RoundCornersOf | gui/scrolling_graph.py:120-126 | length is preserved; the first and last entries never change; input shorter than 3 comes back unchanged; an entry is present exactly when the input's is |
| Smoothing.RoundCorners | gui/scrolling_graph.py:120-132 | the copy-then-overwrite loop returns `RoundCornersOf`, deciding each entry from the original neighbours |
| Smoothing.RoundFlattensExactlySharpCorners | gui/scrolling_graph.py:126-131 | an interior entry changes if and only if it and both neighbours are present and it is further than 1.5 times the neighbours' distance from each; it then becomes their midpoint, lies between them, and is no longer a sharp corner |
| Smoothing.RoundWithinInputRange | gui/scrolling_graph.py:126-131 | rounding never leaves any bounds of the input's present values |
| Smoothing.Smooth | gui/scrolling_graph.py:64-70 | every smoothing mode keeps the snapshot's length |
| Smoothing.ApplySmoothing | gui/scrolling_graph.py:65-70 | the mode dispatch returns `Smooth`: the moving average, the rounded corners, or the data itself |
| Smoothing.SmoothKeepsPresence | gui/scrolling_graph.py:65-70 | a gap-free snapshot stays gap-free in every mode, and averaging two or more samples fills every gap |
| Smoothing.SmoothWithinRange | gui/scrolling_graph.py:65-70 | the smoothed snapshot stays within the bounds of the raw one; for averaging, the bounds must admit the 0 that fills an empty window |
| Smoothing.SmoothingExamples | gui/scrolling_graph.py:107-132 | worked cases: `[5, None, 7]` averages to 6 in the middle; two missing samples average to 0; the spike in `[1, 10, 1]` is flattened to 1 |
| TimeMapping.Layout | gui/scrolling_graph.py:42-46 | the geometry keeps the width and window, and the time per sample is positive |
| TimeMapping.LeftEdgeClosedForm | gui/scrolling_graph.py:42-46 | left_edge · (maxlen - 1) = w · (maxlen - n): the left edge is the width times the unfilled fraction of the buffer |
| TimeMapping.LeftEdgeWithinSurface | gui/scrolling_graph.py:42-46 | for 2 ≤ n ≤ maxlen the left edge lies in [0, w), and it is 0 exactly when the buffer is full |
| TimeMapping.IndexBranchDead | gui/scrolling_graph.py:75-79 | `idx1 = min(idx0 + 1, n - 1)` is always below n, so the `idx1 >= n` branch never runs |
| TimeMapping.PixelYMonotone | gui/scrolling_graph.py:84 | a larger value is drawn higher (at a smaller y) or at the same height |
| TimeMapping.Interpolate | gui/scrolling_graph.py:71-85 | the per-pixel loop over columns int(left_edge)..w-1 returns `Trace`: the list of points, or the exception the first failing column raises |
| TimeMapping.TraceStep | gui/scrolling_graph.py:71-85 | one column either fails with its value's fault or adds the point (px, y(value)) in front of the rest of the trace |
| TimeMapping.TraceColumns | gui/scrolling_graph.py:71-85 | a successful trace has exactly one point per column from its start to w - 1, with x increasing by 1 |
| TimeMapping.ValueAtSampleIndex | gui/scrolling_graph.py:74-83 | at a whole sample index the interpolation returns that sample |
| TimeMapping.ValueWithinRange | gui/scrolling_graph.py:76-83 | an interpolated value is the first sample or a convex combination of `smooth_data[idx0]` and `smooth_data[min(idx0 + 1, n - 1)]`, so it lies within any bounds of the samples |
| TimeMapping.TraceWithinRange | gui/scrolling_graph.py:71-85 | every point's y lies between the heights of the samples' upper and lower bounds |
| TimeMapping.ColumnIndexBeforeLast | gui/scrolling_graph.py:72-75 | every column left of the right edge shows a fractional index strictly before n - 1 |
| TimeMapping.TraceFaults | gui/scrolling_graph.py:71-85 | with at least as many samples as the geometry's n, no column reads past the end, and a gap-free series never fails |
| TimeMapping.TraceFailsIfColumnFails | gui/scrolling_graph.py:71-85 | a column whose value cannot be computed makes the whole loop fail |
| TimeMapping.GapFreeFaultIsIndex | gui/scrolling_graph.py:81-83 | without missing samples the only exception the loop can raise is an index error |
| ChartParts.ValidValues | gui/scrolling_graph.py:28 | `valid_data` holds exactly the samples that are present and non-zero |
| ChartParts.PlaceholderConcat | gui/scrolling_graph.py:40 | a concatenation shows the "N/A" text if and only if one of its parts does |
| ChartParts.GridLineXClosedForm | gui/scrolling_graph.py:48-51 | the i-th vertical grid line sits i tenths of the width left of the right edge |
| ChartParts.VerticalGrid | gui/scrolling_graph.py:49-54 | at most one line per step; every line is a full-height grid line at or right of the left edge |
| ChartParts.DrawVerticalGrid | gui/scrolling_graph.py:48-54 | the loop emits `VerticalGrid` for its 11 steps, skipping lines left of the data |
| ChartParts.VerticalGridComplete | gui/scrolling_graph.py:48-54 | when the data reaches the left border all 11 lines are drawn, the first one on the right edge ("now") |
| ChartParts.GridLineVisible | gui/scrolling_graph.py:50-53 | each of the 11 grid lines lies between a left edge at or before 0 and the right edge |
| ChartParts.HorizontalGrid | gui/scrolling_graph.py:56-58 | line i runs from the left edge to w at y = h·i // 4 |
| ChartParts.DrawHorizontalGrid | gui/scrolling_graph.py:55-58 | the loop emits the five `HorizontalGrid` lines |
| ChartParts.StaticVerticals | gui/scrolling_graph.py:135-137 | line i of the no-data grid is at x = w·i // 10 |
| ChartParts.DrawStaticGrid | gui/scrolling_graph.py:134-140 | the loops emit the 11 vertical and 5 horizontal lines of `StaticGrid` |
| ChartParts.StaticGridSpansSurface | gui/scrolling_graph.py:134-140 | the static grid has 16 grid lines, the outer vertical ones on x = 0 and x = w |
| ChartParts.PartsWithoutPlaceholder | gui/scrolling_graph.py:47-105 | the grid, title, plot and axis-label steps never draw "N/A" |
| ChartParts.FillPolygon | gui/scrolling_graph.py:88-89 | the polygon is the points closed down to (first x, h) and (last x, h) |
| ChartParts.Segments | gui/scrolling_graph.py:91-92 | every segment is a series line in the graph's colour |
| ChartParts.Area | gui/scrolling_graph.py:87-92 | the plot contributes only the filled polygon and series lines in the graph's colour |
| ChartParts.DrawSegments | gui/scrolling_graph.py:91-92 | the loop emits `Segments` over all points |
| ChartParts.SegmentsJoinNeighbours | gui/scrolling_graph.py:91-92 | the line is len(points) - 1 segments, segment i joining points i and i + 1 |
| ChartParts.YLabels | gui/scrolling_graph.py:94-97 | label i sits 5 px right of the left edge at y = h·i // 4 and shows y_max - (y_max - y_min)·i/4 |
| ChartParts.DrawYLabels | gui/scrolling_graph.py:93-97 | the loop emits the five `YLabels` |
| ChartParts.QuarterFloor | gui/scrolling_graph.py:96 | Python's `// 4` on a non-negative integer is the floor of the real quotient |
| ChartParts.YLabelsAgreeWithScale | gui/scrolling_graph.py:94-97 | each y-axis label names the value that the plot's value-to-pixel map sends to h·i/4; the label is drawn at the floor of that pixel |
| ChartParts.XLabels | gui/scrolling_graph.py:99-105 | labels left of the data are skipped; every label is anchored south-west at y = h - 2 and reads "now" or a number of seconds |
| ChartParts.DrawXLabels | gui/scrolling_graph.py:98-105 | the loop emits `XLabels` for its six steps |
| ChartParts.XLabelsStartWithNow | gui/scrolling_graph.py:99-105 | whenever the data reaches the right edge, the first x-axis label is "now" at x = w |
| ChartParts.Legend | gui/dual_line_graph.py:105-110 | the legend consists of swatches and caption texts only |
| ChartParts.DrawLegend | gui/dual_line_graph.py:105-110 | the legend loop emits `Legend` for every entry |
| ChartParts.LegendRows | gui/dual_line_graph.py:105-110 | row i is a swatch from (w-120, 10+22i) to (w-102, 26+22i) in the entry's colour, then its text anchored west at (w-95, 18+22i), in list order |
| ScrollingGraph.Graph.Redraw | gui/scrolling_graph.py:19-105 | the display list after a redraw, and the exception if one was raised, are `ScrollingFrame` of the buffer's current contents and capacity |
| ScrollingGraph.Graph.DrawEmptyChart | gui/scrolling_graph.py:29-41 | the no-data branch draws `EmptyChart`: static grid, title, then the marker or "N/A" |
| ScrollingGraph.Graph.DrawChart | gui/scrolling_graph.py:42-105 | the data branch draws what `ScrollingFrame` says, stopping after the background when interpolation raises |
| ScrollingGraph.Graph.InterpolatePoints | gui/scrolling_graph.py:62-85 | with w > 2 the points are the trace of the smoothed snapshot, or its exception; otherwise there are none |
| ScrollingGraph.Graph.DrawArea | gui/scrolling_graph.py:86-92 | the polygon and the line are drawn only when there are points |
| ScrollingGraph.BlankExactlyWhenTooSmall | gui/scrolling_graph.py:20-24 | a redraw leaves the canvas empty, with no exception, if and only if it is narrower or shorter than 10 px |
| ScrollingGraph.EmptyChartShape | gui/scrolling_graph.py:26-41 | with n < 2 or no valid sample: the static grid, then the title, then exactly one item. That item is the marker at x = w - 1 from y-5 to y+5 when there is one valid sample; otherwise it is the centred "N/A" |
| ScrollingGraph.PlaceholderExactlyWithoutData | gui/scrolling_graph.py:29-41 | "N/A" appears if and only if there is nothing to plot and the single-sample marker does not apply |
| ScrollingGraph.RedrawFaults | gui/scrolling_graph.py:71-85 | a redraw never reads past the snapshot's end; it raises nothing when the snapshot has no gaps or is averaged |
| ScrollingGraph.FullBufferSpansWidth | gui/scrolling_graph.py:42-54 | with a full buffer the left edge is 0, all 11 vertical lines are drawn, and the plot has one point for every column 0..w-1 |
| ScrollingGraph.PlotWithinBand | gui/scrolling_graph.py:62-85 | every plotted point lies between the heights of any bounds of the samples |
| DualLineGraph.MaxOf | gui/dual_line_graph.py:27 | Python's `max` returns a member of the list that no other member exceeds |
| DualLineGraph.SharedLength | gui/dual_line_graph.py:29 | the shared n is the longest series' length: no series is longer and one is exactly that long |
| DualLineGraph.SharedCapacity | gui/dual_line_graph.py:27-28 | the shared capacity is the largest `maxlen` (a buffer without one counts its length), attained by some series |
| DualLineGraph.Snapshots | gui/dual_line_graph.py:47-50 | one snapshot per buffer, in order, with that buffer's contents and capacity |
| DualLineGraph.SeriesLayer | gui/dual_line_graph.py:47-90 | a series draws only lines in its own colour, plus a filled polygon only when it is series 0 |
| DualLineGraph.Graph.Redraw | gui/dual_line_graph.py:20-110 | the display list after a redraw, and the exception if one was raised, are `DualFrame` of all buffers' current contents and capacities |
| DualLineGraph.Graph.DrawFrame | gui/dual_line_graph.py:26-110 | grid, title, the series, then the axis labels and legend, as `DualFrame` says |
| DualLineGraph.Graph.DrawLayers | gui/dual_line_graph.py:47-90 | the loop over the series draws them in order and stops at the first that raises |
| DualLineGraph.Graph.DrawNextLayer | gui/dual_line_graph.py:47-90 | one iteration of the series loop: after fault-free series the next one raises or adds its primitives, and a raised fault is the final result of the whole loop |
| DualLineGraph.Graph.DrawSeries | gui/dual_line_graph.py:48-90 | one iteration of the series loop draws `SeriesLayer` |
| DualLineGraph.LayersStep | gui/dual_line_graph.py:47-90 | after a fault-free prefix, the next series either raises or appends its primitives |
| DualLineGraph.LayersKeepFirstFault | gui/dual_line_graph.py:47-90 | once a series has raised, later series add nothing and the first fault is kept |
| DualLineGraph.DualBlankExactlyWhenTooSmall | gui/dual_line_graph.py:20-45 | a redraw leaves the canvas empty if and only if it is smaller than 10 x 10; otherwise the grid is always drawn |
| DualLineGraph.SeriesWithoutPlot | gui/dual_line_graph.py:52-59 | a series with n < 2 or no valid sample adds only the marker at x = w - 1 when it has one valid sample, and nothing otherwise |
| DualLineGraph.NeverShowsPlaceholder | gui/dual_line_graph.py:20-110 | this graph never draws "N/A", whatever the buffers hold |
| DualLineGraph.LayersWithoutPlaceholder | gui/dual_line_graph.py:47-90 | no series draws "N/A" |
| DualLineGraph.SeriesWithinBand | gui/dual_line_graph.py:60-90 | every segment of a series with two or more samples joins heights between those of the series' bounds |
| DualLineGraph.SeriesFaults | gui/dual_line_graph.py:66-82 | a series as long as the shared n never reads past its end; it raises nothing when gap-free or averaged |
| DualLineGraph.LayersFaults | gui/dual_line_graph.py:47-90 | with all series of equal length, no series raises an index error |
| DualLineGraph.EqualLengthsNeverIndexFault | gui/dual_line_graph.py:29-82 | equal-length buffers never cause an index error; gap-free or averaged data never raises |
| DualLineGraph.ShorterSeriesReadsPastEnd | gui/dual_line_graph.py:29-78 | concrete case: with capacity 4, a 4-sample and a 2-sample series on a 10 px canvas over 60 s raise an index error |
| DualLineGraph.ExampleLayers | gui/dual_line_graph.py:47-82 | in that case the second series raises the index error |
| DualLineGraph.ExampleGeometry | gui/dual_line_graph.py:27-32 | the geometry of that case: 20 s per sample, 60 s filled, left edge 0; column 7 shows index 2.1 |
| DualLineGraph.ShortSeriesFaults | gui/dual_line_graph.py:66-80 | the 2-sample series raises an index error on that geometry |
| DualLineGraph.EmptyBuffersDrawOffCanvas | gui/dual_line_graph.py:27-45 | with every buffer empty the left edge lies right of the canvas; no vertical grid line, series or x-axis label is drawn |
| DualLineGraph.EmptyLayers | gui/dual_line_graph.py:47-59 | empty series draw nothing |
| DualLineGraph.NothingRightOfEdge | gui/dual_line_graph.py:33-39 | grid lines and x-axis labels all lie at or left of the right edge |
| SampleBuffer.Recent | gui/main_window.py:80-87 | "the last maxlen entries": the suffix of the appended values of length min(count, maxlen) |
| SampleBuffer.RecentAppend | gui/main_window.py:499-516 | one more append keeps "the last maxlen entries": the new value joins, and the oldest leaves on overflow |
| SampleBuffer.SampleWindow.Append | gui/main_window.py:499 | `deque.append` adds on the right and evicts from the left once `maxlen` is exceeded; the buffer still holds the last `maxlen` appended values |
| History.Capacity | gui/main_window.py:79 | the capacity is at least 2 |
| History.CeilDivIsCeiling | gui/main_window.py:79 | the integer ceiling division is `math.ceil` of the true quotient, whatever the signs |
| History.PositiveCeilDiv | gui/main_window.py:79 | the same for a positive divisor |
| History.CapacityCoversWindow | gui/main_window.py:79 | the capacity covers the whole 60 s window, and it is the least such count unless it is the floor of 2 |
| History.DefaultCapacity | gui/main_window.py:41-44 | 60 s at one sample every 500 ms keeps 120 samples |
| History.FahrenheitConversion | gui/main_window.py:504-511 | in Fahrenheit mode a non-zero stored value converts back to the reading, and 0 is stored exactly for no reading (0) and for -160/9 °C; in Celsius the reading is stored unchanged |
| History.FanList | gui/main_window.py:514 | the averaged fan list always has at least two entries, so the `else 0` branch is dead |
| History.FanAverageBounds | gui/main_window.py:514-516 | the fan series value lies within any bounds of the readings and is their sum divided by their count |
| History.EmptyWindows | gui/main_window.py:80-87 | six distinct, fresh, empty buffers of the given capacity |
| History.Monitor.constructor | gui/main_window.py:41-48 | for a non-zero interval the window starts with 60 s of history, no ticks, and six empty buffers of capacity `Capacity(60, interval)` |
| History.Start | gui/main_window.py:41-48 | the start-up fails with ZeroDivisionError if and only if the configured interval is 0 (the division at main_window.py:79); otherwise it yields a fresh monitor with 60 s of history and six empty buffers of the right capacity |
| History.Monitor.SetDataHistoryLength | gui/main_window.py:78-87 | replaces all six buffers with fresh, empty ones sized for the current interval |
| History.Monitor.ChangeInterval | gui/main_window.py:547-549 | a new interval rebuilds all buffers empty; an unchanged interval keeps them |
| History.Monitor.RecordTick | gui/main_window.py:499-516 | a successful tick appends exactly one value to each of the six buffers (the reading, the converted temperature or the fan average): each buffer's history of appended values grows by that value, and its contents are the deque after the append |
| History.BuffersHoldRecentTicks | gui/main_window.py:499-516 | each buffer holds the last min(ticks, capacity) values appended since it was created, oldest first |
| Base36.Base36Encode | gui/main_window.py:725-738 | TypeError for a non-integer, ValueError for a negative integer, otherwise the digits of the number ("0" for 0) |
| Base36.DigitsInAlphabet | gui/main_window.py:734-738 | the digit loop only produces 0-9a-z, and never a leading '0' for a positive number |
| Base36.DecodeDigits | gui/main_window.py:734-738 | the digits of n read back as n |
| Base36.EncodeRoundTrip | gui/main_window.py:725-738 | every encoding is canonical and decodes back to the number encoded |
| Base36.DigitsOfDecode | gui/main_window.py:734-738 | a string without a leading '0' is the digit string of the number it decodes to |
| Base36.EncodeDecode | gui/main_window.py:725-738 | every canonical string is the encoding of the number it decodes to |
| Base36.EncodeInjective | gui/main_window.py:725-738 | distinct numbers get distinct encodings |
| Base36.EncodeExamples | gui/main_window.py:732-738 | 0 → "0", 35 → "z", 36 → "10", 1295 → "zz" |
| Base36.DigitValue | gui/main_window.py:731 | a digit's value is its position in the alphabet |
| LabelColours.Parsed | gui/main_window.py:661 | `float(value.replace(suffix, ''))` succeeds exactly for a number with no unit or with that suffix |
| LabelColours.PercentKeyTones | gui/main_window.py:659-669 | for a "usage"/"percent" key: danger if and only if the value is above 80, warning for 60 < v ≤ 80, success for v ≤ 60, the foreground colour when the text does not parse |
| LabelColours.TemperatureKeyTones | gui/main_window.py:670-680 | the same bands for a "temp" key (one without "usage" or "percent", which is tested first), parsing with the °C suffix |
| LabelColours.PlainLabels | gui/main_window.py:681-682 | every other key, and any text that is not a number, is shown in the foreground colour |
| LabelColours.ToneMonotone | gui/main_window.py:659-680 | a higher reading in the same unit never shows a less alarming colour |
| LabelColours.HostKeys | gui/main_window.py:611-628 | the host's keys get the rule their names imply: cpu_usage and gpu_mem_usage are percentages, gpu_temp a temperature, cpu_fan neither |
| LabelColours.LabelBoard.constructor | gui/main_window.py:447-469 | every label starts as "Loading..." in the success colour |
| LabelColours.LabelBoard.UpdateLabel | gui/main_window.py:652-682 | an unknown key is ignored; a known key gets the new text and the colour `LabelTone` gives it, and no other label changes |
| Formatters.FormatBytes | utils/formatters.py:1-7 | the loop returns `ByteQuantity`, the amount and unit `format_bytes` prints |
| Formatters.ScaleBytesMeaning | utils/formatters.py:3-7 | after k divisions: the amount times 1024^(unit - k) gives back the input; an amount before PB is below 1024; every skipped unit was exceeded |
| Formatters.ByteQuantityMeaning | utils/formatters.py:1-7 | the unit is the largest power of 1024 not above the count, capped at PB; the value is count / 1024^k, in [1, 1024) from KB to TB |
| Formatters.SmallCountsInBytes | utils/formatters.py:3-5 | counts below 1024 are printed unchanged in B |
| Formatters.Binary | utils/formatters.py:6 | every power of 1024 is at least 1 |
| Formatters.FrequencyQuantity | utils/formatters.py:9-18 | GHz if and only if ≥ 1e9, MHz on [1e6, 1e9), kHz on [1e3, 1e6), Hz below; value × unit factor = input; value ≥ 1 above Hz and < 1000 below GHz |
| SystemStats.Upper | monitor/system_stats.py:74 | upper-casing keeps the length and maps a-z to A-Z, leaving every other character alone |
| SystemStats.DedicatedGpus | monitor/system_stats.py:77 | the dedicated list holds exactly the GPUs whose names look dedicated |
| SystemStats.DedicatedGpusSplit | monitor/system_stats.py:77 | the filter keeps list order and multiplicity: the dedicated GPUs of `a + b` are those of `a` followed by those of `b` |
| SystemStats.DedicatedGpusSingle | monitor/system_stats.py:77 | a one-GPU list keeps its GPU exactly when its name looks dedicated, so with the split the filter is the comprehension itself |
| SystemStats.FirstLargest | monitor/system_stats.py:79-81 | `max(key=memoryTotal)` picks a GPU with maximal memory, the earliest among ties |
| SystemStats.ChosenGpu | monitor/system_stats.py:71-81 | a GPU is chosen if and only if there is one, and it is from the list |
| SystemStats.ChosenGpuIsLargestCandidate | monitor/system_stats.py:73-81 | the chosen GPU is dedicated if and only if any GPU is; it has maximal memory among its candidates and is the first such |
| SystemStats.GpuFields | monitor/system_stats.py:82-89 | usage = load · 100; memory_percent · total = used · 100 when the total is non-zero, otherwise 0 |
| SystemStats.GpuPercentagesInRange | monitor/system_stats.py:84-87 | a load in [0, 1] and used memory within the total give percentages in [0, 100] |
| SystemStats.ControllerName | monitor/system_stats.py:97-107 | a name is given if and only if there are controllers; it is theirs, and dedicated whenever any is |
| SystemStats.ControllerNameIsEarliest | monitor/system_stats.py:103-107 | it is the first dedicated controller, or the first controller when none is dedicated |
| SystemStats.GpuInfo | monitor/system_stats.py:52-110 | with GPUs, every numeric field is the chosen GPU's (`GpuFields` of `ChosenGpu`); without GPUs every numeric field stays 0; a controller name, when one is found, overrides the name; otherwise the name is the chosen GPU's or "Unknown" |
| SystemStats.KindOf | monitor/system_stats.py:160-164 | Ethernet if and only if the name starts with "Ethernet" or "eth"; Wi-Fi if and only if it does not but starts with "Wi-Fi" or "wlan"; Unknown otherwise |
| SystemStats.AdapterOf | monitor/system_stats.py:153-170 | the record keeps the name and kind; status Up/Down and speed come from the stats map when the interface is in it, otherwise Unknown and 0 |
| SystemStats.ListAdapters | monitor/system_stats.py:152-172 | one record per interface, in enumeration order |
| SystemStats.EthernetNames | gui/main_window.py:642 | the Ethernet label lists exactly the adapters classified Ethernet |
| SystemStats.EthernetNamesSplit | gui/main_window.py:642 | the names come in enumeration order, once per adapter: the names of `a + b` are those of `a` followed by those of `b` |
| SystemStats.EthernetNamesSingle | gui/main_window.py:642 | a one-adapter list gives its name exactly when the adapter is classified Ethernet |
| SystemStats.BucketFans | monitor/system_stats.py:125-132 | the sensor loop returns `Buckets` |
| SystemStats.BucketsCpuFan | monitor/system_stats.py:126-128 | cpu is the value of the last fan whose name contains "CPU", or 0 with none |
| SystemStats.BucketsGpuFan | monitor/system_stats.py:129-130 | gpu is the value of the last fan naming "GPU" but not "CPU", or 0 with none |
| SystemStats.BucketsSystemFans | monitor/system_stats.py:131-132 | every other fan is appended to system in order; non-fan sensors are ignored |
| SystemStats.CpuTemperature | monitor/system_stats.py:32-35 | the first temperature sensor naming "CPU" gives the temperature, 0 with none |
| SystemStats.ReadCpuTemperature | monitor/system_stats.py:32-35 | the sensor loop, which stops at the first match, returns `CpuTemperature`: the first CPU temperature sensor's value, 0 with none |
| SystemStats.SumDiskCounters | monitor/system_stats.py:225-241 | one record per disk in order, and the four totals are `Totals` of the list |
| SystemStats.TotalsSplit | monitor/system_stats.py:237-241 | totals over a concatenation are the sums of the parts' totals |
| SystemStats.OneDiskTotals | monitor/system_stats.py:237-241 | one disk's totals are its own counters, so the totals are the per-counter sums |

## Left out

- Tk itself is not modelled: widgets, fonts, stipples, the canvas's rendering, `winfo_*` and event binding. Canvas items are values (`Canvas.Primitive`), and width and height are parameters of a redraw.
- Timers (`root.after`, `after_cancel`), the JSON configuration file, the CSV log, `reset_log` and the restart by `os.execl` are not modelled. Apart from the timestamp's base-36 encoding, these are host and I/O code.
- psutil, wmi, GPUtil and `platform` are not modelled. Their results are parameters: the GPU list, the controller names (None when not on Windows or the query fails), the interface names and stats map, the sensors and the disk counters.
- Library exceptions other than a missing wmi are not modelled; the model assumes the calls return.
- Floating-point rounding and text formatting (`:.1f`, `:.0f`) are not modelled; numbers are exact reals.
- LabelColours.LabelTone: the label text is modelled as a (value, unit) pair. The colour is decided on the exact value rather than on its one-decimal rendering, so values within 0.05 of 60 or 80 may be banded differently from the source.
- SystemStats.Upper: only ASCII letters are upper-cased; Python's full Unicode case mapping is not modelled.
- ScrollingGraph.ScrollingFrame: requires `seconds > 0` and `y_max != y_min`. The source divides by both. The host always passes 60 s and distinct bounds; the ZeroDivisionError is not modelled.
- DualLineGraph.DualFrame: the same two requirements as the single-series graph, at least one buffer, and at least as many colours as buffers. `max([])` would raise, and so would `self.colors[idx]` (dual_line_graph.py:49) with fewer colours than buffers; the host always passes two buffers and two colours, and neither IndexError is modelled.
- History.Monitor.constructor: requires a non-zero update interval. `load_config` accepts any integer from the configuration file, and an interval of 0 makes `_set_data_history_length` raise ZeroDivisionError, so no window is built; that case is modelled by `History.Start`, which returns the error.
- History.Monitor: the `data_history` dictionary is modelled as six fields, one per key. A lookup with a constant key is the field itself.
- History.Monitor.RecordTick: a tick interrupted by an exception (caught in `update_stats`) is not modelled; `None` readings are not modelled either, and readings are reals. The buffer type still allows a missing sample.
- An exception raised by a graph's redraw inside `update_stats` skips the later redraws and the label update. This belongs to the host's control flow and is not modelled.
- The network totals (`total_sent`, `total_recv`) and disk partitions are not modelled. They are copied from psutil with no rule of their own.
- The trivial formatters `format_temperature`, `format_voltage`, `format_power` and `format_speed` are not modelled. Neither are the no-op `start`, `stop` and `optimize_for_speed`.
- The source carries a second copy of each smoothing helper in gui/dual_line_graph.py, identical to the single-series ones. The model defines each helper once, in `Smoothing`, and both graphs use it.
- Applying the settings redraws every graph and recreates the temperature graph for a new unit. Only the buffer reset of an interval change is modelled. The graphs are modelled as reading the buffers they were given.
