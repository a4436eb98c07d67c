# Chart layout model

This project models the layout core of the three chart components of a small
React + d3 charting example: the line chart, the bar chart and the mixed
line-and-bar chart. Each component turns its props into drawable geometry.
It works out where the plot sits inside the margins. It asks d3 for an X
scale and a Y scale. It computes the Y tick rows. It then builds the shapes:
points and segments for a line series, and rectangles for a bar series.
The mixed chart also splits each category band among its bar series and
colours each series from a palette.

All three components are pure computations over their props, so the model is
made of datatypes, functions and lemmas:

- `layout.dfy` (module `Layout`) holds what the three charts share:
  - the plot frame and the default margin;
  - `String(name)` keys;
  - the `[min ?? 0, max ?? 0]` value domain;
  - the arguments given to the d3 scales;
  - the tick rows, tick labels and grid lines;
  - the polyline segments.
- `line_graph.dfy` (module `LineGraph`) is the line chart.
- `bar_graph.dfy` (module `BarGraph`) is the bar chart.
- `mixed_graph.dfy` (module `MixedGraph`) is the mixed chart. This is where
  bar slots, bar indices and colours are proved.
- `variants.dfy` (module `Variants`) relates the mixed chart to the other two.
  Given one bar dataset, it draws exactly the bar chart's bars. Given one line
  dataset, its points lie on the same rows as the line chart's points.

The d3 scales are parameters, not models:

- a band scale is a `BandScale`: a partial map from key to band start
  (`None` is d3's `undefined`) and a band width;
- a linear scale is a function `real -> real`;
- `yScale.ticks()` is a list of reals.

What the model states about these is what each chart *asks* d3 for (the
domain, range, padding and `.nice()` of each scale, as `LinearScaleSpec` and
`BandScaleSpec` records). It also states what each chart builds from the
scale it gets back. `String(n)` for a number `n` is the parameter
`numberText`.

## Model

| member | source | states |
|---|---|---|
| Layout.PlotPosition | src/components/graph/mixed/index.tsx:19-45 | With margin m (the default 16/16/32/48 when none is given), the origin is at (m.left, height − m.bottom), the X axis ends at (width − m.right, same row), and the Y axis ends at (m.left, m.top). Both axes start at the origin. The plot measures width − left − right by height − top − bottom. With no margin the corners are (48, height − 32), (width − 16, height − 32) and (48, 16). |
| Layout.KeyOf | src/components/graph/mixed/index.tsx:49 | `String(name)`: a text name is its own key, and a number's key is its printed form. |
| Layout.Keys | src/components/graph/bar/index.tsx:35-37 | One key per datum, in order: the datum's name stringified. |
| Layout.Values | src/components/graph/bar/index.tsx:47-49 | One value per datum, in order. |
| Layout.Min | src/components/graph/line/index.tsx:51 | The minimum of a non-empty list is one of its elements and is at most every element. |
| Layout.Max | src/components/graph/line/index.tsx:52 | The maximum of a non-empty list is one of its elements and is at least every element. |
| Layout.ValueDomain | src/components/graph/line/index.tsx:51-55 | `lo <= hi`. Every value lies in `[lo, hi]`. Both bounds are values of the list when it is non-empty; with no values the domain is `[0, 0]`. |
| Layout.YScaleSpec | src/components/graph/bar/index.tsx:50-58 | The Y domain holds every value. Its bounds are values, or `[0, 0]` with no data. It maps from the baseline row up to the top row, and it is niced. |
| Layout.TickScaleSpec | src/components/graph/mixed/index.tsx:72-78 | The tick scale runs from the first tick to the last one, or over `[0, 0]` when there are no ticks. It covers the Y axis rows and is niced. |
| Layout.Ticks | src/components/graph/mixed/index.tsx:79-82 | One tick row per tick value, in order, each on the row the tick scale gives that value. |
| Layout.TickLabels | src/components/graph/mixed/index.tsx:165-179 | One label per tick row, in order: the tick's value printed at the start of the X axis, on the tick's row. |
| Layout.GridLines | src/components/graph/mixed/index.tsx:180-190 | One line per tick row, in order, level on the tick's row, from the Y axis to the end of the X axis. |
| Layout.TickLabelsFollowTicks | src/components/graph/bar/index.tsx:59-141 | There is one label and one grid line per scale tick, in order. Label i prints tick i next to the Y axis, on the row the tick scale gives it. Grid line i runs level across the plot on that same row. |
| Layout.TickRowOnlyFromValue | src/components/graph/line/index.tsx:66-69 | A tick's row depends only on its value: equal values land on the same row, whatever the rest of the list is. |
| Layout.TicksRiseOnScreen | src/components/graph/bar/index.tsx:59-70 | For increasing ticks and a scale that maps larger values higher on the canvas, the tick rows go strictly upwards. |
| Layout.Segments | src/components/graph/line/index.tsx:81-88 | n points give max(n − 1, 0) segments. Segment i runs from point i to point i + 1. |
| Layout.SegmentsChain | src/components/graph/mixed/index.tsx:102-107 | Each segment ends where the next one starts, so the line is unbroken. |
| Layout.Coords | src/components/graph/line/index.tsx:73-80 | The pixel positions of the points, in order. |
| Layout.Vertices | src/components/graph/line/index.tsx:81-88 | A polyline of s > 0 segments has s + 1 vertices; with no segments it has none. |
| Layout.Ends | src/components/graph/line/index.tsx:81-88 | Each segment's end point, in order. |
| Layout.PolylineThroughPoints | src/components/graph/line/index.tsx:81-88 | Except for a single point, the segments pass through exactly the points, in order, and through nothing else. A single point gives no segment. |
| LineGraph.XScaleSpec | src/components/graph/line/index.tsx:38-44 | The X domain is `[0, n − 1]` over the datum indices (`[0, −1]` for no data). It spans the X axis and is niced. |
| LineGraph.YDomainHoldsData | src/components/graph/line/index.tsx:47-58 | Every datum's value lies in the Y domain, and both bounds are values of some datum. With no data the domain is `[0, 0]`. |
| LineGraph.Points | src/components/graph/line/index.tsx:73-80 | One point per datum, keeping its name and value, at column `xScale(i)` for its index and row `yScale(value)`. |
| LineGraph.SegmentsJoinConsecutiveData | src/components/graph/line/index.tsx:73-88 | The line has max(n − 1, 0) segments. Segment i joins datum i's position to datum i + 1's. |
| LineGraph.CategoryLabels | src/components/graph/line/index.tsx:107-121 | One label per point: the point's name, in its column, on the baseline. |
| BarGraph.XScaleSpec | src/components/graph/bar/index.tsx:35-44 | The band domain is the data's names stringified, in order. It spans the X axis with padding 0.1. |
| BarGraph.YDomainHoldsData | src/components/graph/bar/index.tsx:47-58 | Every datum's value lies in the Y domain. With no data the domain is `[0, 0]`. |
| BarGraph.Bars | src/components/graph/bar/index.tsx:73-82 | One bar per datum, keeping its name and value. It starts at its key's band (0 for an unknown key) and is a whole band wide. It runs from `yScale(value)` to the baseline. Its height is negative exactly when `yScale(value)` is below the baseline. |
| BarGraph.CategoryLabels | src/components/graph/bar/index.tsx:101-115 | One label per bar, with the bar's key, horizontally centred on the bar and on the baseline. |
| MixedGraph.XData | src/components/graph/mixed/index.tsx:48-50 | The X keys are the first dataset's names stringified, in order. There are none when there is no dataset. |
| MixedGraph.XScaleSpec | src/components/graph/mixed/index.tsx:51-57 | The band domain is the first dataset's keys, or empty. It spans the X axis with padding 0.1. |
| MixedGraph.AllValues | src/components/graph/mixed/index.tsx:61-63 | Every value of every dataset is in the list, and everything in the list is the value of some dataset's datum. |
| MixedGraph.YDomainHoldsAllData | src/components/graph/mixed/index.tsx:60-71 | One Y domain holds every value of every series. Its bounds are values of some series, and it is `[0, 0]` when there are no values at all. |
| MixedGraph.BarDatasets | src/components/graph/mixed/index.tsx:87 | The filtered list is no longer than the list. |
| MixedGraph.BarDatasetsMembers | src/components/graph/mixed/index.tsx:87 | A dataset is in the filtered list if and only if it is in the list and is a bar dataset. |
| MixedGraph.BarWidth | src/components/graph/mixed/index.tsx:88 | With zero or one bar series a bar is a whole band wide. `BarWidthSplitsBand` proves that k bar widths make one band. |
| MixedGraph.BarIndex | src/components/graph/mixed/index.tsx:116 | A dataset's bar index is at most its position in the list. `BarPositionsNumberBarDatasets` and `EveryBarDatasetNumbered` prove that bar indices number the bar datasets 0 … k − 1 in order, and `BarIndexIsFindIndex` proves it is what `findIndex` returns. |
| MixedGraph.PaletteEntry | src/components/graph/mixed/index.tsx:92 | A palette entry is always one of the palette's colours. `PaletteEntryIsModulo` proves it is the entry at the index modulo the palette's length. |
| MixedGraph.SlotOffset | src/components/graph/mixed/index.tsx:122 | Slot 0 starts at the band's start, and no slot lies before it when the width is not negative. `SlotOffsetIsProduct` proves the offset is `barWidth * barIndex`. |
| MixedGraph.ProcessDataset | src/components/graph/mixed/index.tsx:90-129 | A dataset becomes a series of its own kind, coloured by its own colour or by the palette at its overall index. |
| MixedGraph.BarWidthSplitsBand | src/components/graph/mixed/index.tsx:88 | With k > 0 bar series, k bar widths make exactly one band. With none, the width is the whole band. |
| MixedGraph.SeriesColor | src/components/graph/mixed/index.tsx:91-92 | A series' own colour wins. Otherwise it takes the palette entry at its overall dataset index. |
| MixedGraph.PaletteEntryIsModulo | src/components/graph/mixed/index.tsx:92 | The palette entry for index i is `palette[i % palette.length]`. |
| MixedGraph.PaletteCycles | src/components/graph/mixed/index.tsx:91-92 | Uncoloured series `palette.length` positions apart get the same colour. Within one lap of a palette of distinct colours, different positions get different colours. |
| MixedGraph.SlotOffsetIsProduct | src/components/graph/mixed/index.tsx:122 | Slot j starts `barWidth * j` past the band's start. |
| MixedGraph.LinePoints | src/components/graph/mixed/index.tsx:95-100 | One point per datum, keeping its name and value, at the centre of its key's band (band start 0 for an unknown key) and at row `yScale(value)`. |
| MixedGraph.SeriesBars | src/components/graph/mixed/index.tsx:119-126 | One bar per datum, keeping its name and value, in slot `barIndex` of its key's band. It is one bar width wide and runs from `yScale(value)` to the baseline. |
| MixedGraph.ProcessedDatasets | src/components/graph/mixed/index.tsx:86-131 | One series per dataset, in order and of the same kind, coloured by its overall index. A line series has a point per datum and the segments between consecutive points. A bar series has a bar per datum, in the slot of its index among the bar series, with the band split among all bar series. |
| MixedGraph.BarDatasetsAppend | src/components/graph/mixed/index.tsx:87 | Filtering a concatenation gives the concatenation of the filtered parts. |
| MixedGraph.BarDatasetsSnoc | src/components/graph/mixed/index.tsx:87 | Appending a dataset appends it to the filtered list exactly when it is a bar dataset. |
| MixedGraph.BarIndexOfPrefix | src/components/graph/mixed/index.tsx:116 | A bar index depends only on the datasets before it. |
| MixedGraph.BarPositionsNumberBarDatasets | src/components/graph/mixed/index.tsx:116 | The j-th bar dataset in list order has bar index j. So the bar indices are 0 … k − 1 and match the filtered list. |
| MixedGraph.EveryBarDatasetNumbered | src/components/graph/mixed/index.tsx:116 | Every bar dataset's bar index is below k, and it is the bar dataset at that position, so no two bar series share a slot. |
| MixedGraph.FindIndex | src/components/graph/mixed/index.tsx:116 | The result is −1 when the element is absent. Otherwise it is the first index holding the element. |
| MixedGraph.FindIndexPastAbsentPrefix | src/components/graph/mixed/index.tsx:116 | The search finds an element at the end of a prefix that lacks it. |
| MixedGraph.NotAmongEarlierBars | src/components/graph/mixed/index.tsx:87 | When no dataset occurs twice, a dataset is not among the bar datasets before it. |
| MixedGraph.BarIndexIsFindIndex | src/components/graph/mixed/index.tsx:116 | When no dataset occurs twice, the `findIndex` of a bar dataset in the filtered list is its bar index. |
| MixedGraph.BarInSlot | src/components/graph/mixed/index.tsx:116-124 | Datum m of bar dataset i is a bar of the shared bar width, in slot `BarIndex(i)` of its key's band. |
| MixedGraph.SlotsCoverBand | src/components/graph/mixed/index.tsx:88 | k bars of width bandwidth / k, bar j starting j widths past the start, tile the band. The first bar starts at the band's start, each bar ends where the next begins, and the last bar ends at the band's end. |
| MixedGraph.BandBarsInSlots | src/components/graph/mixed/index.tsx:116-124 | When datum m of every bar series has the same key, its bars (one per bar series, in order) fill the slots of that key's band one by one. |
| MixedGraph.BarsOfOneKeyTileBand | src/components/graph/mixed/index.tsx:86-131 | When datum m of every bar series has the same key, its bars (one per bar series) tile that key's band exactly, with no gap and no overlap. |
| MixedGraph.BarTotalCounts | src/components/graph/mixed/index.tsx:119 | When every bar series has n bars, there are k · n bars in all. |
| MixedGraph.BarCountIsSeriesTimesCategories | src/components/graph/mixed/index.tsx:86-131 | k bar datasets of n data each draw exactly k · n bars. |
| MixedGraph.CategoryLabels | src/components/graph/mixed/index.tsx:150-164 | One label per X key, at the centre of its band (start 0 for an unknown key), on the baseline. |
| MixedGraph.LinePointsUnderLabels | src/components/graph/mixed/index.tsx:95-100 | A line point lies in the same column as the label of its key. |
| MixedGraph.SoleBarSeriesCentredOnLabels | src/components/graph/mixed/index.tsx:116-124 | With exactly one bar series, its bars are a whole band wide and centred on their key's label. |
| Variants.AllValuesOfOne | src/components/graph/mixed/index.tsx:61-63 | With one dataset, all values are that dataset's values, in order. |
| Variants.SingleBarDatasetIsBarChart | src/components/graph/bar/index.tsx:35-82 | A mixed chart of one bar dataset asks for the bar chart's X scale and Y domain and draws exactly the bar chart's bars. |
| Variants.SingleLineDatasetSharesRows | src/components/graph/line/index.tsx:47-80 | A mixed chart of one line dataset asks for the line chart's Y domain. Its points keep the line chart's names, values and rows, and differ only in their columns. |

## Left out

- Pointer hover and tooltip: the three chart components hold no hover state, pointer handler or tooltip. `src/components/graph/tooltip.tsx` is not part of this model.
- d3's scales are parameters. How d3 places bands from the padding, rounds a domain with `.nice()` or chooses `ticks()` is not modelled.
- Numbers are reals. JavaScript's floating-point rounding, `NaN` and infinities are not modelled.
- `String(n)` of a number is the parameter `numberText`; JavaScript's number formatting is not modelled. The line chart prints a name as React renders it, and that too is taken to be `numberText` for numbers.
- SVG rendering is not modelled: the two axis lines, circles, font sizes and text anchoring, the `dx`/`dy` text offsets, stroke and opacity, and React keys. The model keeps what is drawn and where: the geometry of points, segments, bars and grid lines, and the anchor of each category label and tick label.
- `useMemo`: memoisation does not change any value, and each chart is modelled as a function of its props.
- `DEFAULT_COLORS`: the constants file is not part of this model. The palette is a parameter, and it must be non-empty because the source indexes it modulo its length.
- MixedGraph.BarIndex: `findIndex` compares objects by reference, so the model numbers bar datasets by position (`BarIndexIsFindIndex` shows the two agree when no dataset appears twice). It does not model one dataset object passed twice, where `findIndex` would put both copies in the first copy's slot.
- MixedGraph.PaletteEntry and MixedGraph.SlotOffset: `%` and `barWidth * barIndex` are written as recursion. `PaletteEntryIsModulo` and `SlotOffsetIsProduct` prove them equal to the source's expressions.
- Pages, the layout and the lint configuration are outside the chart core.
