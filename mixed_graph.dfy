/** The mixed chart: several line and bar series over one band axis. The
    band of each key is split evenly among the bar series only; line points
    sit at band centres; each series is coloured by its explicit colour or by
    its position in the list of series, cycling through a palette. */
module MixedGraph {
  import opened Layout

  datatype Kind = LineKind | BarKind

  type Color = string

  datatype Dataset = Dataset(kind: Kind, data: seq<DataPoint>, color: Option<Color>)

  /** The drawable geometry of one series. */
  datatype Series =
    | LineSeries(points: seq<Point>, lineSegments: seq<Segment>, color: Color)
    | BarSeries(bars: seq<Bar>, color: Color)

  /** The X keys: the first dataset's names stringified, in order; none when
      there is no dataset. */
  function XData(datasets: seq<Dataset>, numberText: real -> string): (r: seq<string>)
    ensures |datasets| == 0 ==> r == []
    ensures |datasets| > 0 ==>
      |r| == |datasets[0].data| &&
      forall i :: 0 <= i < |r| ==> r[i] == KeyOf(datasets[0].data[i].name, numberText)
  {
    if |datasets| == 0 then [] else Keys(datasets[0].data, numberText)
  }

  /** The X scale asks for the X keys as bands across the plot's width. */
  function XScaleSpec(frame: PlotFrame, datasets: seq<Dataset>, numberText: real -> string): (s: BandScaleSpec)
    ensures |datasets| == 0 ==> s.domain == []
    ensures |datasets| > 0 ==> s.domain == Keys(datasets[0].data, numberText)
    ensures s.rangeStart == frame.origin.x && s.rangeEnd == frame.xAxisEnd.x && s.padding == BandPadding
  {
    BandScaleSpec(XData(datasets, numberText), frame.origin.x, frame.xAxisEnd.x, BandPadding)
  }

  /** Every value of every dataset, dataset by dataset
      (`datasets.flatMap((dataset) => dataset.data.map((d) => d.value))`). */
  function AllValues(datasets: seq<Dataset>): (r: seq<real>)
    ensures forall j, i :: 0 <= j < |datasets| && 0 <= i < |datasets[j].data| ==>
      datasets[j].data[i].value in r
    ensures forall v :: v in r ==>
      exists j, i :: 0 <= j < |datasets| && 0 <= i < |datasets[j].data| && datasets[j].data[i].value == v
  {
    if |datasets| == 0 then []
    else
      var rest := AllValues(datasets[1..]);
      assert forall j :: 1 <= j < |datasets| ==> datasets[j] == datasets[1..][j - 1];
      Values(datasets[0].data) + rest
  }

  /** The Y scale asks for one domain shared by all series: it holds every
      value of every dataset, its bounds are values of some dataset, and it is
      `[0, 0]` when there are no values at all. */
  lemma {:induction false} YDomainHoldsAllData(frame: PlotFrame, datasets: seq<Dataset>)
    ensures var s := YScaleSpec(frame, AllValues(datasets));
      && s.domain.lo <= s.domain.hi
      && (forall j, i :: 0 <= j < |datasets| && 0 <= i < |datasets[j].data| ==>
            s.domain.lo <= datasets[j].data[i].value <= s.domain.hi)
      && (AllValues(datasets) == [] ==> s.domain == Domain(0.0, 0.0))
      && (AllValues(datasets) != [] ==>
            (exists j, i :: 0 <= j < |datasets| && 0 <= i < |datasets[j].data| &&
               datasets[j].data[i].value == s.domain.lo) &&
            (exists j, i :: 0 <= j < |datasets| && 0 <= i < |datasets[j].data| &&
               datasets[j].data[i].value == s.domain.hi))
  {
    var all := AllValues(datasets);
    var s := YScaleSpec(frame, all);
    forall j, i | 0 <= j < |datasets| && 0 <= i < |datasets[j].data|
      ensures s.domain.lo <= datasets[j].data[i].value <= s.domain.hi
    {
      var v := datasets[j].data[i].value;
      assert v in all;
      var k :| 0 <= k < |all| && all[k] == v;
    }
    if all != [] {
      assert s.domain.lo in all && s.domain.hi in all;
    }
  }

  /** `datasets.filter((d) => d.type === "bar")` */
  function BarDatasets(datasets: seq<Dataset>): (r: seq<Dataset>)
    ensures |r| <= |datasets|
  {
    if |datasets| == 0 then []
    else (if datasets[0].kind == BarKind then [datasets[0]] else []) + BarDatasets(datasets[1..])
  }

  /** The filtered list holds exactly the bar datasets of the list. */
  lemma {:induction false} BarDatasetsMembers(datasets: seq<Dataset>)
    ensures forall d :: d in BarDatasets(datasets) <==> d in datasets && d.kind == BarKind
  {
    if |datasets| > 0 {
      BarDatasetsMembers(datasets[1..]);
      assert datasets == [datasets[0]] + datasets[1..];
    }
  }

  /** `xScale.bandwidth() / (barDatasets.length || 1)`: `k` bar series share
      a band evenly; with none the width is the whole band. */
  function BarWidth(bandwidth: real, barCount: nat): (w: real)
    ensures barCount <= 1 ==> w == bandwidth
  {
    if barCount == 0 then bandwidth
    else
      assert barCount == 1 ==> barCount as real == 1.0;
      bandwidth / barCount as real
  }

  /** `k` bar widths make up exactly one band; with no bar series a bar
      would be as wide as the band. */
  lemma BarWidthSplitsBand(bandwidth: real, barCount: nat)
    ensures barCount == 0 ==> BarWidth(bandwidth, barCount) == bandwidth
    ensures barCount > 0 ==> barCount as real * BarWidth(bandwidth, barCount) == bandwidth
  {
  }

  /** The position of dataset `i` among the bar datasets: how many bar
      datasets come before it. */
  function BarIndex(datasets: seq<Dataset>, i: nat): (k: nat)
    requires i <= |datasets|
    ensures k <= i
  {
    |BarDatasets(datasets[..i])|
  }

  /** `palette[index % palette.length]`, counted round the palette one lap
      at a time (see `PaletteEntryIsModulo`). */
  function PaletteEntry(palette: seq<Color>, index: nat): (c: Color)
    requires |palette| > 0
    ensures c in palette
    decreases index
  {
    if index < |palette| then palette[index] else PaletteEntry(palette, index - |palette|)
  }

  /** The colour of the series at `datasetIndex`: its own, else the palette
      entry at `datasetIndex` modulo the palette's length. */
  function SeriesColor(explicit: Option<Color>, palette: seq<Color>, datasetIndex: nat): (c: Color)
    requires |palette| > 0
    ensures explicit.Some? ==> c == explicit.value
    ensures explicit.None? ==> c == PaletteEntry(palette, datasetIndex)
  {
    explicit.GetOr(PaletteEntry(palette, datasetIndex))
  }

  /** The palette entry is the one at the index modulo the palette's length. */
  lemma {:induction false} PaletteEntryIsModulo(palette: seq<Color>, index: nat)
    requires |palette| > 0
    ensures PaletteEntry(palette, index) == palette[index % |palette|]
  {
    var n := |palette|;
    if index < n {
      ModUnique(index, n, 0, index);
    } else {
      PaletteEntryIsModulo(palette, index - n);
      ModPeriod(index - n, n);
    }
  }

  /** The palette is cycled: series without a colour `|palette|` positions
      apart get the same colour, and within one round of the palette series
      get different colours if the palette's entries differ. */
  lemma PaletteCycles(palette: seq<Color>, i: nat, j: nat)
    requires |palette| > 0
    ensures SeriesColor(None, palette, i + |palette|) == SeriesColor(None, palette, i)
    ensures (forall a, b :: 0 <= a < b < |palette| ==> palette[a] != palette[b]) &&
            i < |palette| && j < |palette| && i != j ==>
            SeriesColor(None, palette, i) != SeriesColor(None, palette, j)
  {
  }

  /** A positive multiple of `n` is at least `n`. */
  lemma MulAtLeast(d: int, n: int)
    requires d >= 1 && n > 0
    ensures d * n >= n
  {
  }

  /** Quotient and remainder are unique. */
  lemma ModUnique(a: int, n: int, q: int, r: int)
    requires n > 0 && 0 <= r < n && a == q * n + r
    ensures a % n == r
  {
    var d := q - a / n;
    assert d * n == q * n - (a / n) * n;
    if d >= 1 {
      MulAtLeast(d, n);
    } else if d <= -1 {
      MulAtLeast(-d, n);
    }
  }

  /** Adding the modulus does not change the remainder. */
  lemma ModPeriod(i: nat, n: nat)
    requires n > 0
    ensures (i + n) % n == i % n
  {
    assert i + n == (i / n + 1) * n + i % n;
    ModUnique(i + n, n, i / n + 1, i % n);
  }

  /** The points of a line series: one per datum, in order, at the centre of
      the datum's band (band start 0 for an unknown key) and at
      `yScale(value)`. */
  function LinePoints(data: seq<DataPoint>, xScale: BandScale, yScale: real -> real,
                      numberText: real -> string): (r: seq<Point>)
    ensures |r| == |data|
    ensures forall i :: 0 <= i < |data| ==>
      && r[i].name == data[i].name && r[i].value == data[i].value
      && r[i].x == xScale.StartOr0(KeyOf(data[i].name, numberText)) + xScale.bandwidth / 2.0
      && r[i].y == yScale(data[i].value)
  {
    seq(|data|, i requires 0 <= i < |data| =>
      Point(data[i].name, data[i].value,
            xScale.StartOr0(KeyOf(data[i].name, numberText)) + xScale.bandwidth / 2.0,
            yScale(data[i].value)))
  }

  /** `barWidth * barIndex`: how far the `barIndex`-th bar slot of a band lies
      from the band's start, written as `barIndex` widths laid end to end. */
  function SlotOffset(barWidth: real, barIndex: nat): (d: real)
    ensures barIndex == 0 ==> d == 0.0
    ensures barWidth >= 0.0 ==> d >= 0.0
  {
    if barIndex == 0 then 0.0 else SlotOffset(barWidth, barIndex - 1) + barWidth
  }

  lemma {:induction false} SlotOffsetIsProduct(barWidth: real, barIndex: nat)
    ensures SlotOffset(barWidth, barIndex) == barWidth * barIndex as real
  {
    if barIndex > 0 {
      SlotOffsetIsProduct(barWidth, barIndex - 1);
      assert barWidth * barIndex as real == barWidth * (barIndex - 1) as real + barWidth;
    }
  }

  /** The bars of the bar series at `barIndex` among the bar series: one per
      datum, in order, in the `barIndex`-th slot of width `barWidth` of the
      datum's band, from `yScale(value)` down to the baseline (not clamped). */
  function SeriesBars(data: seq<DataPoint>, xScale: BandScale, yScale: real -> real, frame: PlotFrame,
                      numberText: real -> string, barIndex: nat, barWidth: real): (r: seq<Bar>)
    ensures |r| == |data|
    ensures forall i :: 0 <= i < |data| ==>
      && r[i].name == data[i].name && r[i].value == data[i].value
      && r[i].x == xScale.StartOr0(KeyOf(data[i].name, numberText)) + SlotOffset(barWidth, barIndex)
      && r[i].width == barWidth
      && r[i].y == yScale(data[i].value)
      && r[i].y + r[i].height == frame.origin.y
  {
    seq(|data|, i requires 0 <= i < |data| =>
      var y := yScale(data[i].value);
      Bar(data[i].name, data[i].value,
          xScale.StartOr0(KeyOf(data[i].name, numberText)) + SlotOffset(barWidth, barIndex),
          y, barWidth, frame.origin.y - y))
  }

  /** The geometry of one dataset, given its index, its bar index and the
      bar width. */
  function ProcessDataset(dataset: Dataset, datasetIndex: nat, barIndex: nat, barWidth: real,
                          xScale: BandScale, yScale: real -> real, frame: PlotFrame,
                          palette: seq<Color>, numberText: real -> string): (r: Series)
    requires |palette| > 0
    ensures r.LineSeries? <==> dataset.kind == LineKind
    ensures r.color == SeriesColor(dataset.color, palette, datasetIndex)
  {
    var color := SeriesColor(dataset.color, palette, datasetIndex);
    if dataset.kind == LineKind then
      var points := LinePoints(dataset.data, xScale, yScale, numberText);
      LineSeries(points, Segments(points), color)
    else
      BarSeries(SeriesBars(dataset.data, xScale, yScale, frame, numberText, barIndex, barWidth), color)
  }

  /** One series per dataset, in order and of the same kind, coloured by its
      overall index; a line series has a point per datum and the segments
      between consecutive points; a bar series has a bar per datum in the slot
      of its bar index. */
  function ProcessedDatasets(datasets: seq<Dataset>, xScale: BandScale, yScale: real -> real,
                             frame: PlotFrame, palette: seq<Color>, numberText: real -> string): (r: seq<Series>)
    requires |palette| > 0
    ensures |r| == |datasets|
    ensures forall i :: 0 <= i < |datasets| ==>
      && (r[i].LineSeries? <==> datasets[i].kind == LineKind)
      && r[i].color == SeriesColor(datasets[i].color, palette, i)
    ensures forall i :: 0 <= i < |datasets| && datasets[i].kind == LineKind ==>
      && r[i].points == LinePoints(datasets[i].data, xScale, yScale, numberText)
      && |r[i].points| == |datasets[i].data|
      && r[i].lineSegments == Segments(r[i].points)
      && |r[i].lineSegments| == (if |datasets[i].data| == 0 then 0 else |datasets[i].data| - 1)
    ensures forall i :: 0 <= i < |datasets| && datasets[i].kind == BarKind ==>
      && r[i].bars == SeriesBars(datasets[i].data, xScale, yScale, frame, numberText,
                                 BarIndex(datasets, i), BarWidth(xScale.bandwidth, |BarDatasets(datasets)|))
      && |r[i].bars| == |datasets[i].data|
  {
    var barWidth := BarWidth(xScale.bandwidth, |BarDatasets(datasets)|);
    seq(|datasets|, i requires 0 <= i < |datasets| =>
      ProcessDataset(datasets[i], i, BarIndex(datasets, i), barWidth, xScale, yScale, frame, palette, numberText))
  }

  /** Filtering distributes over concatenation. */
  lemma {:induction false} BarDatasetsAppend(a: seq<Dataset>, b: seq<Dataset>)
    ensures BarDatasets(a + b) == BarDatasets(a) + BarDatasets(b)
  {
    if a == [] {
      assert a + b == b;
    } else {
      assert (a + b)[1..] == a[1..] + b;
      BarDatasetsAppend(a[1..], b);
    }
  }

  /** The indices of the bar datasets, in increasing order. */
  function BarPositions(datasets: seq<Dataset>): seq<nat>
  {
    if |datasets| == 0 then []
    else
      var n := |datasets| - 1;
      BarPositions(datasets[..n]) + (if datasets[n].kind == BarKind then [n] else [])
  }

  /** Filtering a list extended by one dataset. */
  lemma BarDatasetsSnoc(p: seq<Dataset>, d: Dataset)
    ensures BarDatasets(p + [d]) == BarDatasets(p) + (if d.kind == BarKind then [d] else [])
  {
    BarDatasetsAppend(p, [d]);
    assert [d][1..] == [];
  }

  /** A bar index only looks at the datasets before it. */
  lemma BarIndexOfPrefix(datasets: seq<Dataset>, n: nat, i: nat)
    requires i <= n <= |datasets|
    ensures BarIndex(datasets, i) == BarIndex(datasets[..n], i)
  {
    assert datasets[..i] == datasets[..n][..i];
  }

  /** Bar indices number the bar datasets `0 .. k - 1` in list order: the
      `j`-th bar dataset is the one whose bar index is `j`. */
  lemma {:induction false} BarPositionsNumberBarDatasets(datasets: seq<Dataset>)
    ensures var ps := BarPositions(datasets);
      && |ps| == |BarDatasets(datasets)|
      && (forall j :: 0 <= j < |ps| ==>
            && ps[j] < |datasets| && datasets[ps[j]].kind == BarKind
            && BarIndex(datasets, ps[j]) == j
            && BarDatasets(datasets)[j] == datasets[ps[j]])
  {
    if |datasets| > 0 {
      var n := |datasets| - 1;
      var p := datasets[..n];
      var last := datasets[n];
      BarPositionsNumberBarDatasets(p);
      var psp := BarPositions(p);
      var ps := BarPositions(datasets);
      assert datasets == p + [last];
      BarDatasetsSnoc(p, last);
      forall j | 0 <= j < |ps|
        ensures ps[j] < |datasets| && datasets[ps[j]].kind == BarKind
        ensures BarIndex(datasets, ps[j]) == j
        ensures BarDatasets(datasets)[j] == datasets[ps[j]]
      {
        BarIndexOfPrefix(datasets, n, ps[j]);
        if j < |psp| {
          assert ps[j] == psp[j];
        } else {
          assert ps[j] == n;
        }
      }
    }
  }

  /** Every bar dataset is the `j`-th for its own bar index `j`, so bar
      indices are `0 .. k - 1`, each used once. */
  lemma {:induction false} EveryBarDatasetNumbered(datasets: seq<Dataset>, i: nat)
    requires i < |datasets| && datasets[i].kind == BarKind
    ensures BarIndex(datasets, i) < |BarPositions(datasets)|
    ensures BarPositions(datasets)[BarIndex(datasets, i)] == i
  {
    var n := |datasets| - 1;
    var p := datasets[..n];
    var last := datasets[n];
    assert datasets == p + [last];
    BarDatasetsSnoc(p, last);
    BarPositionsNumberBarDatasets(p);
    BarIndexOfPrefix(datasets, n, i);
    if i < n {
      EveryBarDatasetNumbered(p, i);
    }
  }

  /** `barDatasets.findIndex((d) => d === dataset)` with `===` read as value
      equality: the first index holding `d`, or -1. */
  function FindIndex(s: seq<Dataset>, d: Dataset): (k: int)
    ensures -1 <= k < |s|
    ensures k >= 0 ==> s[k] == d && d !in s[..k]
    ensures k == -1 ==> d !in s
  {
    if |s| == 0 then -1
    else if s[0] == d then 0
    else
      var k := FindIndex(s[1..], d);
      assert s[1..] == s[1..][..|s[1..]|];
      if k == -1 then -1
      else
        assert s[..k + 1] == [s[0]] + s[1..][..k];
        k + 1
  }

  lemma {:induction false} FindIndexPastAbsentPrefix(front: seq<Dataset>, d: Dataset, back: seq<Dataset>)
    requires d !in front
    ensures FindIndex(front + [d] + back, d) == |front|
  {
    if front != [] {
      assert (front + [d] + back)[1..] == front[1..] + [d] + back;
      FindIndexPastAbsentPrefix(front[1..], d, back);
    }
  }

  /** A dataset that occurs once is not among the bar datasets before it. */
  lemma NotAmongEarlierBars(datasets: seq<Dataset>, i: nat)
    requires i < |datasets|
    requires forall a, b :: 0 <= a < b < |datasets| ==> datasets[a] != datasets[b]
    ensures datasets[i] !in BarDatasets(datasets[..i])
  {
    var pre := datasets[..i];
    BarDatasetsMembers(pre);
    forall a | 0 <= a < |pre|
      ensures pre[a] != datasets[i]
    {
      assert pre[a] == datasets[a];
    }
  }

  /** When no dataset occurs twice, the bar index is what `findIndex` finds in
      the filtered list. */
  lemma BarIndexIsFindIndex(datasets: seq<Dataset>, i: nat)
    requires i < |datasets| && datasets[i].kind == BarKind
    requires forall a, b :: 0 <= a < b < |datasets| ==> datasets[a] != datasets[b]
    ensures FindIndex(BarDatasets(datasets), datasets[i]) == BarIndex(datasets, i)
  {
    var d := datasets[i];
    var pre := datasets[..i];
    var post := datasets[i + 1..];
    assert datasets == pre + [d] + post;
    BarDatasetsAppend(pre + [d], post);
    BarDatasetsSnoc(pre, d);
    NotAmongEarlierBars(datasets, i);
    FindIndexPastAbsentPrefix(BarDatasets(pre), d, BarDatasets(post));
  }

  /** The bars drawn for datum `m` of the bar series at `positions`, in order. */
  /** Every position is a bar series with a datum `m`. */
  predicate BandBarsDefined(r: seq<Series>, positions: seq<nat>, m: nat) {
    forall j :: 0 <= j < |positions| ==>
      positions[j] < |r| && r[positions[j]].BarSeries? && m < |r[positions[j]].bars|
  }

  function BandBars(r: seq<Series>, positions: seq<nat>, m: nat): seq<Bar>
    requires BandBarsDefined(r, positions, m)
  {
    seq(|positions|, j requires 0 <= j < |positions| => r[positions[j]].bars[m])
  }

  /** The bar of datum `m` of bar dataset `i`: in slot `BarIndex(datasets, i)`
      of the datum's band. */
  lemma {:induction false} BarInSlot(datasets: seq<Dataset>, xScale: BandScale, yScale: real -> real,
                                     frame: PlotFrame, palette: seq<Color>, numberText: real -> string,
                                     r: seq<Series>, i: nat, m: nat)
    requires |palette| > 0
    requires r == ProcessedDatasets(datasets, xScale, yScale, frame, palette, numberText)
    requires i < |datasets| && datasets[i].kind == BarKind && m < |datasets[i].data|
    ensures i < |r| && r[i].BarSeries? && m < |r[i].bars|
    ensures var w := BarWidth(xScale.bandwidth, |BarDatasets(datasets)|);
      && r[i].bars[m].width == w
      && r[i].bars[m].x == xScale.StartOr0(KeyOf(datasets[i].data[m].name, numberText)) + SlotOffset(w, BarIndex(datasets, i))
  {
  }

  /** `bb` are bars of equal width laid side by side with no gap that exactly
      cover `[start, start + bandwidth]`: the first starts at `start`, each
      ends where the next starts and the last ends at `start + bandwidth`. */
  predicate TilesBand(bb: seq<Bar>, start: real, bandwidth: real) {
    && (forall j :: 0 <= j < |bb| ==> bb[j].width == BarWidth(bandwidth, |bb|))
    && (|bb| > 0 ==> bb[0].x == start && bb[|bb| - 1].x + bb[|bb| - 1].width == start + bandwidth)
    && (forall j :: 0 <= j < |bb| - 1 ==> bb[j].x + bb[j].width == bb[j + 1].x)
  }

  /** Bars of equal width `bandwidth / k`, the `j`-th starting `j` widths past
      `start`, tile `[start, start + bandwidth]`. */
  lemma {:induction false} SlotsCoverBand(bb: seq<Bar>, start: real, bandwidth: real)
    requires forall j :: 0 <= j < |bb| ==>
      bb[j].width == BarWidth(bandwidth, |bb|) && bb[j].x == start + SlotOffset(bb[j].width, j)
    ensures TilesBand(bb, start, bandwidth)
  {
    var k := |bb|;
    var w := BarWidth(bandwidth, k);
    if k > 0 {
      BarWidthSplitsBand(bandwidth, k);
      SlotOffsetIsProduct(w, k);
      assert SlotOffset(w, k) == SlotOffset(w, k - 1) + w;
    }
  }

  /** When datum `m` of every bar series has the same known key, the bar
      series' bars for it, in the order of the bar series, fill the slots of
      that key's band one by one. */
  lemma BandBarsInSlots(datasets: seq<Dataset>, xScale: BandScale, yScale: real -> real,
                        frame: PlotFrame, palette: seq<Color>, numberText: real -> string,
                        r: seq<Series>, m: nat, key: string, start: real)
    requires |palette| > 0
    requires r == ProcessedDatasets(datasets, xScale, yScale, frame, palette, numberText)
    requires xScale.position(key) == Some(start)
    requires forall i :: 0 <= i < |datasets| && datasets[i].kind == BarKind ==>
      m < |datasets[i].data| && KeyOf(datasets[i].data[m].name, numberText) == key
    ensures BandBarsDefined(r, BarPositions(datasets), m)
    ensures var bb := BandBars(r, BarPositions(datasets), m);
      && |bb| == |BarDatasets(datasets)|
      && forall j :: 0 <= j < |bb| ==>
           bb[j].width == BarWidth(xScale.bandwidth, |bb|) && bb[j].x == start + SlotOffset(bb[j].width, j)
  {
    BarPositionsNumberBarDatasets(datasets);
    var ps := BarPositions(datasets);
    var w := BarWidth(xScale.bandwidth, |ps|);
    forall j | 0 <= j < |ps|
      ensures ps[j] < |r| && r[ps[j]].BarSeries? && m < |r[ps[j]].bars|
      ensures r[ps[j]].bars[m].width == w && r[ps[j]].bars[m].x == start + SlotOffset(w, j)
    {
      BarInSlot(datasets, xScale, yScale, frame, palette, numberText, r, ps[j], m);
    }
  }

  /** When datum `m` of every bar series has the same known key, the bars of
      that key, taken in the order of the bar series, are one bar per bar
      series and tile the key's band. */
  lemma BarsOfOneKeyTileBand(datasets: seq<Dataset>, xScale: BandScale, yScale: real -> real,
                             frame: PlotFrame, palette: seq<Color>, numberText: real -> string,
                             r: seq<Series>, m: nat, key: string, start: real)
    requires |palette| > 0
    requires r == ProcessedDatasets(datasets, xScale, yScale, frame, palette, numberText)
    requires xScale.position(key) == Some(start)
    requires forall i :: 0 <= i < |datasets| && datasets[i].kind == BarKind ==>
      m < |datasets[i].data| && KeyOf(datasets[i].data[m].name, numberText) == key
    ensures BandBarsDefined(r, BarPositions(datasets), m)
    ensures var bb := BandBars(r, BarPositions(datasets), m);
      |bb| == |BarDatasets(datasets)| && TilesBand(bb, start, xScale.bandwidth)
  {
    BandBarsInSlots(datasets, xScale, yScale, frame, palette, numberText, r, m, key, start);
    SlotsCoverBand(BandBars(r, BarPositions(datasets), m), start, xScale.bandwidth);
  }

  /** The total number of bars over all series. */
  function BarTotal(r: seq<Series>): nat {
    if |r| == 0 then 0
    else (if r[0].BarSeries? then |r[0].bars| else 0) + BarTotal(r[1..])
  }

  lemma {:induction false} BarTotalCounts(datasets: seq<Dataset>, r: seq<Series>, n: nat)
    requires |r| == |datasets|
    requires forall i :: 0 <= i < |r| ==> (r[i].BarSeries? <==> datasets[i].kind == BarKind)
    requires forall i :: 0 <= i < |r| && r[i].BarSeries? ==> |r[i].bars| == n
    ensures BarTotal(r) == |BarDatasets(datasets)| * n
  {
    if |r| > 0 {
      BarTotalCounts(datasets[1..], r[1..], n);
      var rest := |BarDatasets(datasets[1..])|;
      if datasets[0].kind == BarKind {
        assert (rest + 1) * n == rest * n + n;
      }
    }
  }

  /** `k` bar datasets of `n` data each give exactly `k * n` bars. */
  lemma BarCountIsSeriesTimesCategories(datasets: seq<Dataset>, xScale: BandScale, yScale: real -> real,
                                         frame: PlotFrame, palette: seq<Color>, numberText: real -> string, n: nat)
    requires |palette| > 0
    requires forall i :: 0 <= i < |datasets| && datasets[i].kind == BarKind ==> |datasets[i].data| == n
    ensures BarTotal(ProcessedDatasets(datasets, xScale, yScale, frame, palette, numberText))
            == |BarDatasets(datasets)| * n
  {
    var r := ProcessedDatasets(datasets, xScale, yScale, frame, palette, numberText);
    BarTotalCounts(datasets, r, n);
  }

  /** A category label per X key, at the centre of its band on the baseline. */
  function CategoryLabels(xData: seq<string>, xScale: BandScale, frame: PlotFrame): (r: seq<Label>)
    ensures |r| == |xData|
    ensures forall c :: 0 <= c < |xData| ==>
      r[c] == Label(xData[c], xScale.StartOr0(xData[c]) + xScale.bandwidth / 2.0, frame.origin.y)
  {
    seq(|xData|, c requires 0 <= c < |xData| =>
      Label(xData[c], xScale.StartOr0(xData[c]) + xScale.bandwidth / 2.0, frame.origin.y))
  }

  /** A line point sits in the same column as the label of its key. */
  lemma LinePointsUnderLabels(datasets: seq<Dataset>, xScale: BandScale, yScale: real -> real,
                              frame: PlotFrame, palette: seq<Color>, numberText: real -> string,
                              i: nat, m: nat, c: nat)
    requires |palette| > 0
    requires i < |datasets| && datasets[i].kind == LineKind && m < |datasets[i].data|
    requires c < |XData(datasets, numberText)|
    requires KeyOf(datasets[i].data[m].name, numberText) == XData(datasets, numberText)[c]
    ensures ProcessedDatasets(datasets, xScale, yScale, frame, palette, numberText)[i].points[m].x
            == CategoryLabels(XData(datasets, numberText), xScale, frame)[c].x
  {
  }

  /** With a single bar series its bars fill their bands, so each bar is
      centred on its key's label, like the line points. */
  lemma SoleBarSeriesCentredOnLabels(datasets: seq<Dataset>, xScale: BandScale, yScale: real -> real,
                                     frame: PlotFrame, palette: seq<Color>, numberText: real -> string,
                                     i: nat, m: nat, c: nat)
    requires |palette| > 0
    requires |BarDatasets(datasets)| == 1
    requires i < |datasets| && datasets[i].kind == BarKind && m < |datasets[i].data|
    requires c < |XData(datasets, numberText)|
    requires KeyOf(datasets[i].data[m].name, numberText) == XData(datasets, numberText)[c]
    ensures var bar := ProcessedDatasets(datasets, xScale, yScale, frame, palette, numberText)[i].bars[m];
      bar.width == xScale.bandwidth &&
      bar.x + bar.width / 2.0 == CategoryLabels(XData(datasets, numberText), xScale, frame)[c].x
  {
    BarPositionsNumberBarDatasets(datasets);
    EveryBarDatasetNumbered(datasets, i);
    assert BarIndex(datasets, i) == 0;
  }
}
