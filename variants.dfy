/** How the mixed chart relates to the single-series charts: given one
    dataset it asks for the same scales and, for a bar dataset, draws the
    same bars as the bar chart. */
module Variants {
  import opened Layout
  import BarGraph
  import LineGraph
  import MixedGraph

  /** The values of a single dataset are the values of its data. */
  lemma AllValuesOfOne(d: MixedGraph.Dataset)
    ensures MixedGraph.AllValues([d]) == Values(d.data)
  {
    assert [d][1..] == [];
  }

  /** A mixed chart of one bar dataset is the bar chart of its data: the same
      X keys and band padding, the same Y domain, and the same bars, since the
      single bar series fills each band from its start. */
  lemma SingleBarDatasetIsBarChart(data: seq<DataPoint>, color: Option<MixedGraph.Color>,
                                   xScale: BandScale, yScale: real -> real, frame: PlotFrame,
                                   palette: seq<MixedGraph.Color>, numberText: real -> string)
    requires |palette| > 0
    ensures var ds := [MixedGraph.Dataset(MixedGraph.BarKind, data, color)];
      && MixedGraph.XScaleSpec(frame, ds, numberText) == BarGraph.XScaleSpec(frame, data, numberText)
      && YScaleSpec(frame, MixedGraph.AllValues(ds)) == YScaleSpec(frame, Values(data))
      && MixedGraph.ProcessedDatasets(ds, xScale, yScale, frame, palette, numberText)[0].bars
         == BarGraph.Bars(data, xScale, yScale, frame, numberText)
  {
    var d := MixedGraph.Dataset(MixedGraph.BarKind, data, color);
    var ds := [d];
    AllValuesOfOne(d);
    assert ds[..0] == [];
    assert MixedGraph.BarDatasets(ds) == [d] by {
      assert ds[1..] == [];
    }
    assert MixedGraph.BarIndex(ds, 0) == 0;
    assert MixedGraph.BarWidth(xScale.bandwidth, 1) == xScale.bandwidth;
  }

  /** A mixed chart of one line dataset asks for the line chart's Y domain and
      puts each point on the same row with the same datum; only the columns
      differ, band centres against the linear index axis. */
  lemma SingleLineDatasetSharesRows(data: seq<DataPoint>, color: Option<MixedGraph.Color>,
                                    xBand: BandScale, xIndex: real -> real, yScale: real -> real,
                                    frame: PlotFrame, palette: seq<MixedGraph.Color>,
                                    numberText: real -> string)
    requires |palette| > 0
    ensures var ds := [MixedGraph.Dataset(MixedGraph.LineKind, data, color)];
      var mixed := MixedGraph.ProcessedDatasets(ds, xBand, yScale, frame, palette, numberText)[0].points;
      var line := LineGraph.Points(data, xIndex, yScale);
      && YScaleSpec(frame, MixedGraph.AllValues(ds)) == YScaleSpec(frame, Values(data))
      && |mixed| == |line|
      && forall i :: 0 <= i < |line| ==>
           mixed[i].name == line[i].name && mixed[i].value == line[i].value && mixed[i].y == line[i].y
  {
    AllValuesOfOne(MixedGraph.Dataset(MixedGraph.LineKind, data, color));
  }
}
