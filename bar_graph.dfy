/** The bar chart: one series over a band axis whose keys are the data's
    names, one rectangle per datum standing on the baseline. */
module BarGraph {
  import opened Layout

  /** The X scale asks for the data's names, stringified and in order, as
      bands across the plot's width with the band padding. */
  function XScaleSpec(frame: PlotFrame, data: seq<DataPoint>, numberText: real -> string): (s: BandScaleSpec)
    ensures |s.domain| == |data|
    ensures forall i :: 0 <= i < |data| ==> s.domain[i] == KeyOf(data[i].name, numberText)
    ensures s.rangeStart == frame.origin.x && s.rangeEnd == frame.xAxisEnd.x && s.padding == BandPadding
  {
    BandScaleSpec(Keys(data, numberText), frame.origin.x, frame.xAxisEnd.x, BandPadding)
  }

  /** The Y scale asks for the domain of the data's values. */
  lemma YDomainHoldsData(frame: PlotFrame, data: seq<DataPoint>)
    ensures var s := YScaleSpec(frame, Values(data));
      && s.domain.lo <= s.domain.hi
      && (forall i :: 0 <= i < |data| ==> s.domain.lo <= data[i].value <= s.domain.hi)
      && (|data| == 0 ==> s.domain == Domain(0.0, 0.0))
  {
  }

  /** One bar per datum, in order: the datum's name and value, starting at its
      key's band (0 for a key the scale does not know), as wide as the band,
      from `yScale(value)` down to the baseline. A value above the baseline's
      value gives a negative height: nothing is clamped. */
  function Bars(data: seq<DataPoint>, xScale: BandScale, yScale: real -> real, frame: PlotFrame,
                numberText: real -> string): (r: seq<Bar>)
    ensures |r| == |data|
    ensures forall i :: 0 <= i < |data| ==>
      && r[i].name == data[i].name && r[i].value == data[i].value
      && r[i].x == xScale.StartOr0(KeyOf(data[i].name, numberText))
      && r[i].width == xScale.bandwidth
      && r[i].y == yScale(data[i].value)
      && r[i].y + r[i].height == frame.origin.y
      && (r[i].height < 0.0 <==> yScale(data[i].value) > frame.origin.y)
  {
    seq(|data|, i requires 0 <= i < |data| =>
      var y := yScale(data[i].value);
      Bar(data[i].name, data[i].value, xScale.StartOr0(KeyOf(data[i].name, numberText)),
          y, xScale.bandwidth, frame.origin.y - y))
  }

  /** A category label per bar, centred on it, on the baseline. */
  function CategoryLabels(bars: seq<Bar>, frame: PlotFrame, numberText: real -> string): (r: seq<Label>)
    ensures |r| == |bars|
    ensures forall i :: 0 <= i < |bars| ==>
      && r[i].text == KeyOf(bars[i].name, numberText)
      && r[i].y == frame.origin.y
      && r[i].x - bars[i].x == (bars[i].x + bars[i].width) - r[i].x
  {
    seq(|bars|, i requires 0 <= i < |bars| =>
      Label(KeyOf(bars[i].name, numberText), bars[i].x + bars[i].width / 2.0, frame.origin.y))
  }
}
