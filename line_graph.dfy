/** The line chart: one series, its X axis a linear scale over the datum
    indices, each datum a point joined to the next by a segment. */
module LineGraph {
  import opened Layout

  /** The X scale asks for the index interval `[0, data.length - 1]` across
      the plot's width, niced. It depends on the number of data only; with no
      data the interval is `[0, -1]`. */
  function XScaleSpec(frame: PlotFrame, data: seq<DataPoint>): (s: LinearScaleSpec)
    ensures s.domain.lo == 0.0 && s.domain.hi == |data| as real - 1.0
    ensures s.rangeStart == frame.origin.x && s.rangeEnd == frame.xAxisEnd.x && s.nice
  {
    LinearScaleSpec(Domain(0.0, |data| as real - 1.0), frame.origin.x, frame.xAxisEnd.x, true)
  }

  /** The Y scale asks for the domain of the data's values. */
  lemma YDomainHoldsData(frame: PlotFrame, data: seq<DataPoint>)
    ensures var s := YScaleSpec(frame, Values(data));
      && s.domain.lo <= s.domain.hi
      && (forall i :: 0 <= i < |data| ==> s.domain.lo <= data[i].value <= s.domain.hi)
      && (|data| == 0 ==> s.domain == Domain(0.0, 0.0))
      && (|data| > 0 ==> exists i, j :: 0 <= i < |data| && 0 <= j < |data| &&
                           s.domain.lo == data[i].value && s.domain.hi == data[j].value)
  {
    var v := Values(data);
    var s := YScaleSpec(frame, v);
    if |data| > 0 {
      var i :| 0 <= i < |v| && v[i] == s.domain.lo;
      var j :| 0 <= j < |v| && v[j] == s.domain.hi;
      assert data[i].value == s.domain.lo && data[j].value == s.domain.hi;
    }
  }

  /** One point per datum, in order: the datum's name and value, at
      `(xScale(i), yScale(value))` for its index `i`. */
  function Points(data: seq<DataPoint>, xScale: real -> real, yScale: real -> real): (r: seq<Point>)
    ensures |r| == |data|
    ensures forall i :: 0 <= i < |data| ==>
      && r[i].name == data[i].name && r[i].value == data[i].value
      && r[i].x == xScale(i as real) && r[i].y == yScale(data[i].value)
  {
    seq(|data|, i requires 0 <= i < |data| =>
      Point(data[i].name, data[i].value, xScale(i as real), yScale(data[i].value)))
  }

  /** The line has `max(n - 1, 0)` segments for `n` data, segment `i` running
      from datum `i`'s position to datum `i + 1`'s. */
  lemma SegmentsJoinConsecutiveData(data: seq<DataPoint>, xScale: real -> real, yScale: real -> real)
    ensures var segs := Segments(Points(data, xScale, yScale));
      && |segs| == (if |data| == 0 then 0 else |data| - 1)
      && forall i :: 0 <= i < |segs| ==>
           segs[i] == Segment(xScale(i as real), yScale(data[i].value),
                              xScale((i + 1) as real), yScale(data[i + 1].value))
  {
  }

  /** A category label per point, under it on the baseline. */
  function CategoryLabels(points: seq<Point>, frame: PlotFrame, numberText: real -> string): (r: seq<Label>)
    ensures |r| == |points|
    ensures forall i :: 0 <= i < |points| ==>
      r[i] == Label(KeyOf(points[i].name, numberText), points[i].x, frame.origin.y)
  {
    seq(|points|, i requires 0 <= i < |points| =>
      Label(KeyOf(points[i].name, numberText), points[i].x, frame.origin.y))
  }
}
