/** Geometry shared by the line, bar and mixed chart components: the plot
    frame, the value domain of the Y axis, the arguments handed to the d3
    scales, the tick rows and the polyline segments.

    The d3 scales themselves are not modelled: a chart receives them as
    parameters (a band scale as a partial position function plus its band
    width, a linear scale as a function on reals), and the model states what
    the chart builds from them. */
module Layout {

  datatype Option<+T> = None | Some(value: T) {
    /** `value ?? default` */
    function GetOr(default: T): T {
      match this
      case Some(v) => v
      case None => default
    }
  }

  /** A pixel position; y grows downwards, as on an SVG canvas. */
  datatype Pos = Pos(x: real, y: real)

  datatype Margin = Margin(top: real, right: real, bottom: real, left: real)

  /** The margin every chart uses when its caller gives none. */
  const DefaultMargin: Margin := Margin(16.0, 16.0, 32.0, 48.0)

  /** The three corners of the plot: where both axes start, where the X axis
      ends on the right and where the Y axis ends at the top. */
  datatype PlotFrame = PlotFrame(origin: Pos, xAxisEnd: Pos, yAxisEnd: Pos)

  /** The plot frame for a canvas of `width` by `height` and the caller's
      margin, `DefaultMargin` when the caller gives none. */
  function PlotPosition(width: real, height: real, margin: Option<Margin>): (f: PlotFrame)
    ensures var m := margin.GetOr(DefaultMargin);
      && f.origin == Pos(m.left, height - m.bottom)
      && f.xAxisEnd == Pos(width - m.right, height - m.bottom)
      && f.yAxisEnd == Pos(m.left, m.top)
      // the plot is the canvas less the margins
      && f.xAxisEnd.x - f.origin.x == width - m.left - m.right
      && f.origin.y - f.yAxisEnd.y == height - m.top - m.bottom
    // the two axes share the baseline and the starting column
    ensures f.origin.y == f.xAxisEnd.y && f.origin.x == f.yAxisEnd.x
    ensures margin.None? ==>
      && f.origin == Pos(48.0, height - 32.0)
      && f.xAxisEnd == Pos(width - 16.0, height - 32.0)
      && f.yAxisEnd == Pos(48.0, 16.0)
  {
    var m := margin.GetOr(DefaultMargin);
    PlotFrame(Pos(m.left, height - m.bottom),
              Pos(width - m.right, height - m.bottom),
              Pos(m.left, m.top))
  }

  /** A datum's name, typed `string | number` by the charts. */
  datatype Name = Text(text: string) | Number(number: real)

  /** `String(name)`. How JavaScript prints a number is not modelled: it is
      the parameter `numberText`. */
  function KeyOf(name: Name, numberText: real -> string): (k: string)
    ensures name.Text? ==> k == name.text
    ensures name.Number? ==> k == numberText(name.number)
  {
    match name
    case Text(s) => s
    case Number(n) => numberText(n)
  }

  datatype DataPoint = DataPoint(name: Name, value: real)

  /** `data.map((d) => d.value)` */
  function Values(data: seq<DataPoint>): (r: seq<real>)
    ensures |r| == |data|
    ensures forall i :: 0 <= i < |data| ==> r[i] == data[i].value
  {
    seq(|data|, i requires 0 <= i < |data| => data[i].value)
  }

  /** `data.map((d) => String(d.name))`: the category keys of a band axis. */
  function Keys(data: seq<DataPoint>, numberText: real -> string): (r: seq<string>)
    ensures |r| == |data|
    ensures forall i :: 0 <= i < |data| ==> r[i] == KeyOf(data[i].name, numberText)
  {
    seq(|data|, i requires 0 <= i < |data| => KeyOf(data[i].name, numberText))
  }

  /** `d3.min` of a non-empty list. */
  function Min(s: seq<real>): (m: real)
    requires |s| > 0
    ensures m in s
    ensures forall i :: 0 <= i < |s| ==> m <= s[i]
  {
    if |s| == 1 then s[0]
    else
      var rest := Min(s[1..]);
      if s[0] <= rest then s[0] else rest
  }

  /** `d3.max` of a non-empty list. */
  function Max(s: seq<real>): (m: real)
    requires |s| > 0
    ensures m in s
    ensures forall i :: 0 <= i < |s| ==> s[i] <= m
  {
    if |s| == 1 then s[0]
    else
      var rest := Max(s[1..]);
      if s[0] >= rest then s[0] else rest
  }

  /** A `[lo, hi]` pair handed to a scale's `.domain(...)`. */
  datatype Domain = Domain(lo: real, hi: real)

  /** `[d3.min(values) ?? 0, d3.max(values) ?? 0]`: the smallest interval
      holding every value, or `[0, 0]` when there are none. */
  function ValueDomain(values: seq<real>): (d: Domain)
    ensures d.lo <= d.hi
    ensures forall i :: 0 <= i < |values| ==> d.lo <= values[i] <= d.hi
    ensures |values| > 0 ==> d.lo in values && d.hi in values
    ensures |values| == 0 ==> d == Domain(0.0, 0.0)
  {
    if |values| == 0 then Domain(0.0, 0.0) else Domain(Min(values), Max(values))
  }

  /** The arguments of `d3.scaleLinear().domain([lo, hi]).range([start, end])`,
      followed by `.nice()` when `nice` holds. */
  datatype LinearScaleSpec = LinearScaleSpec(domain: Domain, rangeStart: real, rangeEnd: real, nice: bool)

  /** The arguments of `d3.scaleBand().domain(keys).range([start, end]).padding(p)`. */
  datatype BandScaleSpec = BandScaleSpec(domain: seq<string>, rangeStart: real, rangeEnd: real, padding: real)

  /** The padding every band axis asks for. */
  const BandPadding: real := 0.1

  /** A band scale as a chart uses it: the start of a key's band, or `None`
      (d3's `undefined`) for a key outside the domain, and `bandwidth()`. */
  datatype BandScale = BandScale(position: string -> Option<real>, bandwidth: real) {
    /** `xScale(key) ?? 0` */
    function StartOr0(key: string): real {
      position(key).GetOr(0.0)
    }
  }

  /** The Y scale every chart asks for: the value domain mapped from the
      baseline up to the top of the plot, then niced. */
  function YScaleSpec(frame: PlotFrame, values: seq<real>): (s: LinearScaleSpec)
    ensures s.domain.lo <= s.domain.hi
    ensures forall i :: 0 <= i < |values| ==> s.domain.lo <= values[i] <= s.domain.hi
    ensures |values| > 0 ==> s.domain.lo in values && s.domain.hi in values
    ensures |values| == 0 ==> s.domain == Domain(0.0, 0.0)
    ensures s.rangeStart == frame.origin.y && s.rangeEnd == frame.yAxisEnd.y && s.nice
  {
    LinearScaleSpec(ValueDomain(values), frame.origin.y, frame.yAxisEnd.y, true)
  }

  /** A tick value and the pixel row it is drawn on. */
  datatype Tick = Tick(value: real, y: real)

  /** The scale the tick rows are projected with: from the first tick to the
      last one (`ticks.at(0) ?? 0`, `ticks.at(-1) ?? 0`), onto the same pixel
      rows as the Y scale, then niced. */
  function TickScaleSpec(ticks: seq<real>, frame: PlotFrame): (s: LinearScaleSpec)
    ensures |ticks| > 0 ==> s.domain == Domain(ticks[0], ticks[|ticks| - 1])
    ensures |ticks| == 0 ==> s.domain == Domain(0.0, 0.0)
    ensures s.rangeStart == frame.origin.y && s.rangeEnd == frame.yAxisEnd.y && s.nice
  {
    var first := if |ticks| > 0 then ticks[0] else 0.0;
    var last := if |ticks| > 0 then ticks[|ticks| - 1] else 0.0;
    LinearScaleSpec(Domain(first, last), frame.origin.y, frame.yAxisEnd.y, true)
  }

  /** `ticks.map((tick) => ({ value: tick, y: scale(tick) }))` */
  function Ticks(ticks: seq<real>, tickScale: real -> real): (r: seq<Tick>)
    ensures |r| == |ticks|
    ensures forall i :: 0 <= i < |ticks| ==> r[i].value == ticks[i] && r[i].y == tickScale(ticks[i])
  {
    seq(|ticks|, i requires 0 <= i < |ticks| => Tick(ticks[i], tickScale(ticks[i])))
  }

  /** A label drawn at an anchor point. */
  datatype Label = Label(text: string, x: real, y: real)

  /** The tick labels: each tick's value printed at the start of the X axis,
      on the tick's row. */
  function TickLabels(ticks: seq<Tick>, frame: PlotFrame, numberText: real -> string): (r: seq<Label>)
    ensures |r| == |ticks|
    ensures forall i :: 0 <= i < |ticks| ==>
      r[i] == Label(numberText(ticks[i].value), frame.origin.x, ticks[i].y)
  {
    seq(|ticks|, i requires 0 <= i < |ticks| => Label(numberText(ticks[i].value), frame.origin.x, ticks[i].y))
  }

  /** The grid lines: one per tick, on the tick's row, across the plot from
      the Y axis to the end of the X axis. */
  function GridLines(ticks: seq<Tick>, frame: PlotFrame): (r: seq<Segment>)
    ensures |r| == |ticks|
    ensures forall i :: 0 <= i < |ticks| ==>
      r[i] == Segment(frame.origin.x, ticks[i].y, frame.xAxisEnd.x, ticks[i].y)
  {
    seq(|ticks|, i requires 0 <= i < |ticks| => Segment(frame.origin.x, ticks[i].y, frame.xAxisEnd.x, ticks[i].y))
  }

  /** The tick labels keep the scale's tick list: one label per tick, in
      order, printing tick `i` next to the Y axis on the row the tick scale
      gives it, and the grid line of tick `i` runs level across the plot on
      that same row. */
  lemma TickLabelsFollowTicks(ticks: seq<real>, tickScale: real -> real, frame: PlotFrame,
                              numberText: real -> string)
    ensures var rows := Ticks(ticks, tickScale);
      var labels := TickLabels(rows, frame, numberText);
      var grid := GridLines(rows, frame);
      && |labels| == |ticks| && |grid| == |ticks|
      && forall i :: 0 <= i < |ticks| ==>
           && labels[i] == Label(numberText(ticks[i]), frame.origin.x, tickScale(ticks[i]))
           && grid[i].y1 == grid[i].y2 == labels[i].y
           && grid[i].x1 == frame.origin.x && grid[i].x2 == frame.xAxisEnd.x
  {
  }

  /** A tick's row depends on its own value only: equal values share a row,
      whatever else is in the list. */
  lemma TickRowOnlyFromValue(ticks: seq<real>, other: seq<real>, tickScale: real -> real, i: nat, j: nat)
    requires i < |ticks| && j < |other| && ticks[i] == other[j]
    ensures Ticks(ticks, tickScale)[i].y == Ticks(other, tickScale)[j].y
  {
  }

  /** With increasing tick values and a scale that maps larger values higher
      up the canvas, the rows go strictly upwards. */
  lemma TicksRiseOnScreen(ticks: seq<real>, tickScale: real -> real)
    requires forall i, j :: 0 <= i < j < |ticks| ==> ticks[i] < ticks[j]
    requires forall a, b :: a < b ==> tickScale(a) > tickScale(b)
    ensures var r := Ticks(ticks, tickScale);
      forall i, j :: 0 <= i < j < |r| ==> r[i].y > r[j].y
  {
  }

  /** A plotted datum: its name and value with its pixel position. */
  datatype Point = Point(name: Name, value: real, x: real, y: real)

  datatype Segment = Segment(x1: real, y1: real, x2: real, y2: real)

  /** `points.slice(0, -1).map((point, i) => segment from point to points[i + 1])` */
  function Segments(points: seq<Point>): (r: seq<Segment>)
    ensures |r| == if |points| == 0 then 0 else |points| - 1
    ensures forall i :: 0 <= i < |r| ==>
      r[i] == Segment(points[i].x, points[i].y, points[i + 1].x, points[i + 1].y)
  {
    if |points| <= 1 then []
    else [Segment(points[0].x, points[0].y, points[1].x, points[1].y)] + Segments(points[1..])
  }

  /** Consecutive segments share an end point: the segments form one
      unbroken polyline. */
  lemma SegmentsChain(points: seq<Point>)
    ensures var r := Segments(points);
      forall i :: 0 <= i < |r| - 1 ==> r[i].x2 == r[i + 1].x1 && r[i].y2 == r[i + 1].y1
  {
  }

  /** The pixel positions of the points, in order. */
  function Coords(points: seq<Point>): (r: seq<Pos>)
    ensures |r| == |points|
    ensures forall i :: 0 <= i < |points| ==> r[i] == Pos(points[i].x, points[i].y)
  {
    seq(|points|, i requires 0 <= i < |points| => Pos(points[i].x, points[i].y))
  }

  /** The vertices a polyline passes through: the first segment's start, then
      every segment's end. */
  function Vertices(segments: seq<Segment>): (r: seq<Pos>)
    ensures |r| == if |segments| == 0 then 0 else |segments| + 1
  {
    if |segments| == 0 then []
    else [Pos(segments[0].x1, segments[0].y1)] + Ends(segments)
  }

  function Ends(segments: seq<Segment>): (r: seq<Pos>)
    ensures |r| == |segments|
    ensures forall i :: 0 <= i < |segments| ==> r[i] == Pos(segments[i].x2, segments[i].y2)
  {
    seq(|segments|, i requires 0 <= i < |segments| => Pos(segments[i].x2, segments[i].y2))
  }

  /** The segments pass through every point in order and through nothing
      else; a single point has no segments, so its polyline is empty. */
  lemma {:induction false} PolylineThroughPoints(points: seq<Point>)
    ensures |points| != 1 ==> Vertices(Segments(points)) == Coords(points)
    ensures |points| == 1 ==> Segments(points) == []
  {
    var segs := Segments(points);
    if |points| > 1 {
      var v := Vertices(segs);
      var c := Coords(points);
      assert v == [Pos(segs[0].x1, segs[0].y1)] + Ends(segs);
      forall i | 0 <= i < |c|
        ensures v[i] == c[i]
      {
        if i > 0 {
          assert v[i] == Ends(segs)[i - 1];
        }
      }
    }
  }

  /** A rectangle of a bar series: its datum, its top-left corner and size. */
  datatype Bar = Bar(name: Name, value: real, x: real, y: real, width: real, height: real)
}
