/**
 The three overlaid series of the chart (static/script.js:65-91), as the
 pixel coordinates d3's area and line generators are given: one point per
 sample, all sharing the x position of the sample's date; the band takes
 `lower`/`upper`, the trend `sma` and the price `close`. Layers are listed
 back to front, so the price line is drawn last and sits on top.
 */
module Geometry {
  import opened Common
  import opened Scales

  datatype Point = Point(x: real, y: real)

  /** One column of the filled band: baseline `y0` (from `lower`) and topline `y1` (from `upper`). */
  datatype AreaPoint = AreaPoint(x: real, y0: real, y1: real)

  datatype Stroke = Stroke(color: string, width: real, dashes: string)

  datatype Path =
    | Area(fill: string, columns: seq<AreaPoint>)
    | Line(stroke: Stroke, points: seq<Point>)

  /** The band is a low-opacity red fill without stroke. */
  const BandFill: string := "rgba(229, 9, 20, 0.1)"
  /** The trend is a thin dashed grey line. */
  const TrendStroke: Stroke := Stroke("#666", 1.5, "4,4")
  /** The price is the heavier solid red line. */
  const PriceStroke: Stroke := Stroke("#E50914", 2.5, "")

  /** The sample field a line is drawn through. */
  datatype Field = Close | Sma

  function FieldOf(d: Sample, f: Field): real {
    match f
    case Close => d.close
    case Sma => d.sma
  }

  function BandColumns(data: seq<Sample>, x: Linear, y: Linear): (r: seq<AreaPoint>)
    ensures |r| == |data|
    ensures forall i :: 0 <= i < |data| ==>
      r[i] == AreaPoint(x.Apply(data[i].date as real), y.Apply(data[i].lower), y.Apply(data[i].upper))
  {
    seq(|data|, i requires 0 <= i < |data| =>
      AreaPoint(x.Apply(data[i].date as real), y.Apply(data[i].lower), y.Apply(data[i].upper)))
  }

  function LinePoints(data: seq<Sample>, x: Linear, y: Linear, f: Field): (r: seq<Point>)
    ensures |r| == |data|
    ensures forall i :: 0 <= i < |data| ==> r[i] == Point(x.Apply(data[i].date as real), y.Apply(FieldOf(data[i], f)))
  {
    seq(|data|, i requires 0 <= i < |data| => Point(x.Apply(data[i].date as real), y.Apply(FieldOf(data[i], f))))
  }

  datatype Chart = Chart(x: Linear, y: Linear, layers: seq<Path>)

  /**
   The drawing of one non-empty dataset: scales from the data, then the band,
   the trend and the price, each touching every sample once at the sample's
   x position.
   */
  function Render(data: seq<Sample>): (c: Chart)
    requires |data| > 0
    ensures c.x == XScale(data) && c.y == YScale(data)
    ensures |c.layers| == 3
    ensures c.layers[0].Area? && c.layers[0].fill == BandFill
    ensures c.layers[1].Line? && c.layers[1].stroke == TrendStroke
    ensures c.layers[2].Line? && c.layers[2].stroke == PriceStroke
    ensures |c.layers[0].columns| == |c.layers[1].points| == |c.layers[2].points| == |data|
    ensures forall i :: 0 <= i < |data| ==>
      var px := c.x.Apply(data[i].date as real);
      && c.layers[0].columns[i] == AreaPoint(px, c.y.Apply(data[i].lower), c.y.Apply(data[i].upper))
      && c.layers[1].points[i] == Point(px, c.y.Apply(data[i].sma))
      && c.layers[2].points[i] == Point(px, c.y.Apply(data[i].close))
  {
    var x := XScale(data);
    var y := YScale(data);
    Chart(x, y, [
      Area(BandFill, BandColumns(data, x, y)),
      Line(TrendStroke, LinePoints(data, x, y, Sma)),
      Line(PriceStroke, LinePoints(data, x, y, Close))
    ])
  }

  /**
   For ascending data of at least two samples, every series runs from the
   left edge to the right edge of the plot with strictly increasing x.
   */
  lemma SeriesSpanPlot(data: seq<Sample>)
    requires |data| >= 2 && Ascending(data)
    ensures var c := Render(data); var n := |data|;
      && c.layers[0].columns[0].x == c.layers[1].points[0].x == c.layers[2].points[0].x == 0.0
      && c.layers[0].columns[n - 1].x == c.layers[1].points[n - 1].x == c.layers[2].points[n - 1].x == Width
    ensures forall i, j :: 0 <= i < j < |data| ==>
      && Render(data).layers[0].columns[i].x < Render(data).layers[0].columns[j].x
      && Render(data).layers[1].points[i].x < Render(data).layers[1].points[j].x
      && Render(data).layers[2].points[i].x < Render(data).layers[2].points[j].x
  {
    var c := Render(data);
    var n := |data|;
    XEdges(data);
    forall i, j | 0 <= i < j < n
      ensures c.layers[0].columns[i].x < c.layers[0].columns[j].x
      ensures c.layers[1].points[i].x < c.layers[1].points[j].x
      ensures c.layers[2].points[i].x < c.layers[2].points[j].x
    {
      ApplyMonotone(c.x, data[i].date as real, data[j].date as real);
    }
  }

  /**
   Where a sample's close lies inside its band and all band bounds are
   positive, the price point is drawn between the band's topline and
   baseline (pixel y grows downwards), inside the plot; the same holds of the
   trend point when the trend lies inside the band.
   */
  lemma PriceInsideBand(data: seq<Sample>, i: int)
    requires |data| > 0 && PositiveBands(data) && 0 <= i < |data|
    requires data[i].lower <= data[i].close <= data[i].upper
    ensures var c := Render(data);
      && 0.0 < c.layers[0].columns[i].y1 <= c.layers[2].points[i].y <= c.layers[0].columns[i].y0 < Height
    ensures data[i].lower <= data[i].sma <= data[i].upper ==>
      var c := Render(data);
      c.layers[0].columns[i].y1 <= c.layers[1].points[i].y <= c.layers[0].columns[i].y0
  {
    var c := Render(data);
    var y := c.y;
    var d := data[i];
    assert y == YScale(data);
    BandInsidePlot(data, i);
    PositiveBandsBounds(data);
    YDomainProper(data);
    assert c.layers[0].columns[i].y0 == y.Apply(d.lower);
    assert c.layers[0].columns[i].y1 == y.Apply(d.upper);
    assert c.layers[1].points[i].y == y.Apply(d.sma);
    assert c.layers[2].points[i].y == y.Apply(d.close);
    Between(y, d.lower, d.close, d.upper);
    if d.lower <= d.sma <= d.upper {
      Between(y, d.lower, d.sma, d.upper);
    }
  }

  /** On the inverted price scale a value between two others is drawn between their pixels. */
  lemma Between(y: Linear, lo: real, v: real, hi: real)
    requires y.d0 < y.d1 && y.r0 > y.r1 && lo <= v <= hi
    ensures y.Apply(hi) <= y.Apply(v) <= y.Apply(lo)
  {
    if lo < v {
      ApplyMonotone(y, lo, v);
    }
    if v < hi {
      ApplyMonotone(y, v, hi);
    }
  }
}
