/** The data-to-raster transform of drawSeries, the dashed zero lines of renderGraph and the
    cyclic choice of a style per series (AWTGraphRenderer.java). */
module Transform {
  import opened Wrappers
  import opened Raster
  import opened Series
  import opened SeriesStyles
  import opened Bounds

  /** Neither axis of the data bounds is a single value, so the transform divides by a
      non-zero range. */
  predicate NonDegenerate(b: GraphBounds) {
    b.maxX - b.minX != 0.0 && b.maxY - b.minY != 0.0
  }

  /** rasterX: the data x scaled into [offset, offset + width]. */
  function RasterX(x: real, b: GraphBounds, graphOffset: RasterSize, graphSize: RasterSize): real
    requires b.maxX - b.minX != 0.0
  {
    graphOffset.width + ((x - b.minX) / (b.maxX - b.minX)) * graphSize.width
  }

  /** rasterY: the data y scaled into [offset, offset + height], flipped so that larger values
      sit higher (smaller raster y). */
  function RasterY(y: real, b: GraphBounds, graphOffset: RasterSize, graphSize: RasterSize): real
    requires b.maxY - b.minY != 0.0
  {
    graphOffset.height + graphSize.height - ((y - b.minY) / (b.maxY - b.minY)) * graphSize.height
  }

  function ToRaster(v: Vertex, b: GraphBounds, graphOffset: RasterSize, graphSize: RasterSize): Point
    requires NonDegenerate(b)
  {
    Point(RasterX(v.x, b, graphOffset, graphSize), RasterY(v.y, b, graphOffset, graphSize))
  }

  /** The inverse of rasterX, from a raster x back to data space (used only to state the
      round trip). */
  function DataX(px: real, b: GraphBounds, graphOffset: RasterSize, graphSize: RasterSize): real
    requires graphSize.width != 0.0
  {
    b.minX + (px - graphOffset.width) / graphSize.width * (b.maxX - b.minX)
  }

  /** The inverse of rasterY. */
  function DataY(py: real, b: GraphBounds, graphOffset: RasterSize, graphSize: RasterSize): real
    requires graphSize.height != 0.0
  {
    b.minY + (graphOffset.height + graphSize.height - py) / graphSize.height * (b.maxY - b.minY)
  }

  /** The inverse transform, from a raster point back to data space. */
  function FromRaster(p: Point, b: GraphBounds, graphOffset: RasterSize, graphSize: RasterSize): Vertex
    requires graphSize.width != 0.0 && graphSize.height != 0.0
  {
    Vertex(DataX(p.x, b, graphOffset, graphSize), DataY(p.y, b, graphOffset, graphSize))
  }

  /** The corner points of the data bounds land on the corners of the plot: (minX, minY) on the
      bottom-left, (maxX, maxY) on the top-right. */
  lemma RasterCorners(b: GraphBounds, graphOffset: RasterSize, graphSize: RasterSize)
    requires NonDegenerate(b)
    ensures ToRaster(Vertex(b.minX, b.minY), b, graphOffset, graphSize)
            == Point(graphOffset.width, graphOffset.height + graphSize.height)
    ensures ToRaster(Vertex(b.maxX, b.maxY), b, graphOffset, graphSize)
            == Point(graphOffset.width + graphSize.width, graphOffset.height)
  {
  }

  /** With increasing bounds and a plot of positive size, the transform keeps the order of x
      and reverses the order of y. */
  lemma RasterMonotone(b: GraphBounds, graphOffset: RasterSize, graphSize: RasterSize, v: Vertex, w: Vertex)
    requires b.minX < b.maxX && b.minY < b.maxY
    requires graphSize.width > 0.0 && graphSize.height > 0.0
    ensures v.x < w.x ==> RasterX(v.x, b, graphOffset, graphSize) < RasterX(w.x, b, graphOffset, graphSize)
    ensures v.y < w.y ==> RasterY(v.y, b, graphOffset, graphSize) > RasterY(w.y, b, graphOffset, graphSize)
  {
    var dx, dy := b.maxX - b.minX, b.maxY - b.minY;
    if v.x < w.x {
      assert (v.x - b.minX) / dx < (w.x - b.minX) / dx;
      assert ((v.x - b.minX) / dx) * graphSize.width < ((w.x - b.minX) / dx) * graphSize.width;
    }
    if v.y < w.y {
      assert (v.y - b.minY) / dy < (w.y - b.minY) / dy;
      assert ((v.y - b.minY) / dy) * graphSize.height < ((w.y - b.minY) / dy) * graphSize.height;
    }
  }

  /** A part of a positive range, divided by the range and scaled by a size, stays in
      [0, size]. */
  lemma ScaledFraction(a: real, d: real, size: real, r: real)
    requires 0.0 <= a <= d && d > 0.0 && size >= 0.0
    requires r == (a / d) * size
    ensures 0.0 <= r <= size
  {
    var t := a / d;
    assert t * d == a;
    assert t <= 1.0;
    assert t * size <= 1.0 * size;
  }

  /** Every vertex inside the data bounds is drawn inside the plot rectangle. */
  lemma VertexInsidePlot(b: GraphBounds, graphOffset: RasterSize, graphSize: RasterSize, v: Vertex)
    requires b.minX < b.maxX && b.minY < b.maxY
    requires graphSize.width >= 0.0 && graphSize.height >= 0.0
    requires Contains(b, v.x, v.y)
    ensures var p := ToRaster(v, b, graphOffset, graphSize);
      && graphOffset.width <= p.x <= graphOffset.width + graphSize.width
      && graphOffset.height <= p.y <= graphOffset.height + graphSize.height
  {
    ScaledFraction(v.x - b.minX, b.maxX - b.minX, graphSize.width,
                   RasterX(v.x, b, graphOffset, graphSize) - graphOffset.width);
    ScaledFraction(v.y - b.minY, b.maxY - b.minY, graphSize.height,
                   graphOffset.height + graphSize.height - RasterY(v.y, b, graphOffset, graphSize));
  }

  /** Scaling a part of one range into another range and back returns the part: if r is a
      scaled by w / d, then r scaled by d / w is a again. */
  lemma RescaleBack(a: real, d: real, w: real, r: real)
    requires d != 0.0 && w != 0.0
    requires r == (a / d) * w
    ensures r / w * d == a
  {
    var t := a / d;
    assert t * d == a;
    assert r / w == t;
  }

  /** rasterX and its inverse undo each other. */
  lemma XInverse(x: real, px: real, b: GraphBounds, graphOffset: RasterSize, graphSize: RasterSize)
    requires b.maxX - b.minX != 0.0 && graphSize.width != 0.0
    ensures DataX(RasterX(x, b, graphOffset, graphSize), b, graphOffset, graphSize) == x
    ensures RasterX(DataX(px, b, graphOffset, graphSize), b, graphOffset, graphSize) == px
  {
    RescaleBack(x - b.minX, b.maxX - b.minX, graphSize.width,
                RasterX(x, b, graphOffset, graphSize) - graphOffset.width);
    RescaleBack(px - graphOffset.width, graphSize.width, b.maxX - b.minX,
                DataX(px, b, graphOffset, graphSize) - b.minX);
  }

  /** rasterY and its inverse undo each other. */
  lemma YInverse(y: real, py: real, b: GraphBounds, graphOffset: RasterSize, graphSize: RasterSize)
    requires b.maxY - b.minY != 0.0 && graphSize.height != 0.0
    ensures DataY(RasterY(y, b, graphOffset, graphSize), b, graphOffset, graphSize) == y
    ensures RasterY(DataY(py, b, graphOffset, graphSize), b, graphOffset, graphSize) == py
  {
    RescaleBack(y - b.minY, b.maxY - b.minY, graphSize.height,
                graphOffset.height + graphSize.height - RasterY(y, b, graphOffset, graphSize));
    RescaleBack(graphOffset.height + graphSize.height - py, graphSize.height, b.maxY - b.minY,
                DataY(py, b, graphOffset, graphSize) - b.minY);
  }

  /** The transform is invertible on a plot of non-zero size: going to raster space and back
      returns the vertex, and going from raster space to data and back returns the point. */
  lemma RasterRoundTrip(b: GraphBounds, graphOffset: RasterSize, graphSize: RasterSize, v: Vertex, p: Point)
    requires NonDegenerate(b)
    requires graphSize.width != 0.0 && graphSize.height != 0.0
    ensures FromRaster(ToRaster(v, b, graphOffset, graphSize), b, graphOffset, graphSize) == v
    ensures ToRaster(FromRaster(p, b, graphOffset, graphSize), b, graphOffset, graphSize) == p
  {
    XInverse(v.x, p.x, b, graphOffset, graphSize);
    YInverse(v.y, p.y, b, graphOffset, graphSize);
  }

  /** drawSeries: every vertex of the series mapped into raster space, in series order. */
  method ProjectVertices(vertices: seq<Vertex>, b: GraphBounds, graphOffset: RasterSize, graphSize: RasterSize)
    returns (points: array<Point>)
    requires NonDegenerate(b)
    ensures fresh(points)
    ensures points.Length == |vertices|
    ensures forall i | 0 <= i < |vertices| :: points[i] == ToRaster(vertices[i], b, graphOffset, graphSize)
  {
    points := new Point[|vertices|];
    var i := 0;
    while i < |vertices|
      invariant 0 <= i <= |vertices|
      invariant forall j | 0 <= j < i :: points[j] == ToRaster(vertices[j], b, graphOffset, graphSize)
    {
      var vertex := vertices[i];
      var rasterX := graphOffset.width + ((vertex.x - b.minX) / (b.maxX - b.minX)) * graphSize.width;
      var rasterY := graphOffset.height + graphSize.height
                     - ((vertex.y - b.minY) / (b.maxY - b.minY)) * graphSize.height;
      points[i] := Point(rasterX, rasterY);
      i := i + 1;
    }
  }

  /** The dashed zero line of an axis is drawn only when the data range lies strictly on both
      sides of zero, in either orientation. */
  function StraddlesZero(lo: real, hi: real): (r: bool)
    ensures r <==> lo * hi < 0.0
  {
    assert lo * hi < 0.0 <==> (lo < 0.0 && hi > 0.0) || (lo > 0.0 && hi < 0.0) by {
      if lo < 0.0 && hi > 0.0 { assert lo * hi < 0.0 * hi; }
      if lo > 0.0 && hi < 0.0 { assert lo * hi < lo * 0.0; }
      if lo <= 0.0 && hi <= 0.0 { assert lo * hi >= 0.0 * hi; }
      if lo >= 0.0 && hi >= 0.0 { assert lo * hi >= 0.0 * hi; }
    }
    (lo < 0.0 && hi > 0.0) || (lo > 0.0 && hi < 0.0)
  }

  /** rasterZeroY (and rasterMinY, the baseline the area fill closes on): where y = 0 lands. */
  function ZeroLineY(b: GraphBounds, graphOffset: RasterSize, graphSize: RasterSize): real
    requires b.maxY - b.minY != 0.0
  {
    graphOffset.height + graphSize.height - ((-b.minY) / (b.maxY - b.minY)) * graphSize.height
  }

  /** rasterZeroX: where x = 0 lands. */
  function ZeroLineX(b: GraphBounds, graphOffset: RasterSize, graphSize: RasterSize): real
    requires b.maxX - b.minX != 0.0
  {
    graphOffset.width + ((-b.minX) / (b.maxX - b.minX)) * graphSize.width
  }

  /** The zero lines are the images of 0 under the data transform, and when an increasing
      range straddles zero on a plot of positive size they lie strictly inside the plot. */
  lemma ZeroLinesInsidePlot(b: GraphBounds, graphOffset: RasterSize, graphSize: RasterSize)
    requires b.minX < b.maxX && b.minY < b.maxY
    ensures ZeroLineX(b, graphOffset, graphSize) == RasterX(0.0, b, graphOffset, graphSize)
    ensures ZeroLineY(b, graphOffset, graphSize) == RasterY(0.0, b, graphOffset, graphSize)
    ensures StraddlesZero(b.minX, b.maxX) && graphSize.width > 0.0 ==>
              graphOffset.width < ZeroLineX(b, graphOffset, graphSize) < graphOffset.width + graphSize.width
    ensures StraddlesZero(b.minY, b.maxY) && graphSize.height > 0.0 ==>
              graphOffset.height < ZeroLineY(b, graphOffset, graphSize) < graphOffset.height + graphSize.height
  {
    if StraddlesZero(b.minX, b.maxX) && graphSize.width > 0.0 {
      StrictFraction(-b.minX, b.maxX - b.minX, graphSize.width,
                     ZeroLineX(b, graphOffset, graphSize) - graphOffset.width);
    }
    if StraddlesZero(b.minY, b.maxY) && graphSize.height > 0.0 {
      StrictFraction(-b.minY, b.maxY - b.minY, graphSize.height,
                     graphOffset.height + graphSize.height - ZeroLineY(b, graphOffset, graphSize));
    }
  }

  /** A part strictly inside a positive range, divided by the range and scaled by a positive
      size, lies strictly inside (0, size). */
  lemma StrictFraction(a: real, d: real, size: real, r: real)
    requires 0.0 < a < d && size > 0.0
    requires r == (a / d) * size
    ensures 0.0 < r < size
  {
    var t := a / d;
    assert t * d == a;
    assert d / d == 1.0;
    assert a / d < d / d;
    assert t * size < 1.0 * size;
  }

  /** The style of the series at position i: the styles are used cyclically, series i taking
      style i when there are enough styles and the style of series i - |styles| otherwise. An
      empty style list is an error. */
  function StyleAt(styles: seq<SeriesStyle>, i: nat): (r: Result<SeriesStyle, Failure>)
    ensures r.Err? <==> |styles| == 0
    ensures r.Err? ==> r.error == IllegalArgument("No styles found")
    ensures r.Ok? ==> r.value in styles
    ensures i < |styles| ==> r == Ok(styles[i])
    ensures i >= |styles| > 0 ==> r == StyleAt(styles, i - |styles|)
    decreases i
  {
    if |styles| == 0 then Err(IllegalArgument("No styles found"))
    else if i < |styles| then Ok(styles[i])
    else StyleAt(styles, i - |styles|)
  }

  /** The cyclic choice is the source's styles.get(i % styles.size()). */
  lemma {:induction false} StyleAtModulo(styles: seq<SeriesStyle>, i: nat)
    requires |styles| > 0
    ensures StyleAt(styles, i) == Ok(styles[i % |styles|])
    decreases i
  {
    var n := |styles|;
    if i >= n {
      StyleAtModulo(styles, i - n);
      ModShift(i - n, n);
    }
  }

  /** Adding the modulus does not change the remainder. */
  lemma ModShift(k: nat, n: nat)
    requires n > 0
    ensures (k + n) % n == k % n
  {
    var q, r := k / n, k % n;
    var q', r' := (k + n) / n, (k + n) % n;
    var x := q' - q - 1;
    assert x * n == r - r' by {
      assert k == q * n + r;
      assert k + n == q' * n + r';
      assert x * n == q' * n - q * n - n;
    }
  }

  /** The loop of renderGraph (and of drawSeriesLegend) that picks a style per series: it
      fails only when there is at least one series and no style; otherwise series i gets
      style i modulo the number of styles. */
  method AssignStyles(series: seq<SeriesData>, styles: seq<SeriesStyle>)
    returns (r: Result<seq<SeriesStyle>, Failure>)
    ensures r.Err? <==> |series| > 0 && |styles| == 0
    ensures r.Err? ==> r.error == IllegalArgument("No styles found")
    ensures r.Ok? ==> |r.value| == |series|
    ensures r.Ok? ==> forall i | 0 <= i < |series| :: StyleAt(styles, i) == Ok(r.value[i])
  {
    var chosen: seq<SeriesStyle> := [];
    var i := 0;
    while i < |series|
      invariant 0 <= i <= |series| && |chosen| == i
      invariant i > 0 ==> |styles| > 0
      invariant forall j | 0 <= j < i :: StyleAt(styles, j) == Ok(chosen[j])
    {
      var seriesStyleSize := |styles|;
      if |styles| == 0 {
        return Err(IllegalArgument("No styles found"));
      }
      var style := styles[i % seriesStyleSize];
      StyleAtModulo(styles, i);
      chosen := chosen + [style];
      i := i + 1;
    }
    return Ok(chosen);
  }
}
