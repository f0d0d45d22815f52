/** The series legend's geometry (getSeriesPadding, getSeriesMargin, getSeriesTextMaxWidth,
    getLegendSizeW, getLegendSizeH and the positions drawSeriesLegend computes in
    AWTGraphRenderer.java). The legend lists every series of the graph, whatever its
    showInLegend flag says. */
module Legend {
  import opened Raster
  import opened Series

  /** getSeriesPadding: a third of the series-name line height. */
  function SeriesPadding(m: FontMetrics): real {
    m.height as real / 3.0
  }

  /** getSeriesMargin: two thirds of the series-name line height. */
  function SeriesMargin(m: FontMetrics): real {
    m.height as real * 2.0 / 3.0
  }

  /** The width of the preview line drawn before each name: two line heights. */
  function PreviewLineWidth(m: FontMetrics): real {
    m.height as real * 2.0
  }

  /** The measured width of series i's name. */
  function NameWidth(series: seq<SeriesData>, i: nat, m: FontMetrics): real
    requires i < |series|
  {
    m.stringWidth(series[i].name) as real
  }

  /** The running maximum of the name widths, starting from 0 and replaced only by a strictly
      larger width, as getSeriesTextMaxWidth keeps it. */
  function MaxNameWidth(series: seq<SeriesData>, m: FontMetrics): real
    decreases |series|
  {
    if |series| == 0 then 0.0
    else
      var n := |series| - 1;
      var acc := MaxNameWidth(series[..n], m);
      if acc < NameWidth(series, n, m) then NameWidth(series, n, m) else acc
  }

  /** The widest name bounds every name, and it is one of the names' widths (0 without
      series). */
  lemma {:induction false} MaxNameWidthIsMaximum(series: seq<SeriesData>, m: FontMetrics)
    ensures forall i | 0 <= i < |series| :: NameWidth(series, i, m) <= MaxNameWidth(series, m)
    ensures |series| == 0 ==> MaxNameWidth(series, m) == 0.0
    ensures |series| > 0 ==> exists i | 0 <= i < |series| :: MaxNameWidth(series, m) == NameWidth(series, i, m)
    decreases |series|
  {
    if |series| > 0 {
      var n := |series| - 1;
      var prefix := series[..n];
      MaxNameWidthIsMaximum(prefix, m);
      assert forall i | 0 <= i < n :: NameWidth(prefix, i, m) == NameWidth(series, i, m);
      if n > 0 {
        var k :| 0 <= k < n && MaxNameWidth(prefix, m) == NameWidth(prefix, k, m);
        assert NameWidth(prefix, k, m) == NameWidth(series, k, m);
      }
    }
  }

  /** getSeriesTextMaxWidth: the running maximum over the series names. */
  method SeriesTextMaxWidth(series: seq<SeriesData>, m: FontMetrics) returns (seriesTextMaxWidth: real)
    ensures seriesTextMaxWidth == MaxNameWidth(series, m)
    ensures forall i | 0 <= i < |series| :: NameWidth(series, i, m) <= seriesTextMaxWidth
    ensures |series| > 0 ==> exists i | 0 <= i < |series| :: seriesTextMaxWidth == NameWidth(series, i, m)
  {
    seriesTextMaxWidth := 0.0;
    for i := 0 to |series|
      invariant seriesTextMaxWidth == MaxNameWidth(series[..i], m)
    {
      assert series[..i + 1][..i] == series[..i];
      var seriesNameRasterWidth := m.stringWidth(series[i].name) as real;
      if seriesTextMaxWidth < seriesNameRasterWidth {
        seriesTextMaxWidth := seriesNameRasterWidth;
      }
    }
    assert series[..|series|] == series;
    MaxNameWidthIsMaximum(series, m);
  }

  /** getLegendSizeW: padding, widest name, padding, preview line, padding. With h the line
      height this is the widest name plus 3h. */
  function LegendSizeW(series: seq<SeriesData>, m: FontMetrics): (w: real)
    ensures w == MaxNameWidth(series, m) + 3.0 * m.height as real
    ensures forall i | 0 <= i < |series| ::
              3.0 * SeriesPadding(m) + PreviewLineWidth(m) + NameWidth(series, i, m) <= w
  {
    MaxNameWidthIsMaximum(series, m);
    var seriesPadding := SeriesPadding(m);
    seriesPadding + MaxNameWidth(series, m) + seriesPadding + PreviewLineWidth(m) + seriesPadding
  }

  /** getLegendSizeH: half a padding above and below, and one row of height h plus a padding
      per series; in closed form (4n + 1) * h / 3 for n series. */
  function LegendSizeH(seriesCount: nat, m: FontMetrics): (h: real)
    ensures h == (4 * seriesCount + 1) as real * m.height as real / 3.0
    ensures h >= SeriesPadding(m)
  {
    var seriesPadding := SeriesPadding(m);
    var singleSeriesHeight := m.height as real;
    seriesPadding / 2.0 + seriesCount as real * (seriesPadding / 2.0 + singleSeriesHeight + seriesPadding / 2.0)
      + seriesPadding / 2.0
  }

  /** The legend rectangle: anchored one margin inside the top-right corner of the plot. */
  datatype Rect = Rect(x: real, y: real, width: real, height: real)

  function LegendRect(graphOffset: RasterSize, graphSize: RasterSize, series: seq<SeriesData>, m: FontMetrics): Rect {
    var legendSizeW := LegendSizeW(series, m);
    Rect(graphOffset.width + graphSize.width - SeriesMargin(m) - legendSizeW,
         graphOffset.height + SeriesMargin(m),
         legendSizeW,
         LegendSizeH(|series|, m))
  }

  /** The top raster y of series i's row (currentOffsetY). */
  function RowTop(legend: Rect, i: nat, m: FontMetrics): real {
    var seriesPadding := SeriesPadding(m);
    legend.y + seriesPadding / 2.0 + i as real * (seriesPadding / 2.0 + m.height as real + seriesPadding / 2.0)
      + seriesPadding / 2.0
  }

  /** The x at which series i's preview line starts (lineOffsetX). */
  function LineStartX(legend: Rect, m: FontMetrics): real {
    legend.x + SeriesPadding(m)
  }

  /** The x at which series i's name starts (textOffsetX). */
  function TextStartX(legend: Rect, m: FontMetrics): real {
    LineStartX(legend, m) + PreviewLineWidth(m) + SeriesPadding(m)
  }

  /** The text baseline of series i (textOffsetY): one ascent below the row top. */
  function TextBaseline(legend: Rect, i: nat, m: FontMetrics): real {
    RowTop(legend, i, m) + m.ascent as real
  }

  /** Every row of the legend lies inside the legend rectangle: its line and its name
      horizontally, and the whole row height vertically, with half a padding or more to spare
      at the bottom. */
  lemma EntriesInsideLegend(graphOffset: RasterSize, graphSize: RasterSize, series: seq<SeriesData>,
                            m: FontMetrics, i: nat)
    requires i < |series|
    ensures var legend := LegendRect(graphOffset, graphSize, series, m);
      && legend.x <= LineStartX(legend, m)
      && TextStartX(legend, m) + NameWidth(series, i, m) <= legend.x + legend.width
      && legend.y <= RowTop(legend, i, m)
      && RowTop(legend, i, m) + m.height as real + SeriesPadding(m) / 2.0 <= legend.y + legend.height
  {
    var legend := LegendRect(graphOffset, graphSize, series, m);
    var h := m.height as real;
    var k := (|series| - 1 - i) as real;
    assert legend.y + legend.height - (RowTop(legend, i, m) + h) == k * (4.0 * h / 3.0) + h / 3.0;
  }

  /** Rows are stacked in series order, one padding apart: a row ends one padding above where
      the next one starts, so rows never overlap. */
  lemma RowsStacked(legend: Rect, m: FontMetrics, i: nat, j: nat)
    requires i < j
    ensures RowTop(legend, i, m) + m.height as real + SeriesPadding(m) <= RowTop(legend, j, m)
  {
    var row := SeriesPadding(m) / 2.0 + m.height as real + SeriesPadding(m) / 2.0;
    var k := (j - i) as real;
    assert RowTop(legend, j, m) - RowTop(legend, i, m) == j as real * row - i as real * row;
    assert j as real * row - i as real * row == k * row;
    assert (k - 1.0) * row >= 0.0;
  }

  /** When the plot is wide and tall enough for the legend plus its margin, the legend lies
      inside the plot, touching the top-right corner's margin. */
  lemma LegendInsidePlot(graphOffset: RasterSize, graphSize: RasterSize, series: seq<SeriesData>, m: FontMetrics)
    requires LegendSizeW(series, m) + SeriesMargin(m) <= graphSize.width
    requires LegendSizeH(|series|, m) + SeriesMargin(m) <= graphSize.height
    ensures var legend := LegendRect(graphOffset, graphSize, series, m);
      && graphOffset.width <= legend.x
      && legend.x + legend.width + SeriesMargin(m) == graphOffset.width + graphSize.width
      && legend.y == graphOffset.height + SeriesMargin(m)
      && legend.y + legend.height <= graphOffset.height + graphSize.height
  {
  }
}
