/** The layout arithmetic of renderGraph (AWTGraphRenderer.java): the bands reserved around
    the plot, the plot rectangle, the anchors of rulers, value labels and axis names, the
    decision to draw at all, and what is drawn inside the plot. */
module Layout {
  import opened Wrappers
  import opened AxisModes
  import opened Raster
  import opened Series
  import opened SeriesStyles
  import opened Bounds
  import opened Labels
  import opened Legend
  import opened Transform

  /** The rectangle renderGraph draws into. The source passes it as a GraphBounds but reads its
      width() and height(), so it is modelled by its top-left corner and its size. */
  datatype Canvas = Canvas(minX: real, minY: real, width: real, height: real)

  /** What renderGraph reads from an axis style: its title, whether the title is shown, the
      axis mode and the value formatter. */
  datatype AxisStyle = AxisStyle(title: string, showName: bool, mode: AxisMode, valueFormat: real -> string)

  /** What renderGraph reads from the graph style. */
  datatype Style = Style(x: AxisStyle, y: AxisStyle, seriesStyles: seq<SeriesStyle>, showLegend: bool,
                         paddingMultiplier: real)

  /** The four font roles; the series-name metrics are the ones left after the legend font has
      been chosen. */
  datatype Fonts = Fonts(default: FontMetrics, values: FontMetrics, axisName: FontMetrics, seriesName: FontMetrics)

  /** The space reserved around the plot, band by band. */
  datatype Bands = Bands(padding: real, halfMaxXLabelWidth: real, halfMaxYLabelHeight: real,
                         topPadding: real, leftPadding: real, rightPadding: real, bottomPadding: real,
                         xValueLineLength: real, yValueLineLength: real, xValuesHeight: real,
                         xValuesToXAxisNamePadding: real, xAxisNameHeight: real,
                         yAxisNameWidth: real, yValuesToYAxisNamePadding: real)

  /** The band sizes of renderGraph. The half width of the widest x label measures maxX as
      formatted by the y axis's formatter, and the gaps between values and axis names are half
      the values line height in integer division. */
  function ComputeBands(style: Style, fonts: Fonts, maxX: real): Bands {
    var x, y := style.x, style.y;
    var valuesHeight := fonts.values.height as real;
    var padding := fonts.default.height as real * style.paddingMultiplier;
    var halfMaxXLabelWidth :=
      if x.mode.ShowLabels() then fonts.values.stringWidth(y.valueFormat(maxX)) as real / 2.0 else 0.0;
    var halfMaxYLabelHeight := if y.mode.ShowLabels() then valuesHeight / 2.0 else 0.0;
    Bands(padding, halfMaxXLabelWidth, halfMaxYLabelHeight,
          padding + halfMaxYLabelHeight,
          padding + (if y.mode == Hide && !y.showName then halfMaxXLabelWidth else 0.0),
          padding + (if x.mode.ShowLabels() then halfMaxXLabelWidth else 0.0),
          padding + (if x.mode == Hide && !x.showName then halfMaxYLabelHeight else 0.0),
          if x.mode.ShowRuler() then valuesHeight else 0.0,
          if y.mode.ShowRuler() then valuesHeight else 0.0,
          if x.mode.ShowLabels() then valuesHeight else 0.0,
          if x.showName then (fonts.values.height / 2) as real else 0.0,
          if x.showName then fonts.axisName.height as real else 0.0,
          if y.showName then fonts.axisName.height as real else 0.0,
          if y.showName then (fonts.values.height / 2) as real else 0.0)
  }

  predicate NonNegativeBands(b: Bands) {
    && b.topPadding >= 0.0 && b.leftPadding >= 0.0 && b.rightPadding >= 0.0 && b.bottomPadding >= 0.0
    && b.xValueLineLength >= 0.0 && b.yValueLineLength >= 0.0 && b.xValuesHeight >= 0.0
    && b.xValuesToXAxisNamePadding >= 0.0 && b.xAxisNameHeight >= 0.0
    && b.yAxisNameWidth >= 0.0 && b.yValuesToYAxisNamePadding >= 0.0
  }

  /** Each band follows its axis's settings: a band is reserved exactly when the element it
      holds is shown, and no band is negative unless the padding multiplier is. */
  lemma BandsFollowSettings(style: Style, fonts: Fonts, maxX: real)
    ensures var b := ComputeBands(style, fonts, maxX);
      && (style.paddingMultiplier >= 0.0 ==> NonNegativeBands(b))
      && (!style.x.mode.ShowRuler() ==> b.xValueLineLength == 0.0)
      && (!style.y.mode.ShowRuler() ==> b.yValueLineLength == 0.0)
      && (!style.x.mode.ShowLabels() ==> b.xValuesHeight == 0.0 && b.rightPadding == b.padding)
      && (!style.y.mode.ShowLabels() ==> b.topPadding == b.padding)
      && (!style.x.showName ==> b.xAxisNameHeight == 0.0 && b.xValuesToXAxisNamePadding == 0.0)
      && (!style.y.showName ==> b.yAxisNameWidth == 0.0 && b.yValuesToYAxisNamePadding == 0.0)
      && (style.x.mode == Hide && !style.x.showName ==> b.bottomPadding == b.topPadding)
  {
  }

  /** The gap between values and axis name is half the values line height rounded down (Java's
      integer division): a whole number of pixels, within one pixel below the exact half, so a
      height of 15 gives 7, not 7.5. */
  lemma NameGapTruncates(style: Style, fonts: Fonts, maxX: real)
    ensures var b := ComputeBands(style, fonts, maxX);
      var h := fonts.values.height as real;
      && (style.x.showName ==> && b.xValuesToXAxisNamePadding.Floor as real == b.xValuesToXAxisNamePadding
                                && h - 1.0 <= 2.0 * b.xValuesToXAxisNamePadding <= h)
      && (style.y.showName ==> && b.yValuesToYAxisNamePadding.Floor as real == b.yValuesToYAxisNamePadding
                                && h - 1.0 <= 2.0 * b.yValuesToYAxisNamePadding <= h)
  {
    var v := fonts.values.height;
    assert 2 * (v / 2) <= v <= 2 * (v / 2) + 1;
  }

  /** graphHeight: the canvas height minus every vertical band. */
  function GraphHeight(canvas: Canvas, b: Bands): real {
    canvas.height - b.topPadding - b.xValueLineLength - b.xValuesHeight - b.xValuesToXAxisNamePadding
      - b.xAxisNameHeight - b.bottomPadding
  }

  /** graphWidth: the canvas width minus every horizontal band, the y value column included. */
  function GraphWidth(canvas: Canvas, b: Bands, yValuesWidth: real): real {
    canvas.width - b.leftPadding - b.yAxisNameWidth - b.yValuesToYAxisNamePadding - yValuesWidth
      - b.yValueLineLength - b.rightPadding
  }

  /** The anchors renderGraph computes once the y value column is measured. */
  datatype Frame = Frame(graphOffset: RasterSize, graphSize: RasterSize,
                         xValueLineOffset: real, yValueLineOffset: real,
                         yValuesOffset: RasterSize, xValuesOffset: RasterSize,
                         yAxisNameCenterOffset: RasterSize, xAxisNameCenterOffset: RasterSize)

  function FrameOf(canvas: Canvas, b: Bands, yValuesWidth: real, fonts: Fonts): Frame {
    var graphHeight := GraphHeight(canvas, b);
    var graphWidth := GraphWidth(canvas, b, yValuesWidth);
    var valuesHeight := fonts.values.height as real;
    var xValueLineOffset := canvas.minY + b.topPadding + graphHeight;
    var graphOffset := RasterSize(canvas.minX + b.leftPadding + b.yAxisNameWidth + b.yValuesToYAxisNamePadding
                                  + yValuesWidth + b.yValueLineLength,
                                  canvas.minY + b.topPadding);
    Frame(graphOffset,
          RasterSize(graphWidth, graphHeight),
          xValueLineOffset,
          canvas.minX + b.leftPadding + b.yAxisNameWidth + b.yValuesToYAxisNamePadding + yValuesWidth,
          RasterSize(canvas.minX + b.leftPadding + b.yAxisNameWidth + b.yValuesToYAxisNamePadding,
                     canvas.minY + b.topPadding),
          RasterSize(graphOffset.width, xValueLineOffset + b.xValueLineLength),
          RasterSize(canvas.minX + b.leftPadding + valuesHeight / 2.0,
                     canvas.minY + valuesHeight + graphHeight / 2.0 + b.topPadding),
          RasterSize(graphOffset.width + graphWidth / 2.0,
                     canvas.minY + b.topPadding + graphHeight + b.xValueLineLength + b.xValuesHeight
                     + b.xValuesToXAxisNamePadding + fonts.axisName.height as real / 2.0))
  }

  /** The bands and the plot tile the canvas exactly: from the top-left corner, the left and top
      bands, the plot, and the right and bottom bands add up to the canvas size. When the bands
      are not negative and the plot is drawn (neither size negative) the plot lies inside the
      canvas. */
  lemma PlotInsideCanvas(canvas: Canvas, b: Bands, yValuesWidth: real, fonts: Fonts)
    ensures var f := FrameOf(canvas, b, yValuesWidth, fonts);
      && f.graphOffset.width + f.graphSize.width + b.rightPadding == canvas.minX + canvas.width
      && f.graphOffset.height + f.graphSize.height + b.xValueLineLength + b.xValuesHeight
         + b.xValuesToXAxisNamePadding + b.xAxisNameHeight + b.bottomPadding == canvas.minY + canvas.height
    ensures var f := FrameOf(canvas, b, yValuesWidth, fonts);
      NonNegativeBands(b) && yValuesWidth >= 0.0 && f.graphSize.width >= 0.0 && f.graphSize.height >= 0.0 ==>
        && canvas.minX <= f.graphOffset.width
        && f.graphOffset.width + f.graphSize.width <= canvas.minX + canvas.width
        && canvas.minY <= f.graphOffset.height
        && f.graphOffset.height + f.graphSize.height <= canvas.minY + canvas.height
  {
  }

  /** The rulers and value labels hug the plot: the x ruler starts on the plot's bottom edge and
      the x values just below it, both from the plot's left edge; the y ruler ends on the plot's
      left edge and starts where the y value column ends; the y values start level with the
      plot's top. */
  lemma RulersTouchPlot(canvas: Canvas, b: Bands, yValuesWidth: real, fonts: Fonts)
    ensures var f := FrameOf(canvas, b, yValuesWidth, fonts);
      && f.xValueLineOffset == f.graphOffset.height + f.graphSize.height
      && f.xValuesOffset == RasterSize(f.graphOffset.width, f.xValueLineOffset + b.xValueLineLength)
      && f.yValueLineOffset + b.yValueLineLength == f.graphOffset.width
      && f.yValuesOffset.width + yValuesWidth == f.yValueLineOffset
      && f.yValuesOffset.height == f.graphOffset.height
  {
  }

  /** The x axis name is centred horizontally on the plot, and vertically in its own band below
      the values. The y axis name is not centred on the plot: its anchor sits one values line
      height below the plot's middle, half a values line height right of the left padding. */
  lemma AxisNameAnchors(canvas: Canvas, b: Bands, yValuesWidth: real, fonts: Fonts)
    ensures var f := FrameOf(canvas, b, yValuesWidth, fonts);
      && f.xAxisNameCenterOffset.width == f.graphOffset.width + f.graphSize.width / 2.0
      && f.xAxisNameCenterOffset.height - fonts.axisName.height as real / 2.0
         == f.xValuesOffset.height + b.xValuesHeight + b.xValuesToXAxisNamePadding
      && f.yAxisNameCenterOffset.height
         == f.graphOffset.height + f.graphSize.height / 2.0 + fonts.values.height as real
      && f.yAxisNameCenterOffset.width == canvas.minX + b.leftPadding + fonts.values.height as real / 2.0
  {
  }

  /** Tick k, k spacings above the range's minimum, scaled into a raster length, lies k tick
      steps (length / (range / spacing)) from the start. */
  lemma ScaledTick(k: real, spacing: real, d: real, length: real, a: real)
    requires d > 0.0 && spacing > 0.0
    requires a == k * spacing
    ensures (a / d) * length == k * (length / (d / spacing))
  {
    var q := d / spacing;
    assert q * spacing == d;
    assert length / q * d == length * spacing by {
      assert length / q * q == length;
    }
  }

  /** The drawn y ticks land on the data: tick i, placed at yValuesOffset + its raster offset,
      is exactly where the data transform puts its value. */
  lemma YTicksOnData(labels: seq<LabelWithOffset>, data: GraphBounds, graphOffset: RasterSize, graphSize: RasterSize,
                     tickSpacing: real)
    requires data.minY < data.maxY && tickSpacing > 0.0
    requires TickValues(labels, data.minY, data.maxY, tickSpacing)
    requires YOffsets(labels, graphSize.height, TickStep(graphSize.height, data.minY, data.maxY, tickSpacing))
    ensures forall i | 0 <= i < |labels| ::
              graphOffset.height + labels[i].rasterOffset == RasterY(labels[i].value, data, graphOffset, graphSize)
  {
    var d := data.maxY - data.minY;
    var h := graphSize.height;
    forall i | 0 <= i < |labels|
      ensures graphOffset.height + labels[i].rasterOffset == RasterY(labels[i].value, data, graphOffset, graphSize)
    {
      ScaledTick(i as real, tickSpacing, d, h, labels[i].value - data.minY);
    }
  }

  /** The drawn x ticks land on the data from the second tick on. The first tick is drawn
      labelsAreaOffset further right than its value's position, so it lands on the data only
      when that offset (the canvas's minX in renderGraph) is 0. */
  lemma XTicksOnData(labels: seq<LabelWithOffset>, data: GraphBounds, graphOffset: RasterSize, graphSize: RasterSize,
                     tickSpacing: real, labelsAreaOffset: real)
    requires data.minX < data.maxX && tickSpacing > 0.0
    requires TickValues(labels, data.minX, data.maxX, tickSpacing)
    requires XOffsets(labels, labelsAreaOffset, TickStep(graphSize.width, data.minX, data.maxX, tickSpacing))
    ensures forall i | 1 <= i < |labels| ::
              graphOffset.width + labels[i].rasterOffset == RasterX(labels[i].value, data, graphOffset, graphSize)
    ensures |labels| > 0 ==>
              graphOffset.width + labels[0].rasterOffset
              == RasterX(labels[0].value, data, graphOffset, graphSize) + labelsAreaOffset
  {
    var d := data.maxX - data.minX;
    var w := graphSize.width;
    forall i | 1 <= i < |labels|
      ensures graphOffset.width + labels[i].rasterOffset == RasterX(labels[i].value, data, graphOffset, graphSize)
    {
      ScaledTick(i as real, tickSpacing, d, w, labels[i].value - data.minX);
    }
  }

  /** What renderGraph measures and places before it decides whether to draw. */
  datatype Axes = Axes(bands: Bands, yLabels: seq<LabelWithOffset>, yLabelsAreaSize: RasterSize,
                       xLabels: seq<LabelWithOffset>, frame: Frame)

  /** The placement renderGraph computes: the bands of the style, the y labels walked over the
      plot height, the y value column measured on them, the plot width left over, the x labels
      walked over that width from the canvas's minX, and the frame anchored on it all. */
  ghost predicate AxesPlaced(axes: Axes, xAccepted: seq<bool>, yAccepted: seq<bool>, canvas: Canvas, style: Style,
                             fonts: Fonts, data: GraphBounds, tickSpacingX: real, tickSpacingY: real)
  {
    var graphHeight := GraphHeight(canvas, axes.bands);
    var graphWidth := axes.frame.graphSize.width;
    && axes.bands == ComputeBands(style, fonts, data.maxX)
    && TickWalk(axes.yLabels, data.minY, data.maxY, tickSpacingY, style.y.mode)
    && YOffsets(axes.yLabels, graphHeight, TickStep(graphHeight, data.minY, data.maxY, tickSpacingY))
    && YPlaced(axes.yLabels, yAccepted, fonts.values, style.y.valueFormat, style.y.mode.ShowLabels())
    && (!style.y.mode.ShowLabels() ==> axes.yLabelsAreaSize == EmptySize)
    && (style.y.mode.ShowLabels() ==>
          && axes.yLabelsAreaSize.height == graphHeight
          && (forall i | 0 <= i < |axes.yLabels| ::
                fonts.values.stringWidth(axes.yLabels[i].formattedText) as real <= axes.yLabelsAreaSize.width)
          && (|axes.yLabels| > 0 ==> exists i | 0 <= i < |axes.yLabels| ::
                axes.yLabelsAreaSize.width == fonts.values.stringWidth(axes.yLabels[i].formattedText) as real)
          && (|axes.yLabels| == 0 ==> axes.yLabelsAreaSize.width == 0.0))
    && axes.frame == FrameOf(canvas, axes.bands, axes.yLabelsAreaSize.width, fonts)
    && TickWalk(axes.xLabels, data.minX, data.maxX, tickSpacingX, style.x.mode)
    && XOffsets(axes.xLabels, canvas.minX, TickStep(graphWidth, data.minX, data.maxX, tickSpacingX))
    && XPlaced(axes.xLabels, xAccepted, fonts.values, style.x.valueFormat, style.x.mode.ShowLabels())
  }

  /** The first part of renderGraph: measure the bands, place the y labels over the plot
      height, measure the y value column, derive the plot width, place the x labels. The tick
      spacings stand for the axis scales. */
  method PlaceAxes(canvas: Canvas, style: Style, fonts: Fonts, data: GraphBounds,
                   tickSpacingX: real, tickSpacingY: real)
    returns (axes: Axes, ghost xAccepted: seq<bool>, ghost yAccepted: seq<bool>)
    ensures AxesPlaced(axes, xAccepted, yAccepted, canvas, style, fonts, data, tickSpacingX, tickSpacingY)
  {
    var x, y := style.x, style.y;
    var bands := ComputeBands(style, fonts, data.maxX);
    var graphHeight := GraphHeight(canvas, bands);
    var yLabels, yAcc := GetYLabels(canvas.minY, graphHeight, fonts.values, y.valueFormat,
                                    data.minY, data.maxY, tickSpacingY, y.mode);
    yAccepted := yAcc;
    var yLabelsAreaSize := ComputeYLabelsAreaSize(y.mode, graphHeight, fonts.values, yLabels);
    var graphWidth := GraphWidth(canvas, bands, yLabelsAreaSize.width);
    var xLabels, xAcc := GetXLabels(canvas.minX, graphWidth, fonts.values, x.valueFormat,
                                    data.minX, data.maxX, tickSpacingX, x.mode);
    xAccepted := xAcc;
    axes := Axes(bands, yLabels, yLabelsAreaSize, xLabels, FrameOf(canvas, bands, yLabelsAreaSize.width, fonts));
  }

  /** Everything renderGraph decides before and while drawing. */
  datatype Plan = Plan(axes: Axes, drawn: bool, zeroLineX: Option<real>, zeroLineY: Option<real>,
                       seriesStyles: Result<seq<SeriesStyle>, Failure>, legend: Option<Rect>)

  /** renderGraph, without the drawing: place the axes, then stop right after clearing the
      canvas when either plot size is negative. Otherwise decide the zero lines, pick a style
      per series (failing when there are series but no styles), and place the legend when it
      is shown. */
  method PlanRender(canvas: Canvas, style: Style, fonts: Fonts, data: GraphBounds, series: seq<SeriesData>,
                    tickSpacingX: real, tickSpacingY: real)
    returns (plan: Plan, ghost xAccepted: seq<bool>, ghost yAccepted: seq<bool>)
    ensures AxesPlaced(plan.axes, xAccepted, yAccepted, canvas, style, fonts, data, tickSpacingX, tickSpacingY)
    ensures var size := plan.axes.frame.graphSize;
      plan.drawn <==> size.height >= 0.0 && size.width >= 0.0
    ensures plan.zeroLineY.Some? <==> plan.drawn && StraddlesZero(data.minY, data.maxY)
    ensures plan.zeroLineY.Some? ==>
              plan.zeroLineY.value == RasterY(0.0, data, plan.axes.frame.graphOffset, plan.axes.frame.graphSize)
    ensures plan.zeroLineX.Some? <==> plan.drawn && StraddlesZero(data.minX, data.maxX)
    ensures plan.zeroLineX.Some? ==>
              plan.zeroLineX.value == RasterX(0.0, data, plan.axes.frame.graphOffset, plan.axes.frame.graphSize)
    ensures plan.seriesStyles.Err? <==> plan.drawn && |series| > 0 && |style.seriesStyles| == 0
    ensures plan.seriesStyles.Ok? ==> |plan.seriesStyles.value| == if plan.drawn then |series| else 0
    ensures plan.drawn && plan.seriesStyles.Ok? ==>
              forall i | 0 <= i < |series| :: StyleAt(style.seriesStyles, i) == Ok(plan.seriesStyles.value[i])
    ensures plan.legend.Some? <==> plan.drawn && style.showLegend && plan.seriesStyles.Ok?
    ensures plan.legend.Some? ==>
              plan.legend.value
              == LegendRect(plan.axes.frame.graphOffset, plan.axes.frame.graphSize, series, fonts.seriesName)
  {
    var axes, xAcc, yAcc := PlaceAxes(canvas, style, fonts, data, tickSpacingX, tickSpacingY);
    xAccepted, yAccepted := xAcc, yAcc;
    var graphOffset, graphSize := axes.frame.graphOffset, axes.frame.graphSize;
    if graphSize.height < 0.0 || graphSize.width < 0.0 {
      plan := Plan(axes, false, None, None, Ok([]), None);
      return;
    }
    var zeroLineY: Option<real> := None;
    if StraddlesZero(data.minY, data.maxY) {
      zeroLineY := Some(ZeroLineY(data, graphOffset, graphSize));
    }
    var zeroLineX: Option<real> := None;
    if StraddlesZero(data.minX, data.maxX) {
      zeroLineX := Some(ZeroLineX(data, graphOffset, graphSize));
    }
    var seriesStyles := AssignStyles(series, style.seriesStyles);
    var legend: Option<Rect> := None;
    if style.showLegend && seriesStyles.Ok? {
      legend := Some(LegendRect(graphOffset, graphSize, series, fonts.seriesName));
    }
    plan := Plan(axes, true, zeroLineX, zeroLineY, seriesStyles, legend);
  }
}
