# jlinegraph layout core in Dafny

jlinegraph renders 2-D line and area charts onto a java.awt `Graphics2D`. Under the drawing
calls sits a small layer of bookkeeping, and this project models that layer and proves
properties about it:

- the data extent of a chart (`GraphBounds`): per-series minima and maxima, the component-wise
  merge, and the optional widening of an axis to contain zero;
- the greedy tick-label placer (`getXLabels`, `getYLabels`), which walks ticks
  `min + i * spacing` and blanks any label whose text would collide with the last one kept;
- the sizing of the y value column (`computeYLabelsAreaSize`) and of the series legend
  (`getSeriesPadding`, `getSeriesMargin`, `getSeriesTextMaxWidth`, `getLegendSizeW`,
  `getLegendSizeH`, and the entry positions of `drawSeriesLegend`);
- the layout arithmetic of `renderGraph`: the bands reserved around the plot, the plot
  rectangle and the anchors of rulers, values and axis names. It also covers the rule that
  drawing stops after the canvas is cleared when either plot size is negative, the dashed zero
  lines drawn when a range straddles zero, and the cyclic choice of a series style, which fails
  on an empty style list;
- the data-to-raster transform of `drawSeries`, with its y flip;
- the axis-mode flags (`AxisMode`) and the validated records `Color`, `SeriesStyle` and
  `SeriesData`.

The modules follow the repository's files:

| file | module | models |
|---|---|---|
| wrappers.dfy | `Wrappers` | `Option`, `Result` and the two exceptions the core throws |
| axis_mode.dfy | `AxisModes` | AxisMode.java |
| color.dfy | `Colors` | Color.java |
| series_style.dfy | `SeriesStyles` | SeriesStyle.java |
| series_data.dfy | `Series` | SeriesData.java and the `Vertex` pair |
| graph_bounds.dfy | `Bounds` | GraphBounds.java |
| raster.dfy | `Raster` | RasterSize.java, points, and the font-metrics queries |
| labels.dfy | `Labels` | getXLabels, getYLabels, LabelWithOffset, computeYLabelsAreaSize |
| legend.dfy | `Legend` | the legend sizing helpers and the geometry of drawSeriesLegend |
| transform.dfy | `Transform` | the drawSeries transform, the zero lines, the style per series |
| layout.dfy | `Layout` | the layout arithmetic and decisions of renderGraph |

Java doubles and floats are modelled as `real`s. Font metrics form a datatype:

- `stringWidth` is an arbitrary function from strings to naturals (AWT returns an `int`);
- the line height, ascent and descent are naturals.

Value formatters are arbitrary functions from reals to strings. The tick spacing, which an
unshown `NiceScale` computes, is an input. The `Double.MAX_VALUE` starting values of the loops
become `None`.

A loop of the source is a method with loop invariants. Each such method's result is given by a
specification function or by a rule per element, and the promised properties are lemmas about
that function or rule:

- `merge` and the one-series `fromSeriesData` are proved equal to `Merged` and `SeriesBounds`;
- the running maximum of `getSeriesTextMaxWidth` is proved equal to `MaxNameWidth`;
- the label placers are specified per tick by the greedy rule (`XDecided`, `YDecided`). They
  also return, as a ghost, which ticks passed the collision test.

Expression-only code is written as functions.

Where the code and the design intent differ, the model follows the code:

- empty series are not filtered out of the merge: each contributes (0, 0, 0, 0);
- `getXLabels` puts tick 0 at `labelsAreaOffset`, which `renderGraph` passes as the canvas's
  minX, but tick i >= 1 at `i * step` with no offset;
- `getYLabels` ignores `labelsAreaOffset`;
- the half width reserved for the widest x label formats maxX with the y axis's formatter;
- the gap between values and axis names is half the values line height in integer division;
- the y axis name is anchored one values line height below the plot's middle;
- the legend is sized for, and lists, every series, including those whose `showInLegend` is
  false;
- `renderGraph` reads the axis styles' `mode()` and `showName()` and the canvas's `width()` and
  `height()`. The `GraphAxisStyle` and `GraphBounds` records in the repository have none of
  these, so the model gives the axis style those fields (`Layout.AxisStyle`) and the canvas an
  origin and a size (`Layout.Canvas`).

## Model

| member | source | states |
|---|---|---|
| AxisModes.LabelsOnlyWithValues | src/main/java/it/cavallium/jlinegraph/AxisMode.java:8-13 | showLabels holds exactly for SHOW_WITH_VALUES |
| AxisModes.RulerUnlessHidden | src/main/java/it/cavallium/jlinegraph/AxisMode.java:15-20 | showRuler holds exactly for the modes other than HIDE |
| AxisModes.LabelsImplyRuler | src/main/java/it/cavallium/jlinegraph/AxisMode.java:8-20 | a mode that shows labels also shows the ruler |
| AxisModes.HideShowsNothing | src/main/java/it/cavallium/jlinegraph/AxisMode.java:8-20 | HIDE shows neither labels nor ruler |
| Colors.NewColor | src/main/java/it/cavallium/jlinegraph/Color.java:5-18 | construction succeeds iff all four components lie in [0, 1]; a built colour holds exactly the given components; failure is IndexOutOfBounds |
| Colors.MultiplyOpacity | src/main/java/it/cavallium/jlinegraph/Color.java:29-31 | succeeds iff alpha times the factor lies in [0, 1], giving the valid colour with only alpha replaced by that product; failure is IndexOutOfBounds, as in the constructor |
| Colors.OverrideOpacity | src/main/java/it/cavallium/jlinegraph/Color.java:33-35 | succeeds iff the new alpha lies in [0, 1]; the result is the colour with only alpha replaced; failure is IndexOutOfBounds |
| Colors.MultiplyOpacityFades | src/main/java/it/cavallium/jlinegraph/Color.java:29-31 | a factor in [0, 1] always succeeds, gives a valid colour with the same red, green and blue, and never raises alpha |
| Colors.MultiplyOpacityByOne | src/main/java/it/cavallium/jlinegraph/Color.java:29-31 | multiplying opacity by 1 returns the same colour |
| SeriesStyles.NewSeriesStyle | src/main/java/it/cavallium/jlinegraph/SeriesStyle.java:3-18 | construction succeeds iff each weight is 0 or in [1, 4] and area opacity and smoothness lie in [0, 1]; a built style stores its five fields unchanged; failure is IndexOutOfBounds |
| SeriesStyles.FractionalWeightRejected | src/main/java/it/cavallium/jlinegraph/SeriesStyle.java:6-11 | a points or line weight strictly between 0 and 1 is rejected, whatever the other fields |
| Series.NewSeriesData | src/main/java/it/cavallium/jlinegraph/SeriesData.java:11-13 | the stored showInLegend equals the requested flag and "name is not blank" (Java's isBlank); vertices, isFunction and name are stored unchanged |
| Series.NewNamedSeries | src/main/java/it/cavallium/jlinegraph/SeriesData.java:7-9 | the three-argument constructor shows the series in the legend iff its name is not blank |
| Series.BlankNeverInLegend | src/main/java/it/cavallium/jlinegraph/SeriesData.java:12 | a blank name is never shown in the legend, whatever flag is passed |
| Series.RebuildIsIdentity | src/main/java/it/cavallium/jlinegraph/SeriesData.java:5-13 | rebuilding a record from its own fields yields the same record |
| Series.BlankExamples | src/main/java/it/cavallium/jlinegraph/SeriesData.java:12 | worked example: "" and " \t\n" are blank and " a " is not |
| Bounds.AdjustZero | src/main/java/it/cavallium/jlinegraph/GraphBounds.java:19-33 | with an axis flag set, that axis contains 0 and the original range, and each end is either the original end or 0; with the flag clear the axis is unchanged |
| Bounds.AdjustZeroIdempotent | src/main/java/it/cavallium/jlinegraph/GraphBounds.java:19-33 | widening to zero twice equals widening once |
| Bounds.Merged | src/main/java/it/cavallium/jlinegraph/GraphBounds.java:35-63 | no entries give EMPTY = (0, 0, 0, 0); otherwise minX and minY are at most every entry's, maxX and maxY at least every entry's, and each of the four is some entry's value |
| Bounds.Merge | src/main/java/it/cavallium/jlinegraph/GraphBounds.java:35-63 | the merge loop computes exactly Merged |
| Bounds.MergeWellFormed | src/main/java/it/cavallium/jlinegraph/GraphBounds.java:41-61 | merging entries that each have min <= max on both axes gives bounds with min <= max on both axes |
| Bounds.SeriesBounds | src/main/java/it/cavallium/jlinegraph/GraphBounds.java:65-93 | a series without vertices gives EMPTY; the bounds of any series have min <= max on both axes |
| Bounds.SeriesBoundsContainVertices | src/main/java/it/cavallium/jlinegraph/GraphBounds.java:71-92 | every vertex of a series lies inside that series' bounds |
| Bounds.SeriesBoundsAttained | src/main/java/it/cavallium/jlinegraph/GraphBounds.java:71-92 | without zero widening, each of the four bounds of a non-empty series is attained by some vertex |
| Bounds.FromSeries | src/main/java/it/cavallium/jlinegraph/GraphBounds.java:65-93 | the one-series loop computes exactly SeriesBounds |
| Bounds.PerSeriesBounds | src/main/java/it/cavallium/jlinegraph/GraphBounds.java:12-15 | one bounds per series, in order, each the series' own bounds |
| Bounds.FromSeriesList | src/main/java/it/cavallium/jlinegraph/GraphBounds.java:9-17 | no series give EMPTY; the result has min <= max on both axes and contains 0 on each flagged axis |
| Bounds.AdjustOnceSuffices | src/main/java/it/cavallium/jlinegraph/GraphBounds.java:12-16 | widening each series before the merge and the merge after it equals one widening of the merged raw extents |
| Bounds.FromSeriesListContainsAll | src/main/java/it/cavallium/jlinegraph/GraphBounds.java:9-17 | every vertex of every series lies inside the combined bounds |
| Bounds.EmptySeriesPullsToZero | src/main/java/it/cavallium/jlinegraph/GraphBounds.java:12-15 | one series without vertices makes both combined ranges contain 0, because it is merged as (0, 0, 0, 0) |
| Bounds.TwoSeriesExample | src/main/java/it/cavallium/jlinegraph/GraphBounds.java:9-17 | worked example: series (1,2),(3,4) and (-1,0),(5,9) without widening give (-1, 0, 5, 9) |
| Bounds.EmptySeriesExample | src/main/java/it/cavallium/jlinegraph/GraphBounds.java:88-89 | worked example: adding an empty series to (1,2),(3,4) gives (0, 0, 3, 4), not (1, 2, 3, 4) |
| Labels.GetXLabels | src/main/java/it/cavallium/jlinegraph/AWTGraphRenderer.java:764-804 | nothing for HIDE or a spacing that is not positive; at most 1000 ticks, tick i with value min + i * spacing <= max, the walk stopping at the first value above max; tick 0 at labelsAreaOffset and tick i >= 1 at i * step; each tick's text decided by the greedy collision rule |
| Labels.GetYLabels | src/main/java/it/cavallium/jlinegraph/AWTGraphRenderer.java:809-850 | the same walk; tick i at labelsAreaHeight - i * step; a tick keeps its text iff labels are shown and its bottom lies strictly above the top of the last kept label |
| Labels.DecideXTick | src/main/java/it/cavallium/jlinegraph/AWTGraphRenderer.java:786-797 | one x tick keeps its formatted text iff labels are shown and its left edge lies strictly right of the previous boundary; the boundary then moves to its right edge, and is otherwise unchanged |
| Labels.DecideYTick | src/main/java/it/cavallium/jlinegraph/AWTGraphRenderer.java:828-839 | one y tick keeps its formatted text iff labels are shown and its bottom lies strictly above the previous boundary; the boundary then moves to its top, and is otherwise unchanged |
| Labels.XAcceptedDisjoint | src/main/java/it/cavallium/jlinegraph/AWTGraphRenderer.java:782-794 | the extents [offset - w/2, offset + w/2] of kept x labels are pairwise disjoint and strictly increasing |
| Labels.YAcceptedDisjoint | src/main/java/it/cavallium/jlinegraph/AWTGraphRenderer.java:829-839 | the extents [offset - ascent, offset + descent] of kept y labels are pairwise disjoint, each strictly above the earlier ones |
| Labels.StepUnusedWhenDegenerate | src/main/java/it/cavallium/jlinegraph/AWTGraphRenderer.java:777-785 | a second tick, the first to use singleRasterOffset, exists only when min < max and the spacing is positive |
| Labels.FirstTickLabelled | src/main/java/it/cavallium/jlinegraph/AWTGraphRenderer.java:782-794 | when labels are shown the first tick always keeps its formatted text, on either axis |
| Labels.TextOnlyWhenAccepted | src/main/java/it/cavallium/jlinegraph/AWTGraphRenderer.java:795-797 | a non-empty text is always a kept tick's formatted value; with labels hidden every text is empty |
| Labels.ComputeYLabelsAreaSize | src/main/java/it/cavallium/jlinegraph/AWTGraphRenderer.java:743-757 | (0, 0) when labels are hidden; otherwise the height is the plot height and the width is at least every label's width and equal to one of them, or 0 for no labels |
| Legend.MaxNameWidthIsMaximum | src/main/java/it/cavallium/jlinegraph/AWTGraphRenderer.java:408-418 | the running maximum of the name widths bounds every name's width and equals one of them, or 0 without series |
| Legend.SeriesTextMaxWidth | src/main/java/it/cavallium/jlinegraph/AWTGraphRenderer.java:408-418 | the loop returns the widest series name's width (0 without series) |
| Legend.LegendSizeW | src/main/java/it/cavallium/jlinegraph/AWTGraphRenderer.java:384-393 | the legend width is the widest name plus 3h (three paddings of h/3 and a 2h preview line), room for every row's line and name |
| Legend.LegendSizeH | src/main/java/it/cavallium/jlinegraph/AWTGraphRenderer.java:399-406 | the legend height for n series is (4n + 1) * h / 3 |
| Legend.EntriesInsideLegend | src/main/java/it/cavallium/jlinegraph/AWTGraphRenderer.java:337-372 | every row's preview line and name lie inside the legend box horizontally, and its row inside it vertically |
| Legend.RowsStacked | src/main/java/it/cavallium/jlinegraph/AWTGraphRenderer.java:366-368 | rows follow series order and each ends at least one padding above the next, so rows never overlap |
| Legend.LegendInsidePlot | src/main/java/it/cavallium/jlinegraph/AWTGraphRenderer.java:337-342 | the legend is anchored one margin inside the plot's top-right corner and lies inside the plot when the plot has room for it |
| Transform.RasterCorners | src/main/java/it/cavallium/jlinegraph/AWTGraphRenderer.java:436-439 | (minX, minY) maps to the plot's bottom-left corner and (maxX, maxY) to its top-right corner |
| Transform.RasterMonotone | src/main/java/it/cavallium/jlinegraph/AWTGraphRenderer.java:436-439 | on increasing bounds and a plot of positive size, raster x increases with data x and raster y decreases with data y |
| Transform.VertexInsidePlot | src/main/java/it/cavallium/jlinegraph/AWTGraphRenderer.java:436-439 | every vertex inside the data bounds is drawn inside the plot rectangle |
| Transform.RasterRoundTrip | src/main/java/it/cavallium/jlinegraph/AWTGraphRenderer.java:436-439 | the transform and its inverse undo each other in both directions |
| Transform.XInverse | src/main/java/it/cavallium/jlinegraph/AWTGraphRenderer.java:436-437 | rasterX and its inverse undo each other on a non-zero range and width |
| Transform.YInverse | src/main/java/it/cavallium/jlinegraph/AWTGraphRenderer.java:438-439 | the flipped rasterY and its inverse undo each other on a non-zero range and height |
| Transform.ProjectVertices | src/main/java/it/cavallium/jlinegraph/AWTGraphRenderer.java:430-442 | a fresh array with one point per vertex, point i the image of vertex i |
| Transform.StraddlesZero | src/main/java/it/cavallium/jlinegraph/AWTGraphRenderer.java:254-255 | the zero-line test holds iff the two ends have strictly opposite signs |
| Transform.ZeroLinesInsidePlot | src/main/java/it/cavallium/jlinegraph/AWTGraphRenderer.java:254-277 | the zero lines are the images of 0 under the transform, and when an increasing range straddles zero they lie strictly inside the plot |
| Transform.StyleAt | src/main/java/it/cavallium/jlinegraph/AWTGraphRenderer.java:281-286 | an empty style list fails with "No styles found"; otherwise the styles cycle: series i takes style i when i is in range and the style of series i minus the number of styles beyond it, always one of the list |
| Transform.StyleAtModulo | src/main/java/it/cavallium/jlinegraph/AWTGraphRenderer.java:286 | the cyclic choice is exactly the source's styles.get(i % styles.size()) for a non-empty list |
| Transform.AssignStyles | src/main/java/it/cavallium/jlinegraph/AWTGraphRenderer.java:279-296 | the style loop fails iff there are series and no styles; otherwise series i gets style i modulo the list length |
| Layout.BandsFollowSettings | src/main/java/it/cavallium/jlinegraph/AWTGraphRenderer.java:56-76 | each band is reserved only when its element is shown, and no band is negative when the padding multiplier is not |
| Layout.NameGapTruncates | src/main/java/it/cavallium/jlinegraph/AWTGraphRenderer.java:73-76 | with the axis name shown, the gap between values and axis name is a whole number within half a pixel below half the values height (integer division): 7 for a height of 15 |
| Layout.PlotInsideCanvas | src/main/java/it/cavallium/jlinegraph/AWTGraphRenderer.java:78-115 | the bands and the plot add up exactly to the canvas size; with non-negative bands and a drawn plot, the plot lies inside the canvas |
| Layout.RulersTouchPlot | src/main/java/it/cavallium/jlinegraph/AWTGraphRenderer.java:94-159 | the x ruler starts on the plot's bottom edge and the x values just below it; the y ruler ends on the plot's left edge, right after the y value column |
| Layout.AxisNameAnchors | src/main/java/it/cavallium/jlinegraph/AWTGraphRenderer.java:139-179 | the x axis name is centred on the plot and in its own band; the y axis name's anchor is one values height below the plot's middle |
| Layout.YTicksOnData | src/main/java/it/cavallium/jlinegraph/AWTGraphRenderer.java:649 | every y tick is drawn exactly where the data transform puts its value |
| Layout.XTicksOnData | src/main/java/it/cavallium/jlinegraph/AWTGraphRenderer.java:703 | x ticks from the second on are drawn where the transform puts their value; the first is shifted by labelsAreaOffset |
| Layout.PlaceAxes | src/main/java/it/cavallium/jlinegraph/AWTGraphRenderer.java:56-181 | the bands of the style, the y labels walked over the plot height, the y value column measured on them, the plot width left over and the x labels walked over it from the canvas's minX, each as its own contract states, and the frame anchored on them |
| Layout.PlanRender | src/main/java/it/cavallium/jlinegraph/AWTGraphRenderer.java:181-317 | drawing goes on iff neither plot size is negative; a zero line exists iff drawing goes on and its range straddles zero, at the image of 0; styling fails iff drawing goes on, there are series and no styles, and otherwise gives series i style i modulo the list length; the legend box exists iff drawing goes on, the legend is shown and styling succeeded |

## Left out

- All drawing on `Graphics2D` is left out: rendering hints, clearing, strokes, fills, clipping,
  rotation, glyph outlines, `renderGraphBorders`, the axis-name and value-label drawing and the
  drawing calls of `drawSeriesLegend`. These are side effects with no result to check.
  Only the positions they are given are modelled.
- The smoothing branch of `drawSeries` is left out. It depends on a Bezier class and a
  GeneralPath that are not part of this model, and on square roots and powers.
- The sort of the projected points by x for function series is left out: it is a library call.
- The straight-line and area paths built from the points are left out: they are drawing.
- The shrinking of the legend font is left out: fonts are derived and re-measured by AWT.
  `Layout.PlanRender` takes the series-name metrics left after that step as an input.
- NiceScale, which chooses the tick spacing, is not part of this model. The spacing is an input.
- `Color.fromRGB` and `Color.toColor` are left out: they convert from and to java.awt.Color.
- IEEE-754 behaviour is left out: rounding of doubles and floats, NaN (which passes every range
  check of the records), infinities and negative zero. In particular, outside min < max with a
  positive tick spacing, Java's `singleRasterOffset` is infinite or NaN when max == min, 0 for
  a zero spacing, and some finite number for a negative spacing or max < min. In all of these
  cases at most tick 0 is walked, and it does not use the step, so the model uses 0.
- Transform.RasterX, Transform.RasterY, Transform.ToRaster: these require a non-zero data range
  on the axes they map. With a zero range Java divides by zero and draws at NaN or infinite
  coordinates, which the model does not represent.
- Colors.MultiplyOpacity, Colors.OverrideOpacity: these require a valid colour. That is the
  invariant every Java Color object has, because its constructor enforces it.
- The buffered-image renderer, the Swing example, the graph container and the field-only records
  are left out, except for the fields the core reads.
