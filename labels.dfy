/** The tick-label placer (getXLabels, getYLabels and computeYLabelsAreaSize in
    AWTGraphRenderer.java): ticks are walked from the axis minimum, and a tick's text is kept
    only when it does not collide with the last text kept before it. */
module Labels {
  import opened Wrappers
  import opened AxisModes
  import opened Raster

  /** MAX_LABELS: the hard cap on ticks per axis. */
  const MaxLabels: nat := 1000

  /** LabelWithOffset: a tick's value, its raster offset along the axis and its text
      ("" for a bare tick). */
  datatype LabelWithOffset = LabelWithOffset(value: real, rasterOffset: real, formattedText: string)

  /** singleRasterOffset = areaLength / ((max - min) / spacing), the raster distance between
      neighbouring ticks. Outside min < max with a positive spacing, Java computes another
      value: an infinity (or NaN for a zero length) when max == min, 0 for a zero spacing, and
      some finite number for a negative spacing or max < min. In all of these cases at most
      tick 0 exists (StepUnusedWhenDegenerate), which never uses the step, so 0 stands for it. */
  function TickStep(areaLength: real, min: real, max: real, spacing: real): real {
    if min < max && spacing > 0.0 then areaLength / ((max - min) / spacing) else 0.0
  }

  /** Entry i holds min + i * spacing, and no entry exceeds max. */
  predicate TickValues(labels: seq<LabelWithOffset>, min: real, max: real, spacing: real) {
    forall i | 0 <= i < |labels| :: labels[i].value == min + i as real * spacing && labels[i].value <= max
  }

  /** The walked ticks: nothing for a hidden axis or a spacing that is not positive; otherwise
      entry i holds min + i * spacing, no entry exceeds max, and the walk ends at the first value
      above max or after MaxLabels entries. */
  predicate TickWalk(labels: seq<LabelWithOffset>, min: real, max: real, spacing: real, mode: AxisMode) {
    && |labels| <= MaxLabels
    && (mode == Hide || spacing <= 0.0 ==> labels == [])
    && TickValues(labels, min, max, spacing)
    && (mode != Hide && spacing > 0.0 && |labels| < MaxLabels ==> min + |labels| as real * spacing > max)
  }

  /** A second tick, the first to use the tick step, is walked only when min < max and the
      spacing is positive; otherwise the walk yields at most tick 0 and the step is unused. */
  lemma StepUnusedWhenDegenerate(labels: seq<LabelWithOffset>, min: real, max: real, spacing: real, mode: AxisMode)
    requires TickWalk(labels, min, max, spacing, mode)
    ensures |labels| >= 2 ==> min < max && spacing > 0.0
  {
    if |labels| >= 2 {
      assert labels[1].value == min + 1 as real * spacing && labels[1].value <= max;
    }
  }

  /** The x-axis raster offsets: tick 0 sits at labelsAreaOffset, tick i >= 1 at i * step with
      no offset added. */
  predicate XOffsets(labels: seq<LabelWithOffset>, labelsAreaOffset: real, step: real) {
    forall i | 0 <= i < |labels| :: labels[i].rasterOffset == if i == 0 then labelsAreaOffset else i as real * step
  }

  /** The y-axis raster offsets: tick i sits at labelsAreaHeight - i * step, so larger values
      sit higher (smaller raster y). */
  predicate YOffsets(labels: seq<LabelWithOffset>, labelsAreaHeight: real, step: real) {
    forall i | 0 <= i < |labels| :: labels[i].rasterOffset == labelsAreaHeight - i as real * step
  }

  // ---- x axis: a label spans [offset - width / 2, offset + width / 2] ----

  function XLeft(offset: real, text: string, m: FontMetrics): real {
    offset - m.stringWidth(text) as real / 2.0
  }

  function XRight(offset: real, text: string, m: FontMetrics): real {
    offset + m.stringWidth(text) as real / 2.0
  }

  /** prevRasterLabelEndOffset on the x axis: the right edge of the last accepted label; None
      (Java: -Double.MAX_VALUE) before any label is accepted. */
  function LastXEnd(labels: seq<LabelWithOffset>, accepted: seq<bool>, m: FontMetrics): Option<real>
    requires |accepted| == |labels|
    decreases |labels|
  {
    if |labels| == 0 then None
    else
      var n := |labels| - 1;
      if accepted[n] then Some(XRight(labels[n].rasterOffset, labels[n].formattedText, m))
      else LastXEnd(labels[..n], accepted[..n], m)
  }

  /** The greedy rule on the x axis, for tick i: it is accepted (and given its formatted text)
      exactly when values are shown and its left edge lies strictly right of the right edge of
      the last label accepted before it; a rejected tick gets the empty text. */
  predicate XDecided(labels: seq<LabelWithOffset>, accepted: seq<bool>, i: nat, m: FontMetrics,
                     format: real -> string, showLabels: bool)
    requires |accepted| == |labels| && i < |labels|
  {
    && labels[i].formattedText == (if accepted[i] then format(labels[i].value) else "")
    && (accepted[i] <==>
          showLabels &&
          var end := LastXEnd(labels[..i], accepted[..i], m);
          end.None? || XLeft(labels[i].rasterOffset, format(labels[i].value), m) > end.value)
  }

  /** Every tick on the x axis was decided by the greedy rule. */
  predicate XPlaced(labels: seq<LabelWithOffset>, accepted: seq<bool>, m: FontMetrics,
                    format: real -> string, showLabels: bool)
  {
    |accepted| == |labels| && forall i: nat | i < |labels| :: XDecided(labels, accepted, i, m, format, showLabels)
  }

  // ---- y axis: a label spans [offset - ascent, offset + descent] in raster y ----

  /** prevRasterLabelEndOffset on the y axis: the top edge of the last accepted label; None
      (Java: Double.MAX_VALUE) before any label is accepted. */
  function LastYTop(labels: seq<LabelWithOffset>, accepted: seq<bool>, m: FontMetrics): Option<real>
    requires |accepted| == |labels|
    decreases |labels|
  {
    if |labels| == 0 then None
    else
      var n := |labels| - 1;
      if accepted[n] then Some(labels[n].rasterOffset - m.ascent as real)
      else LastYTop(labels[..n], accepted[..n], m)
  }

  /** The greedy rule on the y axis, for tick i: it is accepted exactly when values are shown
      and its bottom edge lies strictly above (smaller raster y) the top edge of the last label
      accepted before it. */
  predicate YDecided(labels: seq<LabelWithOffset>, accepted: seq<bool>, i: nat, m: FontMetrics,
                     format: real -> string, showLabels: bool)
    requires |accepted| == |labels| && i < |labels|
  {
    && labels[i].formattedText == (if accepted[i] then format(labels[i].value) else "")
    && (accepted[i] <==>
          showLabels &&
          var top := LastYTop(labels[..i], accepted[..i], m);
          top.None? || labels[i].rasterOffset + m.descent as real < top.value)
  }

  /** Every tick on the y axis was decided by the greedy rule. */
  predicate YPlaced(labels: seq<LabelWithOffset>, accepted: seq<bool>, m: FontMetrics,
                    format: real -> string, showLabels: bool)
  {
    |accepted| == |labels| && forall i: nat | i < |labels| :: YDecided(labels, accepted, i, m, format, showLabels)
  }

  lemma TickValuesSnoc(labels: seq<LabelWithOffset>, e: LabelWithOffset, min: real, max: real, spacing: real)
    requires TickValues(labels, min, max, spacing)
    requires e.value == min + |labels| as real * spacing && e.value <= max
    ensures TickValues(labels + [e], min, max, spacing)
  {
  }

  lemma XOffsetsSnoc(labels: seq<LabelWithOffset>, e: LabelWithOffset, labelsAreaOffset: real, step: real)
    requires XOffsets(labels, labelsAreaOffset, step)
    requires e.rasterOffset == if |labels| == 0 then labelsAreaOffset else |labels| as real * step
    ensures XOffsets(labels + [e], labelsAreaOffset, step)
  {
  }

  lemma YOffsetsSnoc(labels: seq<LabelWithOffset>, e: LabelWithOffset, labelsAreaHeight: real, step: real)
    requires YOffsets(labels, labelsAreaHeight, step)
    requires e.rasterOffset == labelsAreaHeight - |labels| as real * step
    ensures YOffsets(labels + [e], labelsAreaHeight, step)
  {
  }

  /** Appending a tick: the boundary moves to the new label's right edge when it is accepted. */
  lemma LastXEndSnoc(labels: seq<LabelWithOffset>, accepted: seq<bool>, e: LabelWithOffset, ok: bool, m: FontMetrics)
    requires |accepted| == |labels|
    ensures LastXEnd(labels + [e], accepted + [ok], m)
         == if ok then Some(XRight(e.rasterOffset, e.formattedText, m)) else LastXEnd(labels, accepted, m)
  {
    assert (labels + [e])[..|labels|] == labels && (accepted + [ok])[..|labels|] == accepted;
  }

  lemma LastYTopSnoc(labels: seq<LabelWithOffset>, accepted: seq<bool>, e: LabelWithOffset, ok: bool, m: FontMetrics)
    requires |accepted| == |labels|
    ensures LastYTop(labels + [e], accepted + [ok], m)
         == if ok then Some(e.rasterOffset - m.ascent as real) else LastYTop(labels, accepted, m)
  {
    assert (labels + [e])[..|labels|] == labels && (accepted + [ok])[..|labels|] == accepted;
  }

  /** Appending a tick decided by the greedy rule keeps the x placement greedy. */
  lemma XPlacedSnoc(labels: seq<LabelWithOffset>, accepted: seq<bool>, e: LabelWithOffset, ok: bool,
                    m: FontMetrics, format: real -> string, showLabels: bool)
    requires XPlaced(labels, accepted, m, format, showLabels)
    requires e.formattedText == (if ok then format(e.value) else "")
    requires ok <==> (showLabels &&
                      var end := LastXEnd(labels, accepted, m);
                      end.None? || XLeft(e.rasterOffset, format(e.value), m) > end.value)
    ensures XPlaced(labels + [e], accepted + [ok], m, format, showLabels)
  {
    var n := |labels|;
    forall j: nat | j <= n
      ensures XDecided(labels + [e], accepted + [ok], j, m, format, showLabels)
    {
      assert (labels + [e])[..j] == labels[..j] && (accepted + [ok])[..j] == accepted[..j];
      if j < n {
        assert XDecided(labels, accepted, j, m, format, showLabels);
      }
    }
  }

  /** Appending a tick decided by the greedy rule keeps the y placement greedy. */
  lemma YPlacedSnoc(labels: seq<LabelWithOffset>, accepted: seq<bool>, e: LabelWithOffset, ok: bool,
                    m: FontMetrics, format: real -> string, showLabels: bool)
    requires YPlaced(labels, accepted, m, format, showLabels)
    requires e.formattedText == (if ok then format(e.value) else "")
    requires ok <==> (showLabels &&
                      var top := LastYTop(labels, accepted, m);
                      top.None? || e.rasterOffset + m.descent as real < top.value)
    ensures YPlaced(labels + [e], accepted + [ok], m, format, showLabels)
  {
    var n := |labels|;
    forall j: nat | j <= n
      ensures YDecided(labels + [e], accepted + [ok], j, m, format, showLabels)
    {
      assert (labels + [e])[..j] == labels[..j] && (accepted + [ok])[..j] == accepted[..j];
      if j < n {
        assert YDecided(labels, accepted, j, m, format, showLabels);
      }
    }
  }

  /** The state getXLabels keeps between ticks: the ticks walked so far with their values and
      offsets, each decided by the greedy rule, and the right edge of the last accepted one. */
  ghost predicate XWalked(labels: seq<LabelWithOffset>, accepted: seq<bool>, prev: Option<real>,
                          min: real, max: real, spacing: real, labelsAreaOffset: real, step: real,
                          m: FontMetrics, format: real -> string, showLabels: bool)
  {
    && TickValues(labels, min, max, spacing)
    && XOffsets(labels, labelsAreaOffset, step)
    && XPlaced(labels, accepted, m, format, showLabels)
    && prev == LastXEnd(labels, accepted, m)
  }

  /** One tick of getXLabels: the formatted value is kept exactly when values are shown and its
      left edge clears the previous boundary, which then moves to its right edge. */
  method DecideXTick(value: real, offset: real, prev: Option<real>, m: FontMetrics,
                     format: real -> string, showLabels: bool)
    returns (entry: LabelWithOffset, ok: bool, next: Option<real>)
    ensures entry.value == value && entry.rasterOffset == offset
    ensures entry.formattedText == (if ok then format(value) else "")
    ensures ok <==> showLabels && (prev.None? || XLeft(offset, format(value), m) > prev.value)
    ensures next == if ok then Some(XRight(offset, entry.formattedText, m)) else prev
  {
    entry, ok, next := LabelWithOffset(value, offset, ""), false, prev;
    if showLabels {
      var formatted := format(value);
      var stringWidth := m.stringWidth(formatted);
      if prev.None? || offset - stringWidth as real / 2.0 > prev.value {
        entry, ok := LabelWithOffset(value, offset, formatted), true;
        next := Some(offset + stringWidth as real / 2.0);
      }
    }
  }

  /** Appending a tick decided by DecideXTick keeps the walk state. */
  lemma XWalkedSnoc(labels: seq<LabelWithOffset>, accepted: seq<bool>, prev: Option<real>,
                    min: real, max: real, spacing: real, labelsAreaOffset: real, step: real,
                    m: FontMetrics, format: real -> string, showLabels: bool,
                    e: LabelWithOffset, ok: bool, next: Option<real>)
    requires XWalked(labels, accepted, prev, min, max, spacing, labelsAreaOffset, step, m, format, showLabels)
    requires e.value == min + |labels| as real * spacing && e.value <= max
    requires e.rasterOffset == if |labels| == 0 then labelsAreaOffset else |labels| as real * step
    requires e.formattedText == (if ok then format(e.value) else "")
    requires ok <==> showLabels && (prev.None? || XLeft(e.rasterOffset, format(e.value), m) > prev.value)
    requires next == if ok then Some(XRight(e.rasterOffset, e.formattedText, m)) else prev
    ensures XWalked(labels + [e], accepted + [ok], next, min, max, spacing, labelsAreaOffset, step, m, format, showLabels)
  {
    TickValuesSnoc(labels, e, min, max, spacing);
    XOffsetsSnoc(labels, e, labelsAreaOffset, step);
    XPlacedSnoc(labels, accepted, e, ok, m, format, showLabels);
    LastXEndSnoc(labels, accepted, e, ok, m);
  }

  /** getXLabels. The ghost `accepted` records which ticks passed the collision test. */
  method GetXLabels(labelsAreaOffset: real, labelsAreaWidth: real, m: FontMetrics, format: real -> string,
                    minX: real, maxX: real, tickSpacing: real, mode: AxisMode)
    returns (labels: seq<LabelWithOffset>, ghost accepted: seq<bool>)
    ensures TickWalk(labels, minX, maxX, tickSpacing, mode)
    ensures XOffsets(labels, labelsAreaOffset, TickStep(labelsAreaWidth, minX, maxX, tickSpacing))
    ensures XPlaced(labels, accepted, m, format, mode.ShowLabels())
  {
    labels, accepted := [], [];
    if mode == Hide {
      return;
    }
    var singleRasterOffset := TickStep(labelsAreaWidth, minX, maxX, tickSpacing);
    var i: nat := 0;
    var prevRasterLabelEndOffset: Option<real> := None;
    var currentRasterOffset := labelsAreaOffset;
    var currentValue := minX;
    while currentValue <= maxX && i < MaxLabels && tickSpacing > 0.0
      invariant i == |labels| == |accepted| <= MaxLabels
      invariant currentValue == minX + i as real * tickSpacing
      invariant currentRasterOffset == if i == 0 then labelsAreaOffset else i as real * singleRasterOffset
      invariant tickSpacing <= 0.0 ==> i == 0
      invariant XWalked(labels, accepted, prevRasterLabelEndOffset, minX, maxX, tickSpacing,
                        labelsAreaOffset, singleRasterOffset, m, format, mode.ShowLabels())
      decreases MaxLabels - i
    {
      var entry, ok, next := DecideXTick(currentValue, currentRasterOffset, prevRasterLabelEndOffset,
                                         m, format, mode.ShowLabels());
      XWalkedSnoc(labels, accepted, prevRasterLabelEndOffset, minX, maxX, tickSpacing, labelsAreaOffset,
                  singleRasterOffset, m, format, mode.ShowLabels(), entry, ok, next);
      labels, accepted, prevRasterLabelEndOffset := labels + [entry], accepted + [ok], next;
      i := i + 1;
      currentValue := minX + i as real * tickSpacing;
      currentRasterOffset := i as real * singleRasterOffset;
    }
  }

  /** The state getYLabels keeps between ticks: the ticks walked so far with their values and
      offsets, each decided by the greedy rule, and the top edge of the last accepted one. */
  ghost predicate YWalked(labels: seq<LabelWithOffset>, accepted: seq<bool>, prev: Option<real>,
                          min: real, max: real, spacing: real, labelsAreaHeight: real, step: real,
                          m: FontMetrics, format: real -> string, showLabels: bool)
  {
    && TickValues(labels, min, max, spacing)
    && YOffsets(labels, labelsAreaHeight, step)
    && YPlaced(labels, accepted, m, format, showLabels)
    && prev == LastYTop(labels, accepted, m)
  }

  /** One tick of getYLabels: the formatted value is kept exactly when values are shown and its
      bottom edge lies above the previous boundary, which then moves to its top edge. */
  method DecideYTick(value: real, offset: real, prev: Option<real>, m: FontMetrics,
                     format: real -> string, showLabels: bool)
    returns (entry: LabelWithOffset, ok: bool, next: Option<real>)
    ensures entry.value == value && entry.rasterOffset == offset
    ensures entry.formattedText == (if ok then format(value) else "")
    ensures ok <==> showLabels && (prev.None? || offset + m.descent as real < prev.value)
    ensures next == if ok then Some(offset - m.ascent as real) else prev
  {
    var stringTop := m.ascent as real;
    var stringBottom := m.descent as real;
    entry, ok, next := LabelWithOffset(value, offset, ""), false, prev;
    if showLabels {
      if prev.None? || offset + stringBottom < prev.value {
        entry, ok := LabelWithOffset(value, offset, format(value)), true;
        next := Some(offset - stringTop);
      }
    }
  }

  /** Appending a tick decided by DecideYTick keeps the walk state. */
  lemma YWalkedSnoc(labels: seq<LabelWithOffset>, accepted: seq<bool>, prev: Option<real>,
                    min: real, max: real, spacing: real, labelsAreaHeight: real, step: real,
                    m: FontMetrics, format: real -> string, showLabels: bool,
                    e: LabelWithOffset, ok: bool, next: Option<real>)
    requires YWalked(labels, accepted, prev, min, max, spacing, labelsAreaHeight, step, m, format, showLabels)
    requires e.value == min + |labels| as real * spacing && e.value <= max
    requires e.rasterOffset == labelsAreaHeight - |labels| as real * step
    requires e.formattedText == (if ok then format(e.value) else "")
    requires ok <==> showLabels && (prev.None? || e.rasterOffset + m.descent as real < prev.value)
    requires next == if ok then Some(e.rasterOffset - m.ascent as real) else prev
    ensures YWalked(labels + [e], accepted + [ok], next, min, max, spacing, labelsAreaHeight, step, m, format, showLabels)
  {
    TickValuesSnoc(labels, e, min, max, spacing);
    YOffsetsSnoc(labels, e, labelsAreaHeight, step);
    YPlacedSnoc(labels, accepted, e, ok, m, format, showLabels);
    LastYTopSnoc(labels, accepted, e, ok, m);
  }

  /** getYLabels. Like the source, it takes labelsAreaOffset and ignores it. */
  method GetYLabels(labelsAreaOffset: real, labelsAreaHeight: real, m: FontMetrics, format: real -> string,
                    minY: real, maxY: real, tickSpacing: real, mode: AxisMode)
    returns (labels: seq<LabelWithOffset>, ghost accepted: seq<bool>)
    ensures TickWalk(labels, minY, maxY, tickSpacing, mode)
    ensures YOffsets(labels, labelsAreaHeight, TickStep(labelsAreaHeight, minY, maxY, tickSpacing))
    ensures YPlaced(labels, accepted, m, format, mode.ShowLabels())
  {
    labels, accepted := [], [];
    if mode == Hide {
      return;
    }
    var singleRasterOffset := TickStep(labelsAreaHeight, minY, maxY, tickSpacing);
    var i: nat := 0;
    var prevRasterLabelEndOffset: Option<real> := None;
    var currentRasterOffset := labelsAreaHeight;
    var currentValue := minY;
    while currentValue <= maxY && i < MaxLabels && tickSpacing > 0.0
      invariant i == |labels| == |accepted| <= MaxLabels
      invariant currentValue == minY + i as real * tickSpacing
      invariant currentRasterOffset == labelsAreaHeight - i as real * singleRasterOffset
      invariant tickSpacing <= 0.0 ==> i == 0
      invariant YWalked(labels, accepted, prevRasterLabelEndOffset, minY, maxY, tickSpacing,
                        labelsAreaHeight, singleRasterOffset, m, format, mode.ShowLabels())
      decreases MaxLabels - i
    {
      var entry, ok, next := DecideYTick(currentValue, currentRasterOffset, prevRasterLabelEndOffset,
                                         m, format, mode.ShowLabels());
      YWalkedSnoc(labels, accepted, prevRasterLabelEndOffset, minY, maxY, tickSpacing, labelsAreaHeight,
                  singleRasterOffset, m, format, mode.ShowLabels(), entry, ok, next);
      labels, accepted, prevRasterLabelEndOffset := labels + [entry], accepted + [ok], next;
      i := i + 1;
      currentValue := minY + i as real * tickSpacing;
      currentRasterOffset := labelsAreaHeight - i as real * singleRasterOffset;
    }
  }

  /** Once tick i is accepted, every later boundary lies at or right of its right edge. */
  lemma {:induction false} XBoundaryAfter(labels: seq<LabelWithOffset>, accepted: seq<bool>, m: FontMetrics,
                                          format: real -> string, showLabels: bool, i: nat, k: nat)
    requires XPlaced(labels, accepted, m, format, showLabels)
    requires i < k <= |labels| && accepted[i]
    ensures var end := LastXEnd(labels[..k], accepted[..k], m);
      end.Some? && XRight(labels[i].rasterOffset, labels[i].formattedText, m) <= end.value
    decreases k
  {
    var n := k - 1;
    assert labels[..k][..n] == labels[..n] && accepted[..k][..n] == accepted[..n];
    if n > i {
      XBoundaryAfter(labels, accepted, m, format, showLabels, i, n);
      if accepted[n] {
        assert XDecided(labels, accepted, n, m, format, showLabels);
      }
    }
  }

  /** x axis: accepted labels never overlap; each one's extent lies strictly right of every
      earlier accepted label's extent, so their offsets strictly increase. */
  lemma XAcceptedDisjoint(labels: seq<LabelWithOffset>, accepted: seq<bool>, m: FontMetrics,
                          format: real -> string, showLabels: bool)
    requires XPlaced(labels, accepted, m, format, showLabels)
    ensures forall i, j | 0 <= i < j < |labels| && accepted[i] && accepted[j] ::
              && XRight(labels[i].rasterOffset, labels[i].formattedText, m)
                 < XLeft(labels[j].rasterOffset, labels[j].formattedText, m)
              && labels[i].rasterOffset < labels[j].rasterOffset
  {
    forall i, j | 0 <= i < j < |labels| && accepted[i] && accepted[j]
      ensures XRight(labels[i].rasterOffset, labels[i].formattedText, m)
              < XLeft(labels[j].rasterOffset, labels[j].formattedText, m)
    {
      XBoundaryAfter(labels, accepted, m, format, showLabels, i, j);
      assert XDecided(labels, accepted, j, m, format, showLabels);
    }
  }

  /** Once tick i is accepted, every later boundary lies at or above its top edge. */
  lemma {:induction false} YBoundaryAfter(labels: seq<LabelWithOffset>, accepted: seq<bool>, m: FontMetrics,
                                          format: real -> string, showLabels: bool, i: nat, k: nat)
    requires YPlaced(labels, accepted, m, format, showLabels)
    requires i < k <= |labels| && accepted[i]
    ensures var top := LastYTop(labels[..k], accepted[..k], m);
      top.Some? && top.value <= labels[i].rasterOffset - m.ascent as real
    decreases k
  {
    var n := k - 1;
    assert labels[..k][..n] == labels[..n] && accepted[..k][..n] == accepted[..n];
    if n > i {
      YBoundaryAfter(labels, accepted, m, format, showLabels, i, n);
      if accepted[n] {
        assert YDecided(labels, accepted, n, m, format, showLabels);
      }
    }
  }

  /** y axis: accepted labels never overlap; each one's extent [offset - ascent, offset + descent]
      lies strictly above (smaller raster y) every earlier accepted label's extent. */
  lemma YAcceptedDisjoint(labels: seq<LabelWithOffset>, accepted: seq<bool>, m: FontMetrics,
                          format: real -> string, showLabels: bool)
    requires YPlaced(labels, accepted, m, format, showLabels)
    ensures forall i, j | 0 <= i < j < |labels| && accepted[i] && accepted[j] ::
              && labels[j].rasterOffset + m.descent as real < labels[i].rasterOffset - m.ascent as real
              && labels[j].rasterOffset < labels[i].rasterOffset
  {
    forall i, j | 0 <= i < j < |labels| && accepted[i] && accepted[j]
      ensures labels[j].rasterOffset + m.descent as real < labels[i].rasterOffset - m.ascent as real
    {
      YBoundaryAfter(labels, accepted, m, format, showLabels, i, j);
      assert YDecided(labels, accepted, j, m, format, showLabels);
    }
  }

  /** The first tick is always labelled when values are shown, on either axis. */
  lemma FirstTickLabelled(labels: seq<LabelWithOffset>, accepted: seq<bool>, m: FontMetrics,
                          format: real -> string, showLabels: bool)
    requires XPlaced(labels, accepted, m, format, showLabels) || YPlaced(labels, accepted, m, format, showLabels)
    requires showLabels && |labels| > 0
    ensures accepted[0] && labels[0].formattedText == format(labels[0].value)
  {
    assert labels[..0] == [] && accepted[..0] == [];
    if XPlaced(labels, accepted, m, format, showLabels) {
      assert XDecided(labels, accepted, 0, m, format, showLabels);
    } else {
      assert YDecided(labels, accepted, 0, m, format, showLabels);
    }
  }

  /** Only accepted ticks carry text: with values hidden (ruler-only mode) every text is empty,
      and a non-empty text is always the formatted tick value. */
  lemma TextOnlyWhenAccepted(labels: seq<LabelWithOffset>, accepted: seq<bool>, m: FontMetrics,
                             format: real -> string, showLabels: bool)
    requires XPlaced(labels, accepted, m, format, showLabels) || YPlaced(labels, accepted, m, format, showLabels)
    ensures forall i | 0 <= i < |labels| && labels[i].formattedText != "" ::
              accepted[i] && labels[i].formattedText == format(labels[i].value)
    ensures !showLabels ==> forall i | 0 <= i < |labels| :: labels[i].formattedText == "" && !accepted[i]
  {
    forall i: nat | i < |labels|
      ensures labels[i].formattedText == (if accepted[i] then format(labels[i].value) else "")
      ensures accepted[i] ==> showLabels
    {
      if XPlaced(labels, accepted, m, format, showLabels) {
        assert XDecided(labels, accepted, i, m, format, showLabels);
      } else {
        assert YDecided(labels, accepted, i, m, format, showLabels);
      }
    }
  }

  /** computeYLabelsAreaSize: nothing when values are hidden; otherwise as wide as the widest
      label text (0 for no labels) and as high as the plot. */
  method ComputeYLabelsAreaSize(axisMode: AxisMode, graphHeight: real, m: FontMetrics,
                                yLabels: seq<LabelWithOffset>)
    returns (size: RasterSize)
    ensures !axisMode.ShowLabels() ==> size == EmptySize
    ensures axisMode.ShowLabels() ==> size.height == graphHeight
    ensures axisMode.ShowLabels() ==>
              forall i | 0 <= i < |yLabels| :: m.stringWidth(yLabels[i].formattedText) as real <= size.width
    ensures axisMode.ShowLabels() && |yLabels| == 0 ==> size.width == 0.0
    ensures axisMode.ShowLabels() && |yLabels| > 0 ==>
              exists i | 0 <= i < |yLabels| :: size.width == m.stringWidth(yLabels[i].formattedText) as real
  {
    if !axisMode.ShowLabels() {
      return EmptySize;
    }
    var maxLabelWidth := 0.0;
    for i := 0 to |yLabels|
      invariant forall j | 0 <= j < i :: m.stringWidth(yLabels[j].formattedText) as real <= maxLabelWidth
      invariant i == 0 ==> maxLabelWidth == 0.0
      invariant i > 0 ==> exists j | 0 <= j < i :: maxLabelWidth == m.stringWidth(yLabels[j].formattedText) as real
    {
      var currentMaxLabelWidth := m.stringWidth(yLabels[i].formattedText);
      if currentMaxLabelWidth as real > maxLabelWidth {
        maxLabelWidth := currentMaxLabelWidth as real;
      }
    }
    size := RasterSize(maxLabelWidth, graphHeight);
  }
}
