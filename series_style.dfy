/** Per-series drawing style with range-checked fields (SeriesStyle.java). */
module SeriesStyles {
  import opened Wrappers
  import opened Colors

  datatype SeriesStyle = SeriesStyle(
    color: Color,
    pointsWeight: real,
    lineWeight: real,
    areaOpacity: real,
    smoothness: real)

  /** A marker or stroke weight: 0 switches the feature off, otherwise it lies in [1, 4]. */
  predicate WeightOk(w: real) {
    w == 0.0 || (1.0 <= w && w <= 4.0)
  }

  /** The invariant the record's compact constructor establishes. */
  predicate Valid(s: SeriesStyle) {
    WeightOk(s.pointsWeight) && WeightOk(s.lineWeight) && InUnit(s.areaOpacity) && InUnit(s.smoothness)
  }

  /** The compact constructor: the four numeric fields are checked in declaration order. */
  function NewSeriesStyle(color: Color, pointsWeight: real, lineWeight: real, areaOpacity: real, smoothness: real)
    : (r: Result<SeriesStyle, Failure>)
    ensures r.Ok? <==> WeightOk(pointsWeight) && WeightOk(lineWeight) && InUnit(areaOpacity) && InUnit(smoothness)
    ensures r.Ok? ==> Valid(r.value)
    ensures r.Ok? ==>
              && r.value.color == color && r.value.pointsWeight == pointsWeight
              && r.value.lineWeight == lineWeight && r.value.areaOpacity == areaOpacity
              && r.value.smoothness == smoothness
    ensures r.Err? ==> r.error == IndexOutOfBounds
  {
    if pointsWeight != 0.0 && (pointsWeight < 1.0 || pointsWeight > 4.0) then Err(IndexOutOfBounds)
    else if lineWeight != 0.0 && (lineWeight < 1.0 || lineWeight > 4.0) then Err(IndexOutOfBounds)
    else if areaOpacity < 0.0 || areaOpacity > 1.0 then Err(IndexOutOfBounds)
    else if smoothness < 0.0 || smoothness > 1.0 then Err(IndexOutOfBounds)
    else Ok(SeriesStyle(color, pointsWeight, lineWeight, areaOpacity, smoothness))
  }

  /** A weight strictly between the "off" value 0 and the minimum 1 is refused, whatever the other fields. */
  lemma FractionalWeightRejected(color: Color, w: real, other: real, areaOpacity: real, smoothness: real)
    requires 0.0 < w < 1.0
    ensures NewSeriesStyle(color, w, other, areaOpacity, smoothness).Err?
    ensures NewSeriesStyle(color, other, w, areaOpacity, smoothness).Err?
  {
  }
}
