/** The data extent of a chart: per-series minima and maxima, merged component-wise and
    optionally widened to contain zero (GraphBounds.java). */
module Bounds {
  import opened Wrappers
  import opened Series

  datatype GraphBounds = GraphBounds(minX: real, minY: real, maxX: real, maxY: real)

  /** The value returned for "no data". */
  const Empty := GraphBounds(0.0, 0.0, 0.0, 0.0)

  predicate WellFormed(b: GraphBounds) {
    b.minX <= b.maxX && b.minY <= b.maxY
  }

  /** `b` covers the point (x, y). */
  predicate Contains(b: GraphBounds, x: real, y: real) {
    b.minX <= x <= b.maxX && b.minY <= y <= b.maxY
  }

  function Min(a: real, b: real): real { if a <= b then a else b }
  function Max(a: real, b: real): real { if a >= b then a else b }

  // Projections used as fold keys.
  function MinXOf(b: GraphBounds): real { b.minX }
  function MinYOf(b: GraphBounds): real { b.minY }
  function MaxXOf(b: GraphBounds): real { b.maxX }
  function MaxYOf(b: GraphBounds): real { b.maxY }
  function XOf(v: Vertex): real { v.x }
  function YOf(v: Vertex): real { v.y }

  /** The smallest key in `s`, folded from the left as the Java loops do: an element replaces
      the running minimum only when it is strictly smaller. */
  function Least<T>(s: seq<T>, key: T -> real): real
    requires |s| > 0
    decreases |s|
  {
    if |s| == 1 then key(s[0])
    else
      var m := Least(s[..|s| - 1], key);
      if m > key(s[|s| - 1]) then key(s[|s| - 1]) else m
  }

  /** The largest key in `s`, folded from the left. */
  function Greatest<T>(s: seq<T>, key: T -> real): real
    requires |s| > 0
    decreases |s|
  {
    if |s| == 1 then key(s[0])
    else
      var m := Greatest(s[..|s| - 1], key);
      if m < key(s[|s| - 1]) then key(s[|s| - 1]) else m
  }

  /** Least is a minimum: no key is smaller and some element attains it. */
  lemma {:induction false} LeastIsMinimum<T>(s: seq<T>, key: T -> real)
    requires |s| > 0
    ensures forall i | 0 <= i < |s| :: Least(s, key) <= key(s[i])
    ensures exists i | 0 <= i < |s| :: Least(s, key) == key(s[i])
    decreases |s|
  {
    if |s| > 1 {
      var init := s[..|s| - 1];
      LeastIsMinimum(init, key);
      assert forall i | 0 <= i < |init| :: init[i] == s[i];
      var j :| 0 <= j < |init| && Least(init, key) == key(init[j]);
      if Least(init, key) > key(s[|s| - 1]) {
        assert Least(s, key) == key(s[|s| - 1]);
      } else {
        assert Least(s, key) == key(s[j]);
      }
    } else {
      assert Least(s, key) == key(s[0]);
    }
  }

  /** Greatest is a maximum: no key is larger and some element attains it. */
  lemma {:induction false} GreatestIsMaximum<T>(s: seq<T>, key: T -> real)
    requires |s| > 0
    ensures forall i | 0 <= i < |s| :: key(s[i]) <= Greatest(s, key)
    ensures exists i | 0 <= i < |s| :: Greatest(s, key) == key(s[i])
    decreases |s|
  {
    if |s| > 1 {
      var init := s[..|s| - 1];
      GreatestIsMaximum(init, key);
      assert forall i | 0 <= i < |init| :: init[i] == s[i];
      var j :| 0 <= j < |init| && Greatest(init, key) == key(init[j]);
      if Greatest(init, key) < key(s[|s| - 1]) {
        assert Greatest(s, key) == key(s[|s| - 1]);
      } else {
        assert Greatest(s, key) == key(s[j]);
      }
    } else {
      assert Greatest(s, key) == key(s[0]);
    }
  }

  /** One more loop step: the fold over `s + [x]` compares the previous extreme with `x`. */
  lemma LeastSnoc<T>(s: seq<T>, x: T, key: T -> real)
    ensures Least(s + [x], key) == if |s| == 0 then key(x) else if Least(s, key) > key(x) then key(x) else Least(s, key)
  {
    assert (s + [x])[..|s|] == s;
  }

  lemma GreatestSnoc<T>(s: seq<T>, x: T, key: T -> real)
    ensures Greatest(s + [x], key) == if |s| == 0 then key(x) else if Greatest(s, key) < key(x) then key(x) else Greatest(s, key)
  {
    assert (s + [x])[..|s|] == s;
  }

  /** adjustZero: when an axis flag is set, widens that axis just enough to contain 0. */
  function AdjustZero(b: GraphBounds, showZeroX: bool, showZeroY: bool): (r: GraphBounds)
    ensures showZeroX ==> r.minX <= 0.0 <= r.maxX && r.minX <= b.minX && b.maxX <= r.maxX
    ensures showZeroX ==> (r.minX == b.minX || r.minX == 0.0) && (r.maxX == b.maxX || r.maxX == 0.0)
    ensures !showZeroX ==> r.minX == b.minX && r.maxX == b.maxX
    ensures showZeroY ==> r.minY <= 0.0 <= r.maxY && r.minY <= b.minY && b.maxY <= r.maxY
    ensures showZeroY ==> (r.minY == b.minY || r.minY == 0.0) && (r.maxY == b.maxY || r.maxY == 0.0)
    ensures !showZeroY ==> r.minY == b.minY && r.maxY == b.maxY
  {
    var minY := if showZeroY then Min(0.0, b.minY) else b.minY;
    var maxY := if showZeroY then Max(0.0, b.maxY) else b.maxY;
    var minX := if showZeroX then Min(0.0, b.minX) else b.minX;
    var maxX := if showZeroX then Max(0.0, b.maxX) else b.maxX;
    GraphBounds(minX, minY, maxX, maxY)
  }

  /** Specification of merge: Empty for no entries, otherwise the component-wise extremes. */
  function Merged(list: seq<GraphBounds>): (r: GraphBounds)
    ensures |list| == 0 ==> r == Empty
    ensures forall i | 0 <= i < |list| ::
              r.minX <= list[i].minX && r.minY <= list[i].minY && list[i].maxX <= r.maxX && list[i].maxY <= r.maxY
    ensures |list| > 0 ==> exists i | 0 <= i < |list| :: r.minX == list[i].minX
    ensures |list| > 0 ==> exists i | 0 <= i < |list| :: r.minY == list[i].minY
    ensures |list| > 0 ==> exists i | 0 <= i < |list| :: r.maxX == list[i].maxX
    ensures |list| > 0 ==> exists i | 0 <= i < |list| :: r.maxY == list[i].maxY
  {
    if |list| == 0 then Empty
    else
      LeastIsMinimum(list, MinXOf);
      LeastIsMinimum(list, MinYOf);
      GreatestIsMaximum(list, MaxXOf);
      GreatestIsMaximum(list, MaxYOf);
      GraphBounds(Least(list, MinXOf), Least(list, MinYOf), Greatest(list, MaxXOf), Greatest(list, MaxYOf))
  }

  /** merge, as the Java loop runs it; the ±Double.MAX_VALUE starting values become None. */
  method Merge(list: seq<GraphBounds>) returns (r: GraphBounds)
    ensures r == Merged(list)
  {
    var minX: Option<real> := None;
    var minY: Option<real> := None;
    var maxX: Option<real> := None;
    var maxY: Option<real> := None;
    var empty := true;
    for i := 0 to |list|
      invariant empty <==> i == 0
      invariant empty ==> minX.None? && minY.None? && maxX.None? && maxY.None?
      invariant !empty ==> minX == Some(Least(list[..i], MinXOf)) && minY == Some(Least(list[..i], MinYOf))
      invariant !empty ==> maxX == Some(Greatest(list[..i], MaxXOf)) && maxY == Some(Greatest(list[..i], MaxYOf))
    {
      var b := list[i];
      assert list[..i + 1] == list[..i] + [b];
      LeastSnoc(list[..i], b, MinXOf);
      LeastSnoc(list[..i], b, MinYOf);
      GreatestSnoc(list[..i], b, MaxXOf);
      GreatestSnoc(list[..i], b, MaxYOf);
      if minX.None? || minX.value > b.minX {
        minX := Some(b.minX);
      }
      if maxX.None? || maxX.value < b.maxX {
        maxX := Some(b.maxX);
      }
      if minY.None? || minY.value > b.minY {
        minY := Some(b.minY);
      }
      if maxY.None? || maxY.value < b.maxY {
        maxY := Some(b.maxY);
      }
      empty := false;
    }
    assert list[..|list|] == list;
    if empty {
      r := Empty;
    } else {
      r := GraphBounds(minX.value, minY.value, maxX.value, maxY.value);
    }
  }

  /** Specification of fromSeriesData for one series: Empty when it has no vertices, otherwise
      the extremes of its vertices, widened to zero as the flags ask. */
  function SeriesBounds(series: SeriesData, showZeroX: bool, showZeroY: bool): (r: GraphBounds)
    ensures |series.vertices| == 0 ==> r == Empty
    ensures WellFormed(r)
  {
    var vs := series.vertices;
    if |vs| == 0 then Empty
    else
      LeastIsMinimum(vs, XOf);
      LeastIsMinimum(vs, YOf);
      GreatestIsMaximum(vs, XOf);
      GreatestIsMaximum(vs, YOf);
      AdjustZero(GraphBounds(Least(vs, XOf), Least(vs, YOf), Greatest(vs, XOf), Greatest(vs, YOf)), showZeroX, showZeroY)
  }

  /** Every vertex of a series lies inside that series' bounds, whatever the flags. */
  lemma SeriesBoundsContainVertices(series: SeriesData, showZeroX: bool, showZeroY: bool)
    ensures forall v | v in series.vertices :: Contains(SeriesBounds(series, showZeroX, showZeroY), v.x, v.y)
  {
    var vs := series.vertices;
    if |vs| > 0 {
      LeastIsMinimum(vs, XOf);
      LeastIsMinimum(vs, YOf);
      GreatestIsMaximum(vs, XOf);
      GreatestIsMaximum(vs, YOf);
    }
    forall v | v in vs
      ensures Contains(SeriesBounds(series, showZeroX, showZeroY), v.x, v.y)
    {
      var i :| 0 <= i < |vs| && vs[i] == v;
      assert XOf(vs[i]) == v.x && YOf(vs[i]) == v.y;
    }
  }

  /** Without zero widening the bounds of a non-empty series are tight: each of the four is
      attained by some vertex. */
  lemma SeriesBoundsAttained(series: SeriesData)
    requires |series.vertices| > 0
    ensures var r := SeriesBounds(series, false, false);
      && (exists v | v in series.vertices :: v.x == r.minX)
      && (exists v | v in series.vertices :: v.x == r.maxX)
      && (exists v | v in series.vertices :: v.y == r.minY)
      && (exists v | v in series.vertices :: v.y == r.maxY)
  {
    var vs := series.vertices;
    var r := SeriesBounds(series, false, false);
    LeastIsMinimum(vs, XOf);
    LeastIsMinimum(vs, YOf);
    GreatestIsMaximum(vs, XOf);
    GreatestIsMaximum(vs, YOf);
    var a :| 0 <= a < |vs| && Least(vs, XOf) == XOf(vs[a]);
    var b :| 0 <= b < |vs| && Greatest(vs, XOf) == XOf(vs[b]);
    var c :| 0 <= c < |vs| && Least(vs, YOf) == YOf(vs[c]);
    var d :| 0 <= d < |vs| && Greatest(vs, YOf) == YOf(vs[d]);
    assert vs[a] in vs && vs[a].x == r.minX;
    assert vs[b] in vs && vs[b].x == r.maxX;
    assert vs[c] in vs && vs[c].y == r.minY;
    assert vs[d] in vs && vs[d].y == r.maxY;
  }

  /** fromSeriesData for one series, as the Java loop runs it. */
  method FromSeries(series: SeriesData, showZeroX: bool, showZeroY: bool) returns (r: GraphBounds)
    ensures r == SeriesBounds(series, showZeroX, showZeroY)
  {
    var vs := series.vertices;
    var minX: Option<real> := None;
    var minY: Option<real> := None;
    var maxX: Option<real> := None;
    var maxY: Option<real> := None;
    var empty := true;
    for i := 0 to |vs|
      invariant empty <==> i == 0
      invariant empty ==> minX.None? && minY.None? && maxX.None? && maxY.None?
      invariant !empty ==> minX == Some(Least(vs[..i], XOf)) && minY == Some(Least(vs[..i], YOf))
      invariant !empty ==> maxX == Some(Greatest(vs[..i], XOf)) && maxY == Some(Greatest(vs[..i], YOf))
    {
      var v := vs[i];
      assert vs[..i + 1] == vs[..i] + [v];
      LeastSnoc(vs[..i], v, XOf);
      LeastSnoc(vs[..i], v, YOf);
      GreatestSnoc(vs[..i], v, XOf);
      GreatestSnoc(vs[..i], v, YOf);
      if minX.None? || minX.value > v.x {
        minX := Some(v.x);
      }
      if maxX.None? || maxX.value < v.x {
        maxX := Some(v.x);
      }
      if minY.None? || minY.value > v.y {
        minY := Some(v.y);
      }
      if maxY.None? || maxY.value < v.y {
        maxY := Some(v.y);
      }
      empty := false;
    }
    assert vs[..|vs|] == vs;
    if empty {
      r := Empty;
    } else {
      var raw := GraphBounds(minX.value, minY.value, maxX.value, maxY.value);
      assert raw == GraphBounds(Least(vs, XOf), Least(vs, YOf), Greatest(vs, XOf), Greatest(vs, YOf));
      r := AdjustZero(raw, showZeroX, showZeroY);
    }
  }

  /** The per-series bounds, in series order, that fromSeriesData(List, ...) merges. */
  function PerSeriesBounds(list: seq<SeriesData>, showZeroX: bool, showZeroY: bool): (r: seq<GraphBounds>)
    ensures |r| == |list|
    ensures forall i | 0 <= i < |list| :: r[i] == SeriesBounds(list[i], showZeroX, showZeroY)
  {
    seq(|list|, i requires 0 <= i < |list| => SeriesBounds(list[i], showZeroX, showZeroY))
  }

  /** fromSeriesData(List, ...): every series' bounds, merged, then widened to zero once more.
      Empty series are not filtered out: each contributes Empty to the merge. */
  function FromSeriesList(list: seq<SeriesData>, includeOriginX: bool, includeOriginY: bool): (r: GraphBounds)
    ensures |list| == 0 ==> r == Empty
    ensures WellFormed(r)
    ensures includeOriginX ==> r.minX <= 0.0 <= r.maxX
    ensures includeOriginY ==> r.minY <= 0.0 <= r.maxY
  {
    MergeWellFormed(PerSeriesBounds(list, includeOriginX, includeOriginY));
    AdjustZero(Merged(PerSeriesBounds(list, includeOriginX, includeOriginY)), includeOriginX, includeOriginY)
  }

  /** Merging well-formed bounds gives well-formed bounds. */
  lemma MergeWellFormed(list: seq<GraphBounds>)
    requires forall i | 0 <= i < |list| :: WellFormed(list[i])
    ensures WellFormed(Merged(list))
  {
    if |list| > 0 {
      var r := Merged(list);
      var i :| 0 <= i < |list| && r.minX == list[i].minX;
      var j :| 0 <= j < |list| && r.minY == list[j].minY;
      assert r.minX <= list[i].maxX <= r.maxX;
      assert r.minY <= list[j].maxY <= r.maxY;
    }
  }

  /** Widening to zero a second time changes nothing. */
  lemma AdjustZeroIdempotent(b: GraphBounds, showZeroX: bool, showZeroY: bool)
    ensures AdjustZero(AdjustZero(b, showZeroX, showZeroY), showZeroX, showZeroY) == AdjustZero(b, showZeroX, showZeroY)
  {
  }

  /** Folding keys that were each floored at zero (or left alone) gives the floored (or
      unchanged) fold of the original keys. */
  lemma {:induction false} LeastPointwise<S, T>(s: seq<S>, ks: S -> real, t: seq<T>, kt: T -> real, floor: bool)
    requires |s| == |t| > 0
    requires forall i | 0 <= i < |s| :: ks(s[i]) == if floor then Min(0.0, kt(t[i])) else kt(t[i])
    ensures Least(s, ks) == if floor then Min(0.0, Least(t, kt)) else Least(t, kt)
    decreases |s|
  {
    if |s| > 1 {
      var n := |s| - 1;
      assert forall i | 0 <= i < n :: s[..n][i] == s[i] && t[..n][i] == t[i];
      LeastPointwise(s[..n], ks, t[..n], kt, floor);
    }
  }

  /** The same for the maximum, with keys raised to zero. */
  lemma {:induction false} GreatestPointwise<S, T>(s: seq<S>, ks: S -> real, t: seq<T>, kt: T -> real, ceil: bool)
    requires |s| == |t| > 0
    requires forall i | 0 <= i < |s| :: ks(s[i]) == if ceil then Max(0.0, kt(t[i])) else kt(t[i])
    ensures Greatest(s, ks) == if ceil then Max(0.0, Greatest(t, kt)) else Greatest(t, kt)
    decreases |s|
  {
    if |s| > 1 {
      var n := |s| - 1;
      assert forall i | 0 <= i < n :: s[..n][i] == s[i] && t[..n][i] == t[i];
      GreatestPointwise(s[..n], ks, t[..n], kt, ceil);
    }
  }

  /** Widening every series to zero before the merge and once more after it gives the same
      bounds as one widening of the merged raw extents. */
  lemma {:induction false} AdjustOnceSuffices(list: seq<SeriesData>, includeOriginX: bool, includeOriginY: bool)
    ensures FromSeriesList(list, includeOriginX, includeOriginY)
         == AdjustZero(Merged(PerSeriesBounds(list, false, false)), includeOriginX, includeOriginY)
  {
    var a := PerSeriesBounds(list, includeOriginX, includeOriginY);
    var b := PerSeriesBounds(list, false, false);
    if |list| > 0 {
      forall i | 0 <= i < |list|
        ensures a[i] == AdjustZero(b[i], includeOriginX, includeOriginY)
      {
      }
      LeastPointwise(a, MinXOf, b, MinXOf, includeOriginX);
      LeastPointwise(a, MinYOf, b, MinYOf, includeOriginY);
      GreatestPointwise(a, MaxXOf, b, MaxXOf, includeOriginX);
      GreatestPointwise(a, MaxYOf, b, MaxYOf, includeOriginY);
    }
  }

  /** Every vertex of every series lies inside the combined bounds. */
  lemma FromSeriesListContainsAll(list: seq<SeriesData>, includeOriginX: bool, includeOriginY: bool)
    ensures forall i, v | 0 <= i < |list| && v in list[i].vertices ::
              Contains(FromSeriesList(list, includeOriginX, includeOriginY), v.x, v.y)
  {
    var per := PerSeriesBounds(list, includeOriginX, includeOriginY);
    var m := Merged(per);
    forall i, v | 0 <= i < |list| && v in list[i].vertices
      ensures Contains(FromSeriesList(list, includeOriginX, includeOriginY), v.x, v.y)
    {
      SeriesBoundsContainVertices(list[i], includeOriginX, includeOriginY);
      assert Contains(per[i], v.x, v.y);
      assert Contains(m, v.x, v.y);
    }
  }

  /** Because empty series are merged as Empty = (0, 0, 0, 0), one empty series is enough to
      pull 0 into both ranges of the result. */
  lemma EmptySeriesPullsToZero(list: seq<SeriesData>, k: nat, includeOriginX: bool, includeOriginY: bool)
    requires k < |list| && |list[k].vertices| == 0
    ensures var r := FromSeriesList(list, includeOriginX, includeOriginY);
      r.minX <= 0.0 <= r.maxX && r.minY <= 0.0 <= r.maxY
  {
    var per := PerSeriesBounds(list, includeOriginX, includeOriginY);
    assert per[k] == Empty;
  }

  // ---- Worked examples ----

  /** Two series (1,2),(3,4) and (-1,0),(5,9), no zero widening: (-1, 0, 5, 9). */
  lemma TwoSeriesExample()
    ensures FromSeriesList([SeriesData([Vertex(1.0, 2.0), Vertex(3.0, 4.0)], true, "a", true),
                            SeriesData([Vertex(-1.0, 0.0), Vertex(5.0, 9.0)], true, "b", true)], false, false)
         == GraphBounds(-1.0, 0.0, 5.0, 9.0)
  {
    var s1 := SeriesData([Vertex(1.0, 2.0), Vertex(3.0, 4.0)], true, "a", true);
    var s2 := SeriesData([Vertex(-1.0, 0.0), Vertex(5.0, 9.0)], true, "b", true);
    var b1 := SeriesBounds(s1, false, false);
    var b2 := SeriesBounds(s2, false, false);
    assert s1.vertices[..1] == [Vertex(1.0, 2.0)];
    assert s2.vertices[..1] == [Vertex(-1.0, 0.0)];
    assert b1 == GraphBounds(1.0, 2.0, 3.0, 4.0);
    assert b2 == GraphBounds(-1.0, 0.0, 5.0, 9.0);
    var per := PerSeriesBounds([s1, s2], false, false);
    assert per == [b1, b2];
    assert per[..1] == [b1];
  }

  /** An empty series is merged, not skipped: adding one to (1,2),(3,4) moves the minima to 0. */
  lemma EmptySeriesExample()
    ensures FromSeriesList([SeriesData([Vertex(1.0, 2.0), Vertex(3.0, 4.0)], true, "a", true),
                            SeriesData([], true, "empty", true)], false, false)
         == GraphBounds(0.0, 0.0, 3.0, 4.0)
  {
    var s1 := SeriesData([Vertex(1.0, 2.0), Vertex(3.0, 4.0)], true, "a", true);
    var s2 := SeriesData([], true, "empty", true);
    var b1 := SeriesBounds(s1, false, false);
    assert s1.vertices[..1] == [Vertex(1.0, 2.0)];
    assert b1 == GraphBounds(1.0, 2.0, 3.0, 4.0);
    var per := PerSeriesBounds([s1, s2], false, false);
    assert per == [b1, Empty];
    assert per[..1] == [b1];
  }
}
