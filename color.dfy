/** RGBA colours with components in [0, 1] (Color.java). */
module Colors {
  import opened Wrappers

  /** A colour; the Java record's float components are modelled as reals. */
  datatype Color = Color(red: real, green: real, blue: real, alpha: real)

  predicate InUnit(v: real) {
    0.0 <= v <= 1.0
  }

  /** The invariant the record's compact constructor establishes. */
  predicate Valid(c: Color) {
    InUnit(c.red) && InUnit(c.green) && InUnit(c.blue) && InUnit(c.alpha)
  }

  /** The compact constructor: rejects any component outside [0, 1]. */
  function NewColor(red: real, green: real, blue: real, alpha: real): (r: Result<Color, Failure>)
    ensures r.Ok? <==> InUnit(red) && InUnit(green) && InUnit(blue) && InUnit(alpha)
    ensures r.Ok? ==> Valid(r.value) && r.value == Color(red, green, blue, alpha)
    ensures r.Err? ==> r.error == IndexOutOfBounds
  {
    if red < 0.0 || red > 1.0 then Err(IndexOutOfBounds)
    else if green < 0.0 || green > 1.0 then Err(IndexOutOfBounds)
    else if blue < 0.0 || blue > 1.0 then Err(IndexOutOfBounds)
    else if alpha < 0.0 || alpha > 1.0 then Err(IndexOutOfBounds)
    else Ok(Color(red, green, blue, alpha))
  }

  /** Scales the opacity by `factor`; fails when the product leaves [0, 1]. */
  function MultiplyOpacity(c: Color, factor: real): (r: Result<Color, Failure>)
    requires Valid(c)
    ensures r.Ok? <==> InUnit(c.alpha * factor)
    ensures r.Ok? ==> Valid(r.value) && r.value == c.(alpha := c.alpha * factor)
    ensures r.Err? ==> r.error == IndexOutOfBounds
  {
    NewColor(c.red, c.green, c.blue, c.alpha * factor)
  }

  /** Replaces the opacity by `alpha`; fails when `alpha` is outside [0, 1]. */
  function OverrideOpacity(c: Color, alpha: real): (r: Result<Color, Failure>)
    requires Valid(c)
    ensures r.Ok? <==> InUnit(alpha)
    ensures r.Ok? ==> Valid(r.value) && r.value == c.(alpha := alpha)
    ensures r.Err? ==> r.error == IndexOutOfBounds
  {
    NewColor(c.red, c.green, c.blue, alpha)
  }

  /** Fading by a factor in [0, 1] always succeeds, keeps the hue and never raises opacity. */
  lemma MultiplyOpacityFades(c: Color, factor: real)
    requires Valid(c) && InUnit(factor)
    ensures MultiplyOpacity(c, factor).Ok?
    ensures var d := MultiplyOpacity(c, factor).value;
      Valid(d) && d.(alpha := c.alpha) == c && d.alpha <= c.alpha
  {
    assert 0.0 <= c.alpha * factor by {
      assert 0.0 * factor <= c.alpha * factor;
    }
    assert c.alpha * factor <= c.alpha * 1.0;
  }

  /** Multiplying the opacity by one changes nothing. */
  lemma MultiplyOpacityByOne(c: Color)
    requires Valid(c)
    ensures MultiplyOpacity(c, 1.0) == Ok(c)
  {
  }
}
