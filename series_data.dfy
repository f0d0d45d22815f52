/** One data series: its vertices, how it is drawn and its legend entry (SeriesData.java). */
module Series {

  /** A data point; the repository's Vertex record is a pair of doubles. */
  datatype Vertex = Vertex(x: real, y: real)

  datatype SeriesData = SeriesData(vertices: seq<Vertex>, isFunction: bool, name: string, showInLegend: bool)

  /** java.lang.Character.isWhitespace: the ASCII controls TAB..CR and FS..US, and the Unicode
      space, line and paragraph separators except the non-breaking spaces U+00A0, U+2007, U+202F. */
  predicate IsWhitespace(c: char) {
    var n := c as int;
    (0x09 <= n <= 0x0D) || (0x1C <= n <= 0x20)
    || n == 0x1680 || (0x2000 <= n <= 0x2006) || (0x2008 <= n <= 0x200A)
    || n == 0x2028 || n == 0x2029 || n == 0x205F || n == 0x3000
  }

  /** java.lang.String.isBlank: empty or whitespace only. */
  predicate IsBlank(s: string) {
    forall i | 0 <= i < |s| :: IsWhitespace(s[i])
  }

  /** The invariant the compact constructor establishes: a blank name is never in the legend. */
  predicate Canonical(s: SeriesData) {
    s.showInLegend ==> !IsBlank(s.name)
  }

  /** The canonical constructor, which clears `showInLegend` for a blank name. */
  function NewSeriesData(vertices: seq<Vertex>, isFunction: bool, name: string, showInLegend: bool): (r: SeriesData)
    ensures r.showInLegend <==> showInLegend && !IsBlank(name)
    ensures r.vertices == vertices && r.isFunction == isFunction && r.name == name
    ensures Canonical(r)
  {
    SeriesData(vertices, isFunction, name, showInLegend && !IsBlank(name))
  }

  /** The three-argument constructor: the series is in the legend exactly when its name is not blank. */
  function NewNamedSeries(vertices: seq<Vertex>, isFunction: bool, name: string): (r: SeriesData)
    ensures r.showInLegend <==> !IsBlank(name)
    ensures r.vertices == vertices && r.isFunction == isFunction && r.name == name
  {
    NewSeriesData(vertices, isFunction, name, true)
  }

  /** Whatever flag is passed, a blank name keeps the series out of the legend. */
  lemma BlankNeverInLegend(vertices: seq<Vertex>, isFunction: bool, name: string, showInLegend: bool)
    requires IsBlank(name)
    ensures !NewSeriesData(vertices, isFunction, name, showInLegend).showInLegend
  {
  }

  /** Rebuilding a record from its own fields gives the same record. */
  lemma RebuildIsIdentity(s: SeriesData)
    requires Canonical(s)
    ensures NewSeriesData(s.vertices, s.isFunction, s.name, s.showInLegend) == s
  {
  }

  // ---- Worked examples ----

  /** Names made of spaces, tabs or line breaks count as blank; a visible character does not. */
  lemma BlankExamples()
    ensures IsBlank("") && IsBlank(" \t\n")
    ensures !IsBlank(" a ")
  {
    assert !IsWhitespace(" a "[1]);
  }
}
