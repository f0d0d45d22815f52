/** Raster-space values shared by the layout code: sizes, points and the font-metrics oracle. */
module Raster {

  /** RasterSize.java: a width and a height. The renderer also uses it for offsets, the
      width standing for the x coordinate and the height for the y coordinate. */
  datatype RasterSize = RasterSize(width: real, height: real)

  /** RasterSize.EMPTY. */
  const EmptySize := RasterSize(0.0, 0.0)

  /** A java.awt.geom.Point2D.Double in raster space. */
  datatype Point = Point(x: real, y: real)

  /** The java.awt.FontMetrics queries the layout uses, all of which return ints in AWT.
      Text measurement is an opaque oracle: any non-negative width per string. */
  datatype FontMetrics = FontMetrics(stringWidth: string -> nat, height: nat, ascent: nat, descent: nat)
}
