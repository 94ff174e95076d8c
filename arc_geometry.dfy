/** Where the spinner's arc is drawn inside its square canvas. All lengths are
    in pixels (the density conversion happens before these functions). */
module ArcGeometry {

  datatype Offset = Offset(x: real, y: real)

  /** The stroke width, the side of the square bounding the arc's centre line,
      the canvas centre, and the top-left corner of that square. */
  datatype Arc = Arc(strokeWidth: real, arcSize: real, center: Offset, topLeft: Offset)

  /** The arc's bounding square has side `size - strokeWidth` and is placed so
      that its centre is the canvas centre. The square's corner is then half a
      stroke in from the canvas corner, and a stroke centred on the arc reaches
      exactly to the canvas edges. */
  function ArcOf(size: real, strokeWidth: real): (g: Arc)
    ensures g.strokeWidth == strokeWidth
    ensures g.arcSize + g.strokeWidth == size
    ensures g.center == Offset(size / 2.0, size / 2.0)
    ensures g.topLeft == Offset(strokeWidth / 2.0, strokeWidth / 2.0)
    ensures g.topLeft.x + g.arcSize / 2.0 == g.center.x
    ensures g.topLeft.y + g.arcSize / 2.0 == g.center.y
    ensures g.topLeft.x - strokeWidth / 2.0 == 0.0
    ensures g.topLeft.x + g.arcSize + strokeWidth / 2.0 == size
    ensures 0.0 <= strokeWidth <= size ==>
              0.0 <= g.topLeft.x && g.topLeft.x + g.arcSize <= size
              && 0.0 <= g.topLeft.y && g.topLeft.y + g.arcSize <= size
  {
    var arcSize := size - strokeWidth;
    var center := Offset(size / 2.0, size / 2.0);
    Arc(strokeWidth, arcSize, center, Offset(center.x - arcSize / 2.0, center.y - arcSize / 2.0))
  }
}
