/** `draw3DBar`: a bar drawn as a front rectangle plus two parallelograms,
    the right face and the top face, pushed back by a fixed skew vector. */
module Extrusion {
  import Colour

  /** The skew vector: 10 to the right and 10 up. */
  const Depth: real := 10.0

  datatype Point = Point(x: real, y: real)

  /** A filled polygon, its vertices in drawing order. */
  datatype Face = Face(fill: string, vertices: seq<Point>)

  /** Everything one call to `draw3DBar` puts on the canvas: three faces and
      the value drawn centred above the bar. */
  datatype BarDrawing = BarDrawing(front: Face, right: Face, top: Face, valueText: real, valueAt: Point)

  function Skew(p: Point): (q: Point)
    ensures q.x - p.x == Depth && p.y - q.y == Depth
  {
    Point(p.x + Depth, p.y - Depth)
  }

  /** `fillRect(x, y, width, height)` as its four corners, clockwise from the
      top left. */
  function Rectangle(fill: string, x: real, y: real, width: real, height: real): (f: Face)
    ensures f.fill == fill && IsParallelogram(f) && f.vertices[0] == Point(x, y)
    ensures f.vertices[1].y == y && f.vertices[1].x - x == width
    ensures f.vertices[3].x == x && f.vertices[3].y - y == height
  {
    Face(fill, [Point(x, y), Point(x + width, y), Point(x + width, y + height), Point(x, y + height)])
  }

  /** A four-vertex face whose opposite sides are equal and parallel. */
  predicate IsParallelogram(f: Face) {
    |f.vertices| == 4 &&
    f.vertices[1].x - f.vertices[0].x == f.vertices[2].x - f.vertices[3].x &&
    f.vertices[1].y - f.vertices[0].y == f.vertices[2].y - f.vertices[3].y
  }

  /** The right face: the front's right edge and its copy pushed back by the
      skew vector. */
  function RightFace(fill: string, x: real, y: real, width: real, height: real): (f: Face)
    ensures var front := Rectangle(fill, x, y, width, height).vertices;
      f.vertices == [front[1], Skew(front[1]), Skew(front[2]), front[2]]
    ensures IsParallelogram(f)
  {
    Face(fill, [Point(x + width, y), Point(x + width + 10.0, y - 10.0),
                Point(x + width + 10.0, y + height - 10.0), Point(x + width, y + height)])
  }

  /** The top face: the front's top edge and its copy pushed back by the skew
      vector. */
  function TopFace(fill: string, x: real, y: real, width: real): (f: Face)
    ensures var front := Rectangle(fill, x, y, width, 0.0).vertices;
      f.vertices == [front[0], Skew(front[0]), Skew(front[1]), front[1]]
    ensures IsParallelogram(f)
  {
    Face(fill, [Point(x, y), Point(x + 10.0, y - 10.0), Point(x + width + 10.0, y - 10.0), Point(x + width, y)])
  }

  function Draw3DBar(x: real, y: real, width: real, height: real, color: string, value: real): (d: BarDrawing)
    requires Colour.WellFormed(color)
    ensures d.front == Rectangle(color, x, y, width, height) && IsParallelogram(d.front)
    ensures d.right.vertices == [d.front.vertices[1], Skew(d.front.vertices[1]), Skew(d.front.vertices[2]), d.front.vertices[2]]
    ensures d.top.vertices == [d.front.vertices[0], Skew(d.front.vertices[0]), Skew(d.front.vertices[1]), d.front.vertices[1]]
    ensures IsParallelogram(d.right) && IsParallelogram(d.top)
    // the top and the right face share the edge receding from the front's
    // top-right corner
    ensures d.top.vertices[3] == d.right.vertices[0] == d.front.vertices[1]
    ensures d.top.vertices[2] == d.right.vertices[1] == Skew(d.front.vertices[1])
    ensures d.right.fill == Colour.ShadeColor(color, -10.0) && d.top.fill == Colour.ShadeColor(color, 10.0)
    ensures d.valueText == value && d.valueAt == Point(x + width / 2.0, y - Depth)
  {
    var darkerColor := Colour.ShadeColor(color, -10.0);
    var lighterColor := Colour.ShadeColor(color, 10.0);
    BarDrawing(Rectangle(color, x, y, width, height),
               RightFace(darkerColor, x, y, width, height),
               TopFace(lighterColor, x, y, width),
               value, Point(x + width / 2.0, y - 10.0))
  }

  /** The top face is lighter and the right face darker than the front, channel
      by channel: the top gains 26 and the right loses 25, both saturating. */
  lemma FaceShading(x: real, y: real, width: real, height: real, color: string, value: real)
    requires Colour.WellFormed(color)
    ensures var d := Draw3DBar(x, y, width, height, color, value);
      var base, lit, dark := Colour.ColourOf(color), Colour.ColourOf(d.top.fill), Colour.ColourOf(d.right.fill);
      Colour.IsLowerHexColour(d.top.fill) && Colour.IsLowerHexColour(d.right.fill) &&
      dark.r <= base.r <= lit.r && dark.g <= base.g <= lit.g && dark.b <= base.b <= lit.b
  {
    Colour.LighterFace(color);
    Colour.DarkerFace(color);
  }
}
