/** Shapes: cloning and the shape lists of documents and groups. */
module ShapeList {
  import opened Optional
  import opened Model
  import NodeList
  import PathList

  /**
   * `clone_shape`.  Every variant is rebuilt with the same fields and a
   * cloned style, except that the ellipse passes `center_y` where `radius_y`
   * belongs, so a cloned ellipse has radiusY == centerY.
   */
  function CloneShape(s: Shape): (c: Shape)
    ensures c.style == CloneStyle(s.style)
    ensures s.Ellipse? ==> c == Ellipse(s.centerX, s.centerY, s.radiusX, s.centerY, CloneStyle(s.style))
    ensures s.Rectangle? ==> c == Rectangle(s.x, s.y, s.width, s.height, CloneStyle(s.style))
    ensures s.Line? ==> c == Line(s.start, s.end, CloneStyle(s.style))
    ensures s.Multiline? ==> c == Multiline(s.points, CloneStyle(s.style))
    ensures s.Polygon? ==> c == Polygon(s.points, CloneStyle(s.style))
    ensures s.Path? ==> c == Path(s.elements, CloneStyle(s.style))
    ensures s.Group? ==> c.Group? && |c.shapes| == |s.shapes|
    ensures s.Group? ==> forall i | 0 <= i < |s.shapes| :: c.shapes[i] == CloneShape(s.shapes[i])
    decreases s
  {
    match s
    case Ellipse(cx, cy, rx, _, st) => Ellipse(cx, cy, rx, cy, CloneStyle(st))
    case Rectangle(x, y, w, h, st) => Rectangle(x, y, w, h, CloneStyle(st))
    case Line(a, b, st) => Line(Point(a.x, a.y), Point(b.x, b.y), CloneStyle(st))
    case Multiline(pts, st) => Multiline(pts, CloneStyle(st))
    case Polygon(pts, st) => Polygon(pts, CloneStyle(st))
    case Path(els, st) => Path(els, CloneStyle(st))
    case Group(children, st) => Group(CloneShapes(children), CloneStyle(st))
  }

  /** `clone_shape_list`: each shape cloned, in order. */
  function CloneShapes(shapes: seq<Shape>): (c: seq<Shape>)
    ensures |c| == |shapes|
    ensures forall i | 0 <= i < |shapes| :: c[i] == CloneShape(shapes[i])
    decreases shapes
  {
    if |shapes| == 0 then [] else [CloneShape(shapes[0])] + CloneShapes(shapes[1..])
  }

  /** A shape that cloning reproduces: every ellipse has radiusY == centerY and every rotation is reduced. */
  predicate CloneStable(s: Shape)
    decreases s
  {
    && Reduced(s.style.rotate)
    && (s.Ellipse? ==> s.radiusY == s.centerY)
    && (s.Group? ==> forall i | 0 <= i < |s.shapes| :: CloneStable(s.shapes[i]))
  }

  /** Cloning gives back an equal shape exactly when the shape is clone-stable. */
  lemma {:induction false} CloneShapeExact(s: Shape)
    ensures CloneShape(s) == s <==> CloneStable(s)
    decreases s
  {
    if s.Group? {
      forall i | 0 <= i < |s.shapes| {
        CloneShapeExact(s.shapes[i]);
      }
      if CloneStable(s) {
        assert CloneShapes(s.shapes) == s.shapes;
      }
    }
  }

  /** An ellipse with distinct radii does not survive cloning. */
  lemma CloneEllipseLosesRadius(st: Style)
    requires Reduced(st.rotate)
    ensures CloneShape(Ellipse(0, 5, 3, 3, st)) == Ellipse(0, 5, 3, 5, st)
  {
  }

  /** `insert_shape_node_at`: unlike the point lists, a rejected index returns the list unchanged. */
  method InsertShapeAt(shapes: seq<Shape>, index: int, s: Shape) returns (r: seq<Shape>)
    requires index < 0 || |shapes| > 0
    ensures index < 0 || index >= |shapes| ==> r == shapes
    ensures index == 0 ==> r == [s] + shapes
    ensures 1 <= index < |shapes| ==> |r| == |shapes| + 1 && r[index + 1] == s
    ensures 1 <= index < |shapes| ==> r[..index + 1] == shapes[..index + 1] && r[index + 2..] == shapes[index + 1..]
  {
    var o := NodeList.InsertAt(shapes, index, s);
    r := o.GetOr(shapes);
  }

  /** `remove_shape_node_at`: unlike the point lists, a negative index yields NULL (the empty list). */
  method RemoveShapeAt(shapes: seq<Shape>, index: int) returns (r: seq<Shape>)
    requires index < 0 || |shapes| > 0
    ensures index < 0 ==> r == []
    ensures index >= |shapes| ==> r == shapes
    ensures 0 <= index < |shapes| ==> |r| == |shapes| - 1
    ensures 0 <= index < |shapes| ==> r[..index] == shapes[..index] && r[index..] == shapes[index + 1..]
  {
    var o := NodeList.RemoveAt(shapes, index);
    r := o.GetOr([]);
  }
}
