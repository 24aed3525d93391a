/**
 * The document model: the C tagged unions become datatypes, and every
 * `int` field is a 32-bit `Int32`.  The C constructors (`new_rectangle`,
 * `new_move_to`, ...) are the datatype constructors themselves, each taking
 * its fields in the C argument order; the `free_*` functions have no
 * counterpart, since values are immutable and not owned.
 */
module Model {
  import opened CInt
  import opened Text

  type Byte = b: int | 0 <= b < 256

  datatype Point = Point(x: Int32, y: Int32)

  /** `color_t`; the C field `transparent` is the alpha channel. */
  datatype Color = Color(red: Byte, green: Byte, blue: Byte, alpha: Byte)

  datatype Rotate = FlipX | FlipY | Circular(degree: Int32)

  datatype Style = Style(fill: Color, outline: Color, translate: Point, rotate: Rotate)

  /** The path commands of section 8.3 of SVG 1.1, with integer operands only. */
  datatype PathElement =
    | MoveTo(to: Point)
    | LineTo(to: Point)
    | HorizontalLineTo(position: Int32)
    | VerticalLineTo(position: Int32)
    | CubicCurveTo(control1: Point, control2: Point, end: Point)
    | CubicCurveToShorthand(control: Point, end: Point)
    | QuadraticCurveTo(control: Point, end: Point)
    | QuadraticCurveToShorthand(end: Point)
    | EndPath

  /** The upper-case letter that introduces each command in the `data` attribute. */
  function Letter(e: PathElement): (c: char)
    ensures 'A' <= c <= 'Z'
  {
    match e
    case MoveTo(_) => 'M'
    case LineTo(_) => 'L'
    case HorizontalLineTo(_) => 'H'
    case VerticalLineTo(_) => 'V'
    case CubicCurveTo(_, _, _) => 'C'
    case CubicCurveToShorthand(_, _) => 'S'
    case QuadraticCurveTo(_, _) => 'Q'
    case QuadraticCurveToShorthand(_) => 'T'
    case EndPath => 'Z'
  }

  /** Each command has its own letter. */
  lemma LetterCases(e: PathElement)
    ensures e.MoveTo? <==> Letter(e) == 'M'
    ensures e.LineTo? <==> Letter(e) == 'L'
    ensures e.HorizontalLineTo? <==> Letter(e) == 'H'
    ensures e.VerticalLineTo? <==> Letter(e) == 'V'
    ensures e.CubicCurveTo? <==> Letter(e) == 'C'
    ensures e.CubicCurveToShorthand? <==> Letter(e) == 'S'
    ensures e.QuadraticCurveTo? <==> Letter(e) == 'Q'
    ensures e.QuadraticCurveToShorthand? <==> Letter(e) == 'T'
    ensures e.EndPath? <==> Letter(e) == 'Z'
  {
  }

  datatype Shape =
    | Ellipse(centerX: Int32, centerY: Int32, radiusX: Int32, radiusY: Int32, style: Style)
    | Rectangle(x: Int32, y: Int32, width: Int32, height: Int32, style: Style)
    | Line(start: Point, end: Point, style: Style)
    | Multiline(points: seq<Point>, style: Style)
    | Polygon(points: seq<Point>, style: Style)
    | Path(elements: seq<PathElement>, style: Style)
    | Group(shapes: seq<Shape>, style: Style)

  datatype Viewport = Viewport(start: Point, end: Point)

  datatype Svg = Svg(viewport: Viewport, shapes: seq<Shape>)

  /** `new_default_color`: opaque black.  The header documents (0, 0, 0, 0) instead. */
  const DEFAULT_COLOR: Color := Color(0, 0, 0, 255)

  /** `new_circular`: the degree reduced by C's truncating `% 360`, keeping its sign. */
  function NewCircular(degree: Int32): (r: Rotate)
    ensures r.Circular? && -360 < r.degree < 360
    ensures degree >= 0 ==> r.degree >= 0
    ensures degree <= 0 ==> r.degree <= 0
    ensures (degree - r.degree) % 360 == 0
  {
    Circular(CRem360(degree))
  }

  /** A rotation `new_circular` can produce: flips, and degrees strictly inside (-360, 360). */
  predicate Reduced(r: Rotate)
  {
    r.Circular? ==> -360 < r.degree < 360
  }

  /** 370 degrees becomes 10, and -1 stays -1 (C keeps the sign of the dividend). */
  lemma NewCircularExamples()
    ensures NewCircular(370) == Circular(10)
    ensures NewCircular(-1) == Circular(-1)
    ensures NewCircular(-370) == Circular(-10)
  {
  }

  /** Reducing an already reduced degree changes nothing. */
  lemma {:induction false} NewCircularIdempotent(degree: Int32)
    ensures NewCircular(NewCircular(degree).degree) == NewCircular(degree)
  {
    CRem360Idempotent(degree);
  }

  /** `clone_rotate`: flips are rebuilt; a circular degree goes through `new_circular` again. */
  function CloneRotate(r: Rotate): (c: Rotate)
    ensures c.FlipX? == r.FlipX? && c.FlipY? == r.FlipY? && c.Circular? == r.Circular?
    ensures Reduced(c)
    ensures Reduced(r) ==> c == r
  {
    match r
    case FlipX => FlipX
    case FlipY => FlipY
    case Circular(d) =>
      CRem360Unique(d, if -360 < d < 360 then d else CRem360(d));
      NewCircular(d)
  }

  /** `new_default_style`: default colours, no translation, no rotation. */
  function DefaultStyle(): (s: Style)
    ensures s.fill == s.outline == DEFAULT_COLOR
    ensures s.translate == Point(0, 0) && s.rotate == Circular(0)
  {
    Style(DEFAULT_COLOR, DEFAULT_COLOR, Point(0, 0), NewCircular(0))
  }

  /** `clone_style`: a field-by-field copy, with the rotation cloned through `clone_rotate`. */
  function CloneStyle(s: Style): (c: Style)
    ensures c.fill == s.fill && c.outline == s.outline && c.translate == s.translate
    ensures Reduced(c.rotate)
    ensures Reduced(s.rotate) ==> c == s
  {
    Style(s.fill, s.outline, s.translate, CloneRotate(s.rotate))
  }

  /** `ellipse_to_string`; the header of the format keeps the source's spelling. */
  function EllipseToString(e: Shape): string
    requires e.Ellipse?
  {
    "Ellispe { X=" + IntToString(e.centerX) + " Y=" + IntToString(e.centerY)
    + " Width=" + IntToString(e.radiusX) + " Height=" + IntToString(e.radiusY) + " }"
  }

  /** The `*_to_string` helpers of the path commands that have one. */
  function PathElementToString(e: PathElement): (s: string)
    requires e.MoveTo? || e.LineTo? || e.VerticalLineTo? || e.HorizontalLineTo? || e.EndPath?
  {
    match e
    case MoveTo(p) => "Move to { M " + IntToString(p.x) + " " + IntToString(p.y) + " }"
    case LineTo(p) => "Line { L " + IntToString(p.x) + " " + IntToString(p.y) + " }"
    case VerticalLineTo(n) => "Vertical line { V " + IntToString(n) + " }"
    case HorizontalLineTo(n) => "Horizontal line { H " + IntToString(n) + " }"
    case EndPath => "End of path { Z }"
  }
}
