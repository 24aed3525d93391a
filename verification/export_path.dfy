/** The writers of the `data` attribute: each command as its letter and its operands. */
module PathExport {
  import opened CInt
  import opened Text
  import opened Serde
  import opened Model
  import opened Export

  /** `export_move_to`. */
  function ExportMoveTo(p: Point): string
  {
    "M " + ExportPoint(p)
  }

  /** `export_line_to`. */
  function ExportLineTo(p: Point): string
  {
    "L " + ExportPoint(p)
  }

  /** `export_horizontal_line_to`. */
  function ExportHorizontalLineTo(n: int): string
  {
    "H " + IntToString(n)
  }

  /** `export_vertical_line_to`. */
  function ExportVerticalLineTo(n: int): string
  {
    "V " + IntToString(n)
  }

  /** `export_end_of_path`. */
  function ExportEndOfPath(): string
  {
    "Z"
  }

  /** `export_cubic_curve_to`: both control points, then the end point. */
  function ExportCubicCurveTo(c1: Point, c2: Point, end: Point): string
  {
    "C " + ExportPoint(c1) + " " + ExportPoint(c2) + " " + ExportPoint(end)
  }

  /** `export_cubic_curve_to_shorthand`: the control point, then the end point. */
  function ExportCubicCurveToShorthand(c: Point, end: Point): string
  {
    "S " + ExportPoint(c) + " " + ExportPoint(end)
  }

  /** `export_quadratic_curve_to`: the control point, then the end point. */
  function ExportQuadraticCurveTo(c: Point, end: Point): string
  {
    "Q " + ExportPoint(c) + " " + ExportPoint(end)
  }

  /** `export_quadratic_curve_to_shorthand`. */
  function ExportQuadraticCurveToShorthand(end: Point): string
  {
    "T " + ExportPoint(end)
  }

  /**
   * `export_path_element`: the upper-case letter of the command, then,
   * except for Z, a space and the operands.
   */
  function ExportPathElement(e: PathElement): (s: string)
    ensures |s| > 0 && s[0] == Letter(e)
    ensures |s| == 1 <==> e.EndPath?
    ensures |s| > 1 ==> s[1] == ' '
  {
    match e
    case MoveTo(p) => ExportMoveTo(p)
    case LineTo(p) => ExportLineTo(p)
    case HorizontalLineTo(n) => ExportHorizontalLineTo(n)
    case VerticalLineTo(n) => ExportVerticalLineTo(n)
    case CubicCurveTo(c1, c2, end) => ExportCubicCurveTo(c1, c2, end)
    case CubicCurveToShorthand(c, end) => ExportCubicCurveToShorthand(c, end)
    case QuadraticCurveTo(c, end) => ExportQuadraticCurveTo(c, end)
    case QuadraticCurveToShorthand(end) => ExportQuadraticCurveToShorthand(end)
    case EndPath => ExportEndOfPath()
  }

  /**
   * The commands separated by single spaces.  Like the points writer, the C
   * loop reads `node->next` before testing the list, so it needs a command
   * to start with.
   */
  function ExportElements(elements: seq<PathElement>): (s: string)
    requires |elements| > 0
    ensures |s| >= 2 * |elements| - 1
    ensures s[0] == Letter(elements[0])
  {
    if |elements| == 1 then ExportPathElement(elements[0])
    else ExportPathElement(elements[0]) + " " + ExportElements(elements[1..])
  }

  /** The words the `*_to_string` helpers put before the braces. */
  function ToStringLabel(e: PathElement): string
  {
    match e
    case MoveTo(_) => "Move to"
    case LineTo(_) => "Line"
    case VerticalLineTo(_) => "Vertical line"
    case HorizontalLineTo(_) => "Horizontal line"
    case _ => "End of path"
  }

  /**
   * The `*_to_string` helpers of the path commands show, between `{ ` and
   * ` }`, exactly the text the writer puts into the `data` attribute.
   */
  lemma ToStringShowsExport(e: PathElement)
    requires e.MoveTo? || e.LineTo? || e.VerticalLineTo? || e.HorizontalLineTo? || e.EndPath?
    ensures PathElementToString(e) == ToStringLabel(e) + " { " + ExportPathElement(e) + " }"
  {
    match e {
      case MoveTo(p) => MoveToShowsExport(p);
      case LineTo(p) => LineToShowsExport(p);
      case VerticalLineTo(n) => VerticalShowsExport(n);
      case HorizontalLineTo(n) => HorizontalShowsExport(n);
      case EndPath =>
    }
  }

  lemma MoveToShowsExport(p: Point)
    ensures PathElementToString(MoveTo(p)) == "Move to" + " { " + ExportPathElement(MoveTo(p)) + " }"
  {
    FramedPair("Move to { M ", "Move to", " { ", "M ", IntToString(p.x), " ", IntToString(p.y), " }");
  }

  lemma LineToShowsExport(p: Point)
    ensures PathElementToString(LineTo(p)) == "Line" + " { " + ExportPathElement(LineTo(p)) + " }"
  {
    FramedPair("Line { L ", "Line", " { ", "L ", IntToString(p.x), " ", IntToString(p.y), " }");
  }

  lemma VerticalShowsExport(n: Int32)
    ensures PathElementToString(VerticalLineTo(n)) == "Vertical line" + " { " + ExportPathElement(VerticalLineTo(n)) + " }"
  {
    Framed("Vertical line { V ", "Vertical line", " { ", "V ", IntToString(n), " }");
  }

  lemma HorizontalShowsExport(n: Int32)
    ensures PathElementToString(HorizontalLineTo(n)) == "Horizontal line" + " { " + ExportPathElement(HorizontalLineTo(n)) + " }"
  {
    Framed("Horizontal line { H ", "Horizontal line", " { ", "H ", IntToString(n), " }");
  }

  lemma Framed<T>(head: seq<T>, name: seq<T>, open: seq<T>, letter: seq<T>, x: seq<T>, close: seq<T>)
    requires head == name + open + letter
    ensures head + x + close == name + open + (letter + x) + close
  {
  }

  lemma FramedPair<T>(head: seq<T>, name: seq<T>, open: seq<T>, letter: seq<T>, x: seq<T>, sp: seq<T>, y: seq<T>, close: seq<T>)
    requires head == name + open + letter
    ensures head + x + sp + y + close == name + open + (letter + (x + sp + y)) + close
  {
  }

  /** `export_path_elements`: the `data` parameter. */
  function ExportPathElements(elements: seq<PathElement>, cfg: ExportConfig, depth: int): string
    requires |elements| > 0
  {
    Parameter(cfg, "data", ExportElements(elements), depth)
  }
}
