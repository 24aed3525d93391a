/**
 * The shape elements.  Every leaf shape is read by the same loop: skip to
 * the next non-whitespace character; at the end of the text give up; at '/'
 * require '>' and build the shape from the attributes seen; at one of the
 * shape's attribute letters read that attribute (a repeated attribute
 * replaces the earlier value); otherwise read a style attribute.  A group
 * reads its style attributes up to '>', then its children up to `</`, then
 * `group>`.
 */
module ShapeParser {
  import opened CInt
  import opened Serde
  import opened Model
  import opened Parser
  import opened StyleParser
  import opened PathParser
  import opened Optional

  datatype ShapeKind = EllipseKind | RectangleKind | LineKind | MultilineKind | PolygonKind | PathKind

  datatype Attribute = X | Y | Width | Height | Start | End | Points | Data

  /** The attributes read so far; `None` until an attribute is read. */
  datatype Fields = Fields(
    x: Option<Int32>, y: Option<Int32>, width: Option<Int32>, height: Option<Int32>,
    start: Option<Point>, end: Option<Point>,
    points: Option<seq<Point>>, data: Option<seq<PathElement>>)

  const NO_FIELDS := Fields(None, None, None, None, None, None, None, None)

  /** The shape a loop of the given kind builds. */
  predicate IsKind(kind: ShapeKind, s: Shape)
  {
    match kind
    case EllipseKind => s.Ellipse?
    case RectangleKind => s.Rectangle?
    case LineKind => s.Line?
    case MultilineKind => s.Multiline?
    case PolygonKind => s.Polygon?
    case PathKind => s.Path?
  }

  lemma IsKindCases(s: Shape)
    ensures IsKind(EllipseKind, s) <==> s.Ellipse?
    ensures IsKind(RectangleKind, s) <==> s.Rectangle?
    ensures IsKind(LineKind, s) <==> s.Line?
    ensures IsKind(MultilineKind, s) <==> s.Multiline?
    ensures IsKind(PolygonKind, s) <==> s.Polygon?
    ensures IsKind(PathKind, s) <==> s.Path?
  {
  }

  /** The attribute a letter introduces in a shape of the given kind, if any. */
  function AttributeFor(kind: ShapeKind, c: Ch): (a: Option<Attribute>)
    ensures a.Some? ==> c.Chr? && c.c in {'x', 'y', 'w', 'h', 's', 'e', 'p', 'd'}
    ensures a.Some? && a.value in {X, Y, Width, Height} ==> kind in {EllipseKind, RectangleKind}
    ensures a.Some? && a.value in {Start, End} ==> kind == LineKind
    ensures a.Some? && a.value == Points ==> kind in {MultilineKind, PolygonKind}
    ensures a.Some? && a.value == Data ==> kind == PathKind
  {
    match (kind, c)
    case (EllipseKind, Chr('x')) => Some(X)
    case (EllipseKind, Chr('y')) => Some(Y)
    case (EllipseKind, Chr('w')) => Some(Width)
    case (EllipseKind, Chr('h')) => Some(Height)
    case (RectangleKind, Chr('x')) => Some(X)
    case (RectangleKind, Chr('y')) => Some(Y)
    case (RectangleKind, Chr('w')) => Some(Width)
    case (RectangleKind, Chr('h')) => Some(Height)
    case (LineKind, Chr('s')) => Some(Start)
    case (LineKind, Chr('e')) => Some(End)
    case (MultilineKind, Chr('p')) => Some(Points)
    case (PolygonKind, Chr('p')) => Some(Points)
    case (PathKind, Chr('d')) => Some(Data)
    case _ => None
  }

  /** `after` is `before` with the attribute's own field set, and nothing else changed. */
  predicate SetsOnly(a: Attribute, before: Fields, after: Fields)
  {
    match a
    case X => after.x.Some? && after == before.(x := after.x)
    case Y => after.y.Some? && after == before.(y := after.y)
    case Width => after.width.Some? && after == before.(width := after.width)
    case Height => after.height.Some? && after == before.(height := after.height)
    case Start => after.start.Some? && after == before.(start := after.start)
    case End => after.end.Some? && after == before.(end := after.end)
    case Points => after.points.Some? && after == before.(points := after.points)
    case Data => after.data.Some? && after == before.(data := after.data)
  }

  /** Reads one attribute, its first letter just read, into the fields. */
  function ParseAttribute(cur: Cursor, a: Attribute, f: Fields): (r: Parsed<Fields>)
    ensures r.Ok? ==> Advanced(cur, r.cursor) && Remaining(r.cursor) < Remaining(cur)
    ensures r.Ok? ==> SetsOnly(a, f, r.value)
  {
    match a
    case X =>
      var v := ParseIntParameter(cur, "");
      if v.Fail? then Fail(v.error) else Ok(f.(x := Some(v.value)), v.cursor)
    case Y =>
      var v := ParseIntParameter(cur, "");
      if v.Fail? then Fail(v.error) else Ok(f.(y := Some(v.value)), v.cursor)
    case Width =>
      var v := ParseIntParameter(cur, "idth");
      if v.Fail? then Fail(v.error) else Ok(f.(width := Some(v.value)), v.cursor)
    case Height =>
      var v := ParseIntParameter(cur, "eight");
      if v.Fail? then Fail(v.error) else Ok(f.(height := Some(v.value)), v.cursor)
    case Start =>
      var v := ParsePointParameter(cur, "tart");
      if v.Fail? then Fail(v.error) else Ok(f.(start := Some(v.value)), v.cursor)
    case End =>
      var v := ParsePointParameter(cur, "nd");
      if v.Fail? then Fail(v.error) else Ok(f.(end := Some(v.value)), v.cursor)
    case Points =>
      var v := ParsePointsParameter(cur, "oints");
      if v.Fail? then Fail(v.error) else Ok(f.(points := Some(v.value)), v.cursor)
    case Data =>
      var v := ParsePathElements(cur);
      if v.Fail? then Fail(v.error) else Ok(f.(data := Some(v.value)), v.cursor)
  }

  /**
   * The '/' '>' branch: the shape is built once every attribute it needs was
   * read; the first one missing, in the order x, y, width, height (or start,
   * end), is reported.  The ellipse receives width and height as its two
   * radii.
   */
  function BuildShape(cur: Cursor, kind: ShapeKind, f: Fields, style: Style): (r: Parsed<Shape>)
    ensures r.Ok? ==> r.cursor == cur && r.value.style == style && IsKind(kind, r.value)
    ensures r.Ok? <==> match kind
      case EllipseKind => f.x.Some? && f.y.Some? && f.width.Some? && f.height.Some?
      case RectangleKind => f.x.Some? && f.y.Some? && f.width.Some? && f.height.Some?
      case LineKind => f.start.Some? && f.end.Some?
      case MultilineKind => f.points.Some?
      case PolygonKind => f.points.Some?
      case PathKind => f.data.Some?
    ensures r.Fail? ==> r.error.kind.MissingParameter?
  {
    match kind
    case EllipseKind =>
      if f.x.None? then FailAt(cur, MissingParameter("x"))
      else if f.y.None? then FailAt(cur, MissingParameter("y"))
      else if f.width.None? then FailAt(cur, MissingParameter("width"))
      else if f.height.None? then FailAt(cur, MissingParameter("height"))
      else Ok(Ellipse(f.x.value, f.y.value, f.width.value, f.height.value, style), cur)
    case RectangleKind =>
      if f.x.None? then FailAt(cur, MissingParameter("x"))
      else if f.y.None? then FailAt(cur, MissingParameter("y"))
      else if f.width.None? then FailAt(cur, MissingParameter("width"))
      else if f.height.None? then FailAt(cur, MissingParameter("height"))
      else Ok(Rectangle(f.x.value, f.y.value, f.width.value, f.height.value, style), cur)
    case LineKind =>
      if f.start.None? then FailAt(cur, MissingParameter("start"))
      else if f.end.None? then FailAt(cur, MissingParameter("end"))
      else Ok(Line(f.start.value, f.end.value, style), cur)
    case MultilineKind =>
      if f.points.None? then FailAt(cur, MissingParameter("points"))
      else Ok(Multiline(f.points.value, style), cur)
    case PolygonKind =>
      if f.points.None? then FailAt(cur, MissingParameter("points"))
      else Ok(Polygon(f.points.value, style), cur)
    case PathKind =>
      if f.data.None? then FailAt(cur, MissingParameter("data"))
      else Ok(Path(f.data.value, style), cur)
  }

  /** The attribute loop shared by the six leaf shapes. */
  function ShapeLoop(cur: Cursor, kind: ShapeKind, f: Fields, style: Style): (r: Parsed<Shape>)
    ensures r.Ok? ==> Advanced(cur, r.cursor) && Remaining(r.cursor) < Remaining(cur) && r.cursor.last == Chr('>')
    ensures r.Ok? ==> IsKind(kind, r.value)
    decreases Remaining(cur)
  {
    var c := NextNonWhitespace(cur);
    if c.last.Eof? then FailAt(c, UnexpectedEnd)
    else if c.last == Chr('/') then
      var g := NextNonWhitespace(c);
      if g.last != Chr('>') then FailAt(g, Syntax) else BuildShape(g, kind, f, style)
    else
      var a := AttributeFor(kind, c.last);
      if a.Some? then
        var v := ParseAttribute(c, a.value, f);
        if v.Fail? then Fail(v.error) else ShapeLoop(v.cursor, kind, v.value, style)
      else
        var s := ParseStyles(c, style);
        if s.Fail? then Fail(s.error) else ShapeLoop(s.cursor, kind, f, s.value)
  }

  /** The start of a leaf shape: the rest of its name, then the loop with a copy of the inherited style. */
  function ParseLeaf(cur: Cursor, name: string, kind: ShapeKind, inherited: Style): (r: Parsed<Shape>)
    requires |name| > 0
    ensures r.Ok? ==> Advanced(cur, r.cursor) && Remaining(r.cursor) < Remaining(cur) && r.cursor.last == Chr('>')
    ensures r.Ok? ==> IsKind(kind, r.value)
    ensures !(name <= NonWhitespace(Rest(cur))) ==> r.Fail?
  {
    var p := ConsumePattern(cur, name);
    if p.Fail? then Fail(p.error) else ShapeLoop(p.cursor, kind, NO_FIELDS, CloneStyle(inherited))
  }

  /** `parse_ellipse`. */
  function ParseEllipse(cur: Cursor, inherited: Style): (r: Parsed<Shape>)
    ensures r.Ok? ==> r.value.Ellipse? && Advanced(cur, r.cursor) && Remaining(r.cursor) < Remaining(cur)
  {
    var r := ParseLeaf(cur, "llipse", EllipseKind, inherited);
    if r.Fail? then r else IsKindCases(r.value); r
  }

  /** `parse_rectangle`. */
  function ParseRectangle(cur: Cursor, inherited: Style): (r: Parsed<Shape>)
    ensures r.Ok? ==> r.value.Rectangle? && Advanced(cur, r.cursor) && Remaining(r.cursor) < Remaining(cur)
  {
    var r := ParseLeaf(cur, "ectangle", RectangleKind, inherited);
    if r.Fail? then r else IsKindCases(r.value); r
  }

  /** `parse_line`. */
  function ParseLine(cur: Cursor, inherited: Style): (r: Parsed<Shape>)
    ensures r.Ok? ==> r.value.Line? && Advanced(cur, r.cursor) && Remaining(r.cursor) < Remaining(cur)
  {
    var r := ParseLeaf(cur, "ine", LineKind, inherited);
    if r.Fail? then r else IsKindCases(r.value); r
  }

  /** `parse_multiline`. */
  function ParseMultiline(cur: Cursor, inherited: Style): (r: Parsed<Shape>)
    ensures r.Ok? ==> r.value.Multiline? && Advanced(cur, r.cursor) && Remaining(r.cursor) < Remaining(cur)
  {
    var r := ParseLeaf(cur, "ultiline", MultilineKind, inherited);
    if r.Fail? then r else IsKindCases(r.value); r
  }

  /** `parse_polygon`. */
  function ParsePolygon(cur: Cursor, inherited: Style): (r: Parsed<Shape>)
    ensures r.Ok? ==> r.value.Polygon? && Advanced(cur, r.cursor) && Remaining(r.cursor) < Remaining(cur)
  {
    var r := ParseLeaf(cur, "olygon", PolygonKind, inherited);
    if r.Fail? then r else IsKindCases(r.value); r
  }

  /** `parse_path`: the element is called `draw`. */
  function ParsePath(cur: Cursor, inherited: Style): (r: Parsed<Shape>)
    ensures r.Ok? ==> r.value.Path? && Advanced(cur, r.cursor) && Remaining(r.cursor) < Remaining(cur)
  {
    var r := ParseLeaf(cur, "raw", PathKind, inherited);
    if r.Fail? then r else IsKindCases(r.value); r
  }

  /** The letter that starts each element name: `ellipse`, `rectangle`, `line`, `multiline`, `polygon`, `draw`, `group`. */
  function ShapeLetter(s: Shape): char
  {
    match s
    case Ellipse(_, _, _, _, _) => 'e'
    case Rectangle(_, _, _, _, _) => 'r'
    case Line(_, _, _) => 'l'
    case Multiline(_, _) => 'm'
    case Polygon(_, _) => 'p'
    case Path(_, _) => 'd'
    case Group(_, _) => 'g'
  }

  lemma ShapeLetterCases(s: Shape)
    ensures s.Ellipse? <==> ShapeLetter(s) == 'e'
    ensures s.Rectangle? <==> ShapeLetter(s) == 'r'
    ensures s.Line? <==> ShapeLetter(s) == 'l'
    ensures s.Multiline? <==> ShapeLetter(s) == 'm'
    ensures s.Polygon? <==> ShapeLetter(s) == 'p'
    ensures s.Path? <==> ShapeLetter(s) == 'd'
    ensures s.Group? <==> ShapeLetter(s) == 'g'
  {
  }

  /**
   * The leaf cases of `parse_shape`'s switch: the letter just read picks
   * the leaf's parser; a letter that starts no shape is an error.
   */
  function ParseLeafShape(cur: Cursor, inherited: Style): (r: Parsed<Shape>)
    ensures r.Ok? ==> Advanced(cur, r.cursor) && Remaining(r.cursor) < Remaining(cur) && r.cursor.last == Chr('>')
    ensures r.Ok? ==> cur.last == Chr(ShapeLetter(r.value)) && !r.value.Group?
  {
    var r := match cur.last
      case Chr('e') => ParseEllipse(cur, inherited)
      case Chr('r') => ParseRectangle(cur, inherited)
      case Chr('l') => ParseLine(cur, inherited)
      case Chr('m') => ParseMultiline(cur, inherited)
      case Chr('p') => ParsePolygon(cur, inherited)
      case Chr('d') => ParsePath(cur, inherited)
      case _ => FailAt(cur, Syntax);
    if r.Fail? then r else ShapeLetterCases(r.value); r
  }

  /**
   * `parse_shape`: dispatches on the letter just read; the shape starts
   * from a copy of the inherited style.  Every shape ends on the '>' that
   * closes it.  The group case, the only one that recurses, is taken
   * first; the others are `ParseLeafShape`.
   */
  function ParseShape(cur: Cursor, inherited: Style): (r: Parsed<Shape>)
    ensures r.Ok? ==> Advanced(cur, r.cursor) && Remaining(r.cursor) < Remaining(cur) && r.cursor.last == Chr('>')
    ensures r.Ok? ==> cur.last == Chr(ShapeLetter(r.value))
    decreases Remaining(cur), 2
  {
    if cur.last == Chr('g') then
      var r := ParseGroup(cur, inherited);
      if r.Fail? then r else ShapeLetterCases(r.value); r
    else ParseLeafShape(cur, inherited)
  }

  /**
   * The header loop of `parse_group`: style attributes up to '>'.  The end
   * of the text also ends it; the `group>` that the group parser then
   * requires fails there.
   */
  function GroupHeader(cur: Cursor, style: Style): (r: Parsed<Style>)
    ensures r.Ok? ==> Advanced(cur, r.cursor) && (r.cursor.last == Chr('>') || r.cursor.last == Eof)
    ensures r.Ok? ==> r.value.rotate == style.rotate || Reduced(r.value.rotate)
    decreases Remaining(cur)
  {
    var c := NextNonWhitespace(cur);
    if c.last.Eof? || c.last == Chr('>') then Ok(style, c)
    else
      var s := ParseStyles(c, style);
      if s.Fail? then Fail(s.error)
      else if s.cursor.last == Chr('>') then Ok(s.value, s.cursor)
      else GroupHeader(s.cursor, s.value)
  }

  /**
   * The children loop of `parse_group`: characters other than '<' are
   * skipped; `</` ends the loop; any other '<' starts a child shape, which
   * inherits the group's style.  The end of the text also ends the loop.
   */
  function GroupChildren(cur: Cursor, style: Style, acc: seq<Shape>): (r: Parsed<seq<Shape>>)
    ensures r.Ok? ==> Advanced(cur, r.cursor) && acc <= r.value
    ensures r.Ok? ==> r.cursor.last == Chr('/') || r.cursor.last == Eof
    decreases Remaining(cur), 0
  {
    var c := NextNonWhitespace(cur);
    if c.last.Eof? then Ok(acc, c)
    else if c.last != Chr('<') then GroupChildren(c, style, acc)
    else
      var d := NextNonWhitespace(c);
      if d.last == Chr('/') then Ok(acc, d)
      else
        var s := ParseShape(d, style);
        if s.Fail? then Fail(s.error) else GroupChildren(s.cursor, style, acc + [s.value])
  }

  /** `parse_group`: `roup`, the header, the children, then `group>` after the `</`. */
  function ParseGroup(cur: Cursor, inherited: Style): (r: Parsed<Shape>)
    ensures r.Ok? ==> r.value.Group? && Advanced(cur, r.cursor) && Remaining(r.cursor) < Remaining(cur)
    ensures r.Ok? ==> r.cursor.last == Chr('>')
    decreases Remaining(cur), 1
  {
    var p := ConsumePattern(cur, "roup");
    if p.Fail? then Fail(p.error)
    else
      var h := GroupHeader(p.cursor, CloneStyle(inherited));
      if h.Fail? then Fail(h.error)
      else
        var children := GroupChildren(h.cursor, h.value, []);
        if children.Fail? then Fail(children.error)
        else
          var e := ConsumePattern(children.cursor, "group>");
          if e.Fail? then Fail(e.error) else Ok(Group(children.value, h.value), e.cursor)
  }
}
