/**
 * `parse_shape`'s switch, one letter at a time: each leaf letter hands the
 * cursor to that leaf's parser.
 */
module ShapeDispatch {
  import opened CInt
  import opened Optional
  import opened Serde
  import opened Model
  import opened Parser
  import opened ShapeParser

  lemma EllipseLetter(cur: Cursor, inherited: Style)
    requires cur.last == Chr('e')
    ensures ParseShape(cur, inherited) == ParseEllipse(cur, inherited)
  {
    assert cur.last != Chr('g');
    assert ParseShape(cur, inherited) == ParseLeafShape(cur, inherited);
  }

  lemma RectangleLetter(cur: Cursor, inherited: Style)
    requires cur.last == Chr('r')
    ensures ParseShape(cur, inherited) == ParseRectangle(cur, inherited)
  {
    assert cur.last != Chr('g');
    assert ParseShape(cur, inherited) == ParseLeafShape(cur, inherited);
    assert cur.last != Chr('e');
  }

  lemma LineLetter(cur: Cursor, inherited: Style)
    requires cur.last == Chr('l')
    ensures ParseShape(cur, inherited) == ParseLine(cur, inherited)
  {
    assert cur.last != Chr('g');
    assert ParseShape(cur, inherited) == ParseLeafShape(cur, inherited);
    assert cur.last != Chr('e') && cur.last != Chr('r');
  }

  lemma MultilineLetter(cur: Cursor, inherited: Style)
    requires cur.last == Chr('m')
    ensures ParseShape(cur, inherited) == ParseMultiline(cur, inherited)
  {
    assert cur.last != Chr('g');
    assert ParseShape(cur, inherited) == ParseLeafShape(cur, inherited);
    assert cur.last != Chr('e') && cur.last != Chr('r') && cur.last != Chr('l');
  }

  lemma PolygonLetter(cur: Cursor, inherited: Style)
    requires cur.last == Chr('p')
    ensures ParseShape(cur, inherited) == ParsePolygon(cur, inherited)
  {
    assert cur.last != Chr('g');
    assert ParseShape(cur, inherited) == ParseLeafShape(cur, inherited);
    assert cur.last != Chr('e') && cur.last != Chr('r') && cur.last != Chr('l') && cur.last != Chr('m');
  }

  lemma DrawLetter(cur: Cursor, inherited: Style)
    requires cur.last == Chr('d')
    ensures ParseShape(cur, inherited) == ParsePath(cur, inherited)
  {
    assert cur.last != Chr('g');
    assert ParseShape(cur, inherited) == ParseLeafShape(cur, inherited);
    assert cur.last != Chr('e') && cur.last != Chr('r') && cur.last != Chr('l') && cur.last != Chr('m') && cur.last != Chr('p');
  }

  /** A loop that has read the four numbers builds the ellipse, `width` into the first radius. */
  lemma BuildsEllipse(g: Cursor, x: Int32, y: Int32, w: Int32, h: Int32, style: Style)
    ensures BuildShape(g, EllipseKind, NO_FIELDS.(x := Some(x), y := Some(y), width := Some(w), height := Some(h)), style)
      == Ok(Ellipse(x, y, w, h, style), g)
  {
  }

  lemma BuildsRectangle(g: Cursor, x: Int32, y: Int32, w: Int32, h: Int32, style: Style)
    ensures BuildShape(g, RectangleKind, NO_FIELDS.(x := Some(x), y := Some(y), width := Some(w), height := Some(h)), style)
      == Ok(Rectangle(x, y, w, h, style), g)
  {
  }

  lemma BuildsLine(g: Cursor, a: Point, b: Point, style: Style)
    ensures BuildShape(g, LineKind, NO_FIELDS.(start := Some(a), end := Some(b)), style) == Ok(Line(a, b, style), g)
  {
  }

  lemma BuildsPointList(g: Cursor, ps: seq<Point>, style: Style)
    ensures BuildShape(g, MultilineKind, NO_FIELDS.(points := Some(ps)), style) == Ok(Multiline(ps, style), g)
    ensures BuildShape(g, PolygonKind, NO_FIELDS.(points := Some(ps)), style) == Ok(Polygon(ps, style), g)
  {
  }

  lemma BuildsPath(g: Cursor, es: seq<PathElement>, style: Style)
    ensures BuildShape(g, PathKind, NO_FIELDS.(data := Some(es)), style) == Ok(Path(es, style), g)
  {
  }

  /** Once the rest of the name is read, a leaf's parser is its attribute loop on a copy of the inherited style. */
  lemma LeafSteps(cur: Cursor, name: string, kind: ShapeKind, inherited: Style)
    requires |name| > 0 && ConsumePattern(cur, name).Ok?
    ensures ParseLeaf(cur, name, kind, inherited) == ShapeLoop(ConsumePattern(cur, name).cursor, kind, NO_FIELDS, CloneStyle(inherited))
  {
  }
}

/**
 * Writing a document and reading it back.  What comes back is the
 * document written, up to what the writer changes on the way: the outline
 * colour becomes the fill colour, a degree is reduced again, and the two
 * radii of an ellipse trade places.  Groups are left out: their closing
 * tag is written `<group/>`, which the reader does not accept.
 */
module DocumentRoundTrip {
  import opened CInt
  import opened SeqRegroup
  import opened Text
  import opened Serde
  import opened Optional
  import opened Model
  import opened Parser
  import opened Export
  import opened StyleExport
  import opened PathExport
  import opened ShapeExport
  import opened SvgExport
  import opened ShapeParser
  import opened SvgParser
  import opened ValueRoundTrip
  import opened StyleRoundTrip
  import opened PointsRoundTrip
  import opened PathRoundTrip
  import opened ShapeRoundTrip
  import opened ShapeDispatch

  /** A shape the writer writes and the reader reads back: a leaf, with no negative number in it. */
  predicate ReadableShape(s: Shape)
  {
    && !s.Group?
    && Writable(s)
    && match s
    case Ellipse(cx, cy, rx, ry, st) => cx >= 0 && cy >= 0 && rx >= 0 && ry >= 0 && ReadableStyle(st)
    case Rectangle(x, y, w, h, st) => x >= 0 && y >= 0 && w >= 0 && h >= 0 && ReadableStyle(st)
    case Line(a, b, st) => NonNegative(a) && NonNegative(b) && ReadableStyle(st)
    case Multiline(ps, st) => |ps| > 0 && AllNonNegative(ps) && ReadableStyle(st)
    case Polygon(ps, st) => |ps| > 0 && AllNonNegative(ps) && ReadableStyle(st)
    case Path(es, st) => ReadablePath(es) && ReadableStyle(st)
    case Group(_, _) => false
  }

  /** Every shape of a list is readable, hence writable. */
  predicate AllReadable(shapes: seq<Shape>)
    ensures AllReadable(shapes) ==> forall i | 0 <= i < |shapes| :: Writable(shapes[i])
  {
    forall i | 0 <= i < |shapes| :: ReadableShape(shapes[i])
  }

  /** The shape the reader rebuilds from what the writer wrote for `s`. */
  function ReadBack(s: Shape): (r: Shape)
    requires ReadableShape(s)
    ensures ShapeLetter(r) == ShapeLetter(s) && r.style == ReadStyle(s.style)
  {
    match s
    case Ellipse(cx, cy, rx, ry, st) => Ellipse(cx, cy, ry, rx, ReadStyle(st))
    case Rectangle(x, y, w, h, st) => Rectangle(x, y, w, h, ReadStyle(st))
    case Line(a, b, st) => Line(a, b, ReadStyle(st))
    case Multiline(ps, st) => Multiline(ps, ReadStyle(st))
    case Polygon(ps, st) => Polygon(ps, ReadStyle(st))
    case Path(es, st) => Path(es, ReadStyle(st))
  }

  /** `ReadBack` of every shape, in order. */
  function ReadBackAll(shapes: seq<Shape>): (r: seq<Shape>)
    requires AllReadable(shapes)
    ensures |r| == |shapes|
    ensures forall i | 0 <= i < |shapes| :: r[i] == ReadBack(shapes[i])
  {
    if |shapes| == 0 then [] else [ReadBack(shapes[0])] + ReadBackAll(shapes[1..])
  }

  /** What the parser reads of a leaf's name after its first letter. */
  function LeafRest(s: Shape): string
    requires !s.Group?
  {
    match s
    case Ellipse(_, _, _, _, _) => "llipse"
    case Rectangle(_, _, _, _, _) => "ectangle"
    case Line(_, _, _) => "ine"
    case Multiline(_, _) => "ultiline"
    case Polygon(_, _) => "olygon"
    case Path(_, _) => "raw"
  }

  /** The element name the writer gives each leaf. */
  function LeafName(s: Shape): (name: string)
    requires !s.Group?
    ensures |name| > 0 && name[0] == ShapeLetter(s) && name[1..] == LeafRest(s)
  {
    var name := [ShapeLetter(s)] + LeafRest(s);
    assert name[1..] == LeafRest(s);
    name
  }

  /** The attribute loop each leaf is read with. */
  function LeafKind(s: Shape): ShapeKind
    requires !s.Group?
  {
    match s
    case Ellipse(_, _, _, _, _) => EllipseKind
    case Rectangle(_, _, _, _, _) => RectangleKind
    case Line(_, _, _) => LineKind
    case Multiline(_, _) => MultilineKind
    case Polygon(_, _) => PolygonKind
    case Path(_, _) => PathKind
  }

  /** What the writer puts after a leaf's name and separator: its attributes and `/>`. */
  function LeafBody(s: Shape, cfg: ExportConfig, depth: int): string
    requires ReadableShape(s)
  {
    match s
    case Ellipse(cx, cy, rx, ry, st) => FourIntsBody(st, cx, cy, ry, rx, cfg, depth)
    case Rectangle(x, y, w, h, st) => FourIntsBody(st, x, y, w, h, cfg, depth)
    case Line(a, b, st) =>
      ExportStyles(st, cfg, depth + 1) + ExportPointParameter(cfg, "start", a, depth + 1)
      + ExportPointParameter(cfg, "end", b, depth + 1) + ExportInlineCloseShape(cfg, depth)
    case Multiline(ps, st) =>
      ExportStyles(st, cfg, depth + 1) + ExportPointsParameter(cfg, "points", ps, depth + 1) + ExportInlineCloseShape(cfg, depth)
    case Polygon(ps, st) =>
      ExportStyles(st, cfg, depth + 1) + ExportPointsParameter(cfg, "points", ps, depth + 1) + ExportInlineCloseShape(cfg, depth)
    case Path(es, st) =>
      ExportStyles(st, cfg, depth + 1) + ExportPathElements(es, cfg, depth + 1) + ExportInlineCloseShape(cfg, depth)
  }

  lemma ReadableIsWritable(s: Shape)
    requires ReadableShape(s)
    ensures Writable(s) && !s.Group?
  {
  }

  lemma LeafNames(s: Shape)
    requires !s.Group?
    ensures LeafName(s) == match s
      case Ellipse(_, _, _, _, _) => "ellipse"
      case Rectangle(_, _, _, _, _) => "rectangle"
      case Line(_, _, _) => "line"
      case Multiline(_, _) => "multiline"
      case Polygon(_, _) => "polygon"
      case Path(_, _) => "draw"
  {
  }

  lemma EllipseLayout(s: Shape, cfg: ExportConfig, depth: int)
    requires s.Ellipse?
    ensures ExportEllipse(s, cfg, depth)
      == ExportShapeName(cfg, "ellipse", depth) + FourIntsBody(s.style, s.centerX, s.centerY, s.radiusY, s.radiusX, cfg, depth)
  {
    var d := depth + 1;
    Assoc7(ExportShapeName(cfg, "ellipse", depth), ExportStyles(s.style, cfg, d),
      ExportIntParameter(cfg, "x", s.centerX, d), ExportIntParameter(cfg, "y", s.centerY, d),
      ExportIntParameter(cfg, "width", s.radiusY, d), ExportIntParameter(cfg, "height", s.radiusX, d),
      ExportInlineCloseShape(cfg, depth));
  }

  lemma RectangleLayout(s: Shape, cfg: ExportConfig, depth: int)
    requires s.Rectangle?
    ensures ExportRectangle(s, cfg, depth)
      == ExportShapeName(cfg, "rectangle", depth) + FourIntsBody(s.style, s.x, s.y, s.width, s.height, cfg, depth)
  {
    var d := depth + 1;
    Assoc7(ExportShapeName(cfg, "rectangle", depth), ExportStyles(s.style, cfg, d),
      ExportIntParameter(cfg, "x", s.x, d), ExportIntParameter(cfg, "y", s.y, d),
      ExportIntParameter(cfg, "width", s.width, d), ExportIntParameter(cfg, "height", s.height, d),
      ExportInlineCloseShape(cfg, depth));
  }

  lemma LineLayout(s: Shape, cfg: ExportConfig, depth: int)
    requires ReadableShape(s) && s.Line?
    ensures ExportLine(s, cfg, depth) == ExportShapeName(cfg, "line", depth) + LeafBody(s, cfg, depth)
  {
    var d := depth + 1;
    Assoc5(ExportShapeName(cfg, "line", depth), ExportStyles(s.style, cfg, d),
      ExportPointParameter(cfg, "start", s.start, d), ExportPointParameter(cfg, "end", s.end, d),
      ExportInlineCloseShape(cfg, depth));
  }

  lemma PointsLayout(s: Shape, cfg: ExportConfig, depth: int)
    requires ReadableShape(s) && (s.Multiline? || s.Polygon?)
    ensures s.Multiline? ==> ExportMultiline(s, cfg, depth) == ExportShapeName(cfg, "multiline", depth) + LeafBody(s, cfg, depth)
    ensures s.Polygon? ==> ExportPolygon(s, cfg, depth) == ExportShapeName(cfg, "polygon", depth) + LeafBody(s, cfg, depth)
  {
    var d := depth + 1;
    Assoc4(ExportShapeName(cfg, if s.Multiline? then "multiline" else "polygon", depth), ExportStyles(s.style, cfg, d),
      ExportPointsParameter(cfg, "points", s.points, d), ExportInlineCloseShape(cfg, depth));
  }

  lemma DrawLayout(s: Shape, cfg: ExportConfig, depth: int)
    requires ReadableShape(s) && s.Path?
    ensures ExportPath(s, cfg, depth) == ExportShapeName(cfg, "draw", depth) + LeafBody(s, cfg, depth)
  {
    var d := depth + 1;
    Assoc4(ExportShapeName(cfg, "draw", depth), ExportStyles(s.style, cfg, d),
      ExportPathElements(s.elements, cfg, d), ExportInlineCloseShape(cfg, depth));
  }

  /** What `export_shape` writes for a leaf: its name, its separator, its attributes, `/>` and a line feed. */
  lemma ExportShapeLayout(s: Shape, cfg: ExportConfig, depth: int)
    requires ReadableShape(s)
    ensures Writable(s)
    ensures ExportShape(s, cfg, depth) == ExportShapeName(cfg, LeafName(s), depth) + LeafBody(s, cfg, depth) + "\n"
  {
    LeafNames(s);
    match s {
      case Ellipse(_, _, _, _, _) => EllipseLayout(s, cfg, depth);
      case Rectangle(_, _, _, _, _) => RectangleLayout(s, cfg, depth);
      case Line(_, _, _) => LineLayout(s, cfg, depth);
      case Multiline(_, _) => PointsLayout(s, cfg, depth);
      case Polygon(_, _) => PointsLayout(s, cfg, depth);
      case Path(_, _) => DrawLayout(s, cfg, depth);
    }
  }

  /** The attribute loop of a leaf reads back the shape, whatever style it starts from. */
  lemma LeafLoop(cur: Cursor, s: Shape, style: Style, cfg: ExportConfig, depth: int, more: seq<char>) returns (g: Cursor)
    requires ReadableShape(s)
    requires Rest(cur) == Separator(cfg) + (LeafBody(s, cfg, depth) + more)
    ensures g.text == cur.text && g.last == Chr('>') && Rest(g) == more
    ensures ShapeLoop(cur, LeafKind(s), NO_FIELDS, style) == Ok(ReadBack(s), g)
  {
    if s.Ellipse? || s.Rectangle? {
      g := FourIntsLeafLoop(cur, s, style, cfg, depth, more);
    } else if s.Line? {
      g := LineLeafLoop(cur, s, style, cfg, depth, more);
    } else if s.Multiline? || s.Polygon? {
      g := PointsLeafLoop(cur, s, style, cfg, depth, more);
    } else {
      g := DrawLeafLoop(cur, s, style, cfg, depth, more);
    }
  }

  lemma FourIntsLeafLoop(cur: Cursor, s: Shape, style: Style, cfg: ExportConfig, depth: int, more: seq<char>) returns (g: Cursor)
    requires ReadableShape(s) && (s.Ellipse? || s.Rectangle?)
    requires Rest(cur) == Separator(cfg) + (LeafBody(s, cfg, depth) + more)
    ensures g.text == cur.text && g.last == Chr('>') && Rest(g) == more
    ensures ShapeLoop(cur, LeafKind(s), NO_FIELDS, style) == Ok(ReadBack(s), g)
  {
    if s.Ellipse? {
      g := FourIntsLoop(cur, EllipseKind, style, s.style, s.centerX, s.centerY, s.radiusY, s.radiusX, cfg, depth, more);
      BuildsEllipse(g, s.centerX, s.centerY, s.radiusY, s.radiusX, ReadStyle(s.style));
    } else {
      g := FourIntsLoop(cur, RectangleKind, style, s.style, s.x, s.y, s.width, s.height, cfg, depth, more);
      BuildsRectangle(g, s.x, s.y, s.width, s.height, ReadStyle(s.style));
    }
  }

  lemma LineLeafLoop(cur: Cursor, s: Shape, style: Style, cfg: ExportConfig, depth: int, more: seq<char>) returns (g: Cursor)
    requires ReadableShape(s) && s.Line?
    requires Rest(cur) == Separator(cfg) + (LeafBody(s, cfg, depth) + more)
    ensures g.text == cur.text && g.last == Chr('>') && Rest(g) == more
    ensures ShapeLoop(cur, LeafKind(s), NO_FIELDS, style) == Ok(ReadBack(s), g)
  {
    g := LineLoop(cur, style, s.style, s.start, s.end, cfg, depth, more);
    BuildsLine(g, s.start, s.end, ReadStyle(s.style));
  }

  lemma PointsLeafLoop(cur: Cursor, s: Shape, style: Style, cfg: ExportConfig, depth: int, more: seq<char>) returns (g: Cursor)
    requires ReadableShape(s) && (s.Multiline? || s.Polygon?)
    requires Rest(cur) == Separator(cfg) + (LeafBody(s, cfg, depth) + more)
    ensures g.text == cur.text && g.last == Chr('>') && Rest(g) == more
    ensures ShapeLoop(cur, LeafKind(s), NO_FIELDS, style) == Ok(ReadBack(s), g)
  {
    g := PointListLoop(cur, LeafKind(s), style, s.style, s.points, cfg, depth, more);
    BuildsPointList(g, s.points, ReadStyle(s.style));
  }

  lemma DrawLeafLoop(cur: Cursor, s: Shape, style: Style, cfg: ExportConfig, depth: int, more: seq<char>) returns (g: Cursor)
    requires ReadableShape(s) && s.Path?
    requires Rest(cur) == Separator(cfg) + (LeafBody(s, cfg, depth) + more)
    ensures g.text == cur.text && g.last == Chr('>') && Rest(g) == more
    ensures ShapeLoop(cur, LeafKind(s), NO_FIELDS, style) == Ok(ReadBack(s), g)
  {
    g := PathShapeLoop(cur, style, s.style, s.elements, cfg, depth, more);
    BuildsPath(g, s.elements, ReadStyle(s.style));
  }

  lemma LeafRestNoWhitespace(s: Shape)
    requires !s.Group?
    ensures |LeafRest(s)| > 0 && NoWhitespace(LeafRest(s))
  {
  }

  /** `parse_shape` on a leaf's first letter hands over to the leaf's parser. */
  lemma LeafDispatch(cur: Cursor, s: Shape, inherited: Style)
    requires !s.Group? && cur.last == Chr(ShapeLetter(s))
    ensures ParseShape(cur, inherited) == ParseLeaf(cur, LeafRest(s), LeafKind(s), inherited)
  {
    match s {
      case Ellipse(_, _, _, _, _) => EllipseLetter(cur, inherited);
      case Rectangle(_, _, _, _, _) => RectangleLetter(cur, inherited);
      case Line(_, _, _) => LineLetter(cur, inherited);
      case Multiline(_, _) => MultilineLetter(cur, inherited);
      case Polygon(_, _) => PolygonLetter(cur, inherited);
      case Path(_, _) => DrawLetter(cur, inherited);
    }
  }

  /** A leaf, its first letter just read: the rest of its name, its attributes and `/>`. */
  lemma LeafParse(cur: Cursor, s: Shape, inherited: Style, cfg: ExportConfig, depth: int, more: seq<char>)
    requires ReadableShape(s) && cur.last == Chr(ShapeLetter(s))
    requires Rest(cur) == LeafRest(s) + (Separator(cfg) + (LeafBody(s, cfg, depth) + more))
    ensures Reads(ParseShape(cur, inherited), ReadBack(s), cur.text, Chr('>'), more)
  {
    LeafRestNoWhitespace(s);
    EmptyPrefix(LeafRest(s));
    ConsumeExact(cur, [], LeafRest(s), Separator(cfg) + (LeafBody(s, cfg, depth) + more));
    var p := ConsumePattern(cur, LeafRest(s)).cursor;
    var g := LeafLoop(p, s, CloneStyle(inherited), cfg, depth, more);
    LeafDispatch(cur, s, inherited);
    LeafSteps(cur, LeafRest(s), LeafKind(s), inherited);
  }

  lemma SpacesAfter(w: seq<char>, n: int)
    requires AllWhitespace(w)
    ensures AllWhitespace(w + WriteSpaces(n))
  {
  }

  lemma LetterIsNotWhitespace(s: Shape)
    ensures !IsWhitespaceChar(ShapeLetter(s))
  {
  }

  /** `<` and a letter, after whitespace. */
  lemma OpenTag(cur: Cursor, w: seq<char>, letter: char, tail: seq<char>)
    requires AllWhitespace(w) && !IsWhitespaceChar(letter)
    requires Rest(cur) == w + "<" + ([] + [letter] + tail)
    ensures var c := NextNonWhitespace(cur); var d := NextNonWhitespace(c);
      && c.text == cur.text && c.last == Chr('<')
      && d.text == cur.text && d.last == Chr(letter) && Rest(d) == tail
  {
    assert "<" == ['<'];
    SkipWhitespace(cur, w, '<', [] + [letter] + tail);
    SkipWhitespace(NextNonWhitespace(cur), [], letter, tail);
  }

  /**
   * What `export_shape` writes for a leaf, after any whitespace: the reader
   * finds '<', then the leaf's letter, and `parse_shape` reads the leaf
   * back, up to the line feed after it.
   */
  lemma ShapeReads(cur: Cursor, s: Shape, inherited: Style, cfg: ExportConfig, depth: int, w: seq<char>, more: seq<char>)
    requires ReadableShape(s) && AllWhitespace(w)
    requires Rest(cur) == w + (ExportShape(s, cfg, depth) + more)
    ensures var c := NextNonWhitespace(cur); var d := NextNonWhitespace(c);
      && c.text == cur.text && c.last == Chr('<')
      && d.text == cur.text && d.last == Chr(ShapeLetter(s))
      && Reads(ParseShape(d, inherited), ReadBack(s), cur.text, Chr('>'), "\n" + more)
  {
    ExportShapeLayout(s, cfg, depth);
    var sp := WriteSpaces(depth * cfg.tabSize);
    var name := LeafName(s);
    var tail := LeafRest(s) + (Separator(cfg) + (LeafBody(s, cfg, depth) + ("\n" + more)));
    ShapeText(w, sp, "<", name, Separator(cfg), LeafBody(s, cfg, depth), "\n", more);
    SpacesAfter(w, depth * cfg.tabSize);
    LetterIsNotWhitespace(s);
    OpenTag(cur, w + sp, name[0], tail);
    var c := NextNonWhitespace(cur);
    LeafParse(NextNonWhitespace(c), s, inherited, cfg, depth, "\n" + more);
  }

  lemma AllWritable(shapes: seq<Shape>)
    requires forall i | 0 <= i < |shapes| :: ReadableShape(shapes[i])
    ensures forall i | 0 <= i < |shapes| :: Writable(shapes[i])
  {
    forall i | 0 <= i < |shapes| ensures Writable(shapes[i]) {
      ReadableIsWritable(shapes[i]);
    }
  }

  /** `parse_svg`'s loop over one shape: '<', a letter that is not '/', the shape. */
  lemma SvgShapesStep(cur: Cursor, acc: seq<Shape>)
    requires NextNonWhitespace(cur).last == Chr('<')
    requires NextNonWhitespace(NextNonWhitespace(cur)).last != Chr('/')
    requires ParseShape(NextNonWhitespace(NextNonWhitespace(cur)), DefaultStyle()).Ok?
    ensures var s := ParseShape(NextNonWhitespace(NextNonWhitespace(cur)), DefaultStyle());
      SvgShapes(cur, acc) == SvgShapes(s.cursor, acc + [s.value])
  {
  }

  /** `parse_svg`'s loop at `</`: it stops on the '/'. */
  lemma SvgShapesEnd(cur: Cursor, acc: seq<Shape>, w: seq<char>, more: seq<char>)
    requires AllWhitespace(w) && Rest(cur) == w + ("</" + more)
    ensures var r := SvgShapes(cur, acc);
      r.Ok? && r.value == acc && r.cursor.text == cur.text && r.cursor.last == Chr('/') && Rest(r.cursor) == more
  {
    assert w + ("</" + more) == w + [] + ['<'] + ([] + ['/'] + more);
    OpenTag(cur, w, '/', more);
  }

  lemma ShapesText(shapes: seq<Shape>, cfg: ExportConfig, depth: int, w: seq<char>, more: seq<char>)
    requires |shapes| > 0 && forall i | 0 <= i < |shapes| :: Writable(shapes[i])
    ensures w + (ExportShapes(shapes, cfg, depth) + more)
      == w + (ExportShape(shapes[0], cfg, depth) + (ExportShapes(shapes[1..], cfg, depth) + more))
  {
    ExportShapesCons(shapes, cfg, depth);
    Nest2(ExportShape(shapes[0], cfg, depth), ExportShapes(shapes[1..], cfg, depth), more);
  }

  lemma ExportShapesCons(shapes: seq<Shape>, cfg: ExportConfig, depth: int)
    requires |shapes| > 0 && forall i | 0 <= i < |shapes| :: Writable(shapes[i])
    ensures ExportShapes(shapes, cfg, depth) == ExportShape(shapes[0], cfg, depth) + ExportShapes(shapes[1..], cfg, depth)
  {
  }

  /**
   * `parse_svg`'s loop reads back what `export_shapes` wrote, stopping on
   * the '/' of the closing tag.
   */
  lemma {:induction false} ShapesReads(cur: Cursor, acc: seq<Shape>, shapes: seq<Shape>, cfg: ExportConfig,
                                       w: seq<char>, more: seq<char>)
    requires AllReadable(shapes)
    requires AllWhitespace(w)
    requires Rest(cur) == w + (ExportShapes(shapes, cfg, 1) + ("</" + more))
    ensures var r := SvgShapes(cur, acc);
      && r.Ok? && r.value == acc + ReadBackAll(shapes)
      && r.cursor.text == cur.text && r.cursor.last == Chr('/') && Rest(r.cursor) == more
    decreases |shapes|
  {
    if |shapes| == 0 {
      SvgShapesEnd(cur, acc, w, more);
    } else {
      var next := FirstShapeReads(cur, acc, shapes, cfg, w, more);
      ReadableTail(shapes);
      LineFeedIsWhitespace();
      ShapesReads(next, acc + [ReadBack(shapes[0])], shapes[1..], cfg, "\n", more);
      ReadBackCons(shapes);
      AppendOne(acc, ReadBack(shapes[0]), ReadBackAll(shapes[1..]), ReadBackAll(shapes));
    }
  }

  /** One turn of `parse_svg`'s loop reads back the first shape, up to the line feed after it. */
  lemma FirstShapeReads(cur: Cursor, acc: seq<Shape>, shapes: seq<Shape>, cfg: ExportConfig,
                        w: seq<char>, more: seq<char>) returns (next: Cursor)
    requires AllReadable(shapes) && |shapes| > 0
    requires AllWhitespace(w)
    requires Rest(cur) == w + (ExportShapes(shapes, cfg, 1) + ("</" + more))
    ensures next.text == cur.text && Rest(next) == "\n" + (ExportShapes(shapes[1..], cfg, 1) + ("</" + more))
    ensures SvgShapes(cur, acc) == SvgShapes(next, acc + [ReadBack(shapes[0])])
  {
    var tail := ExportShapes(shapes[1..], cfg, 1) + ("</" + more);
    ShapesText(shapes, cfg, 1, w, "</" + more);
    ShapeReads(cur, shapes[0], DefaultStyle(), cfg, 1, w, tail);
    LetterIsNotSlash(shapes[0]);
    SvgShapesStep(cur, acc);
    next := ParseShape(NextNonWhitespace(NextNonWhitespace(cur)), DefaultStyle()).cursor;
  }

  lemma ReadableTail(shapes: seq<Shape>)
    requires AllReadable(shapes) && |shapes| > 0
    ensures AllReadable(shapes[1..]) && ReadableShape(shapes[0])
  {
    assert ReadableShape(shapes[0]);
  }

  lemma ReadBackCons(shapes: seq<Shape>)
    requires AllReadable(shapes) && |shapes| > 0
    ensures ReadableShape(shapes[0]) && AllReadable(shapes[1..])
    ensures ReadBackAll(shapes) == [ReadBack(shapes[0])] + ReadBackAll(shapes[1..])
  {
    ReadableTail(shapes);
  }

  lemma LineFeedIsWhitespace()
    ensures AllWhitespace("\n")
  {
  }

  lemma LetterIsNotSlash(s: Shape)
    ensures ShapeLetter(s) != '/'
  {
  }

  /** The text `export_svg` writes for the viewport. */
  function ViewportText(vp: Viewport): string
  {
    "viewport=\"" + ExportPoint(vp.start) + " " + ExportPoint(vp.end) + "\""
  }

  lemma SvgLiterals()
    ensures "viewport=\"" == ['v'] + "iewport=\""
    ensures "</svg>" == "</" + "svg>"
    ensures NoWhitespace("iewport=\"") && NoWhitespace("<svg") && NoWhitespace("svg>")
    ensures AllWhitespace("\n") && AllWhitespace(" ")
    ensures ">\n" == ['>'] + "\n"
  {
  }

  /** `parse_viewport` reads back the viewport `export_svg` writes, for non-negative points. */
  lemma ViewportReads(cur: Cursor, vp: Viewport, w: seq<char>, more: seq<char>)
    requires NonNegative(vp.start) && NonNegative(vp.end) && AllWhitespace(w)
    requires Rest(cur) == w + (ViewportText(vp) + more)
    ensures Reads(ParseViewport(cur), vp, cur.text, Chr('"'), more)
  {
    SvgLiterals();
    var ps := ExportPoint(vp.start);
    var pe := ExportPoint(vp.end);
    var tail := pe + ['"'] + more;
    ViewportText4('v', "iewport=\"", ps, ' ', pe, '"', w, more);
    SkipWhitespace(cur, w, 'v', [] + "iewport=\"" + (ps + [' '] + tail));
    var v := NextNonWhitespace(cur);
    ConsumeExact(v, [], "iewport=\"", ps + [' '] + tail);
    var p := ConsumePattern(v, "iewport=\"").cursor;
    PointReads(p, [], vp.start, ' ', tail);
    PointReads(ParsePoint(p).cursor, [], vp.end, '"', more);
    ViewportSteps(cur);
  }

  /** `parse_viewport` once its pieces are read: both points, the second ending on the quote. */
  lemma ViewportSteps(cur: Cursor)
    requires NextNonWhitespace(cur).last == Chr('v')
    requires ConsumePattern(NextNonWhitespace(cur), "iewport=\"").Ok?
    requires var p := ConsumePattern(NextNonWhitespace(cur), "iewport=\"").cursor;
      && ParsePoint(p).Ok? && ParsePoint(ParsePoint(p).cursor).Ok?
      && ParsePoint(ParsePoint(p).cursor).cursor.last == Chr('"')
    ensures var p := ConsumePattern(NextNonWhitespace(cur), "iewport=\"").cursor;
      var e := ParsePoint(ParsePoint(p).cursor);
      ParseViewport(cur) == Ok(Viewport(ParsePoint(p).value, e.value), e.cursor)
  {
  }

  /** A document the writer writes and the reader reads back. */
  predicate ReadableDocument(doc: Svg)
  {
    NonNegative(doc.viewport.start) && NonNegative(doc.viewport.end) && AllReadable(doc.shapes)
  }

  /** The document the reader rebuilds from what the writer wrote for `doc`. */
  function ReadBackSvg(doc: Svg): (r: Svg)
    requires ReadableDocument(doc)
    ensures r.viewport == doc.viewport && |r.shapes| == |doc.shapes|
  {
    Svg(doc.viewport, ReadBackAll(doc.shapes))
  }

  lemma HeadIsWhitespace(cfg: ExportConfig)
    ensures AllWhitespace(if cfg.lineBreak then "\n" + WriteSpaces(cfg.tabSize) else " ")
  {
  }

  /** `parse_svg` once its pieces are read. */
  lemma SvgSteps(cur: Cursor)
    requires ConsumePattern(cur, "<svg").Ok?
    requires ParseViewport(ConsumePattern(cur, "<svg").cursor).Ok?
    requires var v := ParseViewport(ConsumePattern(cur, "<svg").cursor);
      var g := NextNonWhitespace(v.cursor);
      && g.last == Chr('>')
      && SvgShapes(g, []).Ok?
      && ConsumePattern(SvgShapes(g, []).cursor, "svg>").Ok?
    ensures var v := ParseViewport(ConsumePattern(cur, "<svg").cursor);
      var s := SvgShapes(NextNonWhitespace(v.cursor), []);
      ParseSvg(cur) == Ok(Svg(v.value, s.value), ConsumePattern(s.cursor, "svg>").cursor)
  {
  }

  /**
   * Reading back a written document: for every document with no negative
   * number and no group, and every layout, the reader accepts the text the
   * writer produces, reads it to its last character, and rebuilds
   * `ReadBackSvg(doc)`.
   */
  lemma DeserializeExport(doc: Svg, cfg: ExportConfig)
    requires ReadableDocument(doc)
    ensures var r := Deserialize(ExportSvg(doc, cfg));
      r.Ok? && r.value == ReadBackSvg(doc) && Rest(r.cursor) == []
  {
    DeserializeExportThen(doc, cfg, []);
    assert ExportSvg(doc, cfg) + [] == ExportSvg(doc, cfg);
  }

  /**
   * Whatever follows the closing `svg>` is never looked at: a written
   * document followed by any text reads back as the document alone, and the
   * reader stops right before that text.
   */
  lemma DeserializeExportThen(doc: Svg, cfg: ExportConfig, extra: string)
    requires ReadableDocument(doc)
    ensures var r := Deserialize(ExportSvg(doc, cfg) + extra);
      r.Ok? && r.value == ReadBackSvg(doc) && Rest(r.cursor) == extra
  {
    var g := HeadReads(doc, cfg, extra);
    BodyReads(doc, cfg, g, extra);
    SvgSteps(NewSerdelizer(ExportSvg(doc, cfg) + extra));
  }

  /** The shapes and the closing `svg>` of a written document, read up to the text after it. */
  lemma BodyReads(doc: Svg, cfg: ExportConfig, g: Cursor, extra: string)
    requires ReadableDocument(doc)
    requires Rest(g) == "\n" + (ExportShapes(doc.shapes, cfg, 1) + ("</" + ("svg>" + extra)))
    ensures var s := SvgShapes(g, []);
      && s.Ok? && s.value == ReadBackAll(doc.shapes)
      && var e := ConsumePattern(s.cursor, "svg>");
      && e.Ok? && Rest(e.cursor) == extra
  {
    LineFeedIsWhitespace();
    ShapesReads(g, [], doc.shapes, cfg, "\n", "svg>" + extra);
    var sc := SvgShapes(g, []).cursor;
    EmptyFront("svg>", extra);
    SvgLiterals();
    ConsumeExact(sc, [], "svg>", extra);
    EmptyPrefix(ReadBackAll(doc.shapes));
  }

  /** `<svg`, the viewport and the `>` of a written document: the cursor on the `>`, the shapes next. */
  lemma HeadReads(doc: Svg, cfg: ExportConfig, extra: string) returns (g: Cursor)
    requires ReadableDocument(doc)
    ensures var cur := NewSerdelizer(ExportSvg(doc, cfg) + extra);
      && ConsumePattern(cur, "<svg").Ok?
      && var v := ParseViewport(ConsumePattern(cur, "<svg").cursor);
      && v.Ok? && v.value == doc.viewport
      && g == NextNonWhitespace(v.cursor)
      && g.text == cur.text && g.last == Chr('>')
      && Rest(g) == "\n" + (ExportShapes(doc.shapes, cfg, 1) + ("</" + ("svg>" + extra)))
  {
    SvgLiterals();
    var vp := doc.viewport;
    var hd := if cfg.lineBreak then "\n" + WriteSpaces(cfg.tabSize) else " ";
    var sh := ExportShapes(doc.shapes, cfg, 1);
    var r2 := "\n" + (sh + ("</" + ("svg>" + extra)));
    var r1 := hd + (ViewportText(vp) + ([] + ['>'] + r2));
    SvgText("<svg", hd, "viewport=\"", ExportPoint(vp.start), " ", ExportPoint(vp.end), "\"", '>', "\n", sh, "</", "svg>", extra);
    var cur := NewSerdelizer(ExportSvg(doc, cfg) + extra);
    assert Rest(cur) == [] + "<svg" + r1;
    ConsumeExact(cur, [], "<svg", r1);
    var p := ConsumePattern(cur, "<svg").cursor;
    HeadIsWhitespace(cfg);
    ViewportReads(p, vp, hd, [] + ['>'] + r2);
    var v := ParseViewport(p).cursor;
    SkipWhitespace(v, [], '>', r2);
    g := NextNonWhitespace(v);
  }

  /**
   * A shape that comes back exactly as written: its outline colour is its
   * fill colour, its degree is already reduced, and an ellipse's two radii
   * are equal.
   */
  predicate RoundTrips(s: Shape)
  {
    && s.style.outline == s.style.fill
    && Reduced(s.style.rotate)
    && (s.Ellipse? ==> s.radiusX == s.radiusY)
  }

  lemma ReadStyleIsIdentity(st: Style)
    ensures ReadStyle(st) == st <==> st.outline == st.fill && Reduced(st.rotate)
  {
  }

  /** Reading back changes nothing exactly when the shape round-trips. */
  lemma ReadBackIsIdentity(s: Shape)
    requires ReadableShape(s)
    ensures ReadBack(s) == s <==> RoundTrips(s)
  {
    ReadStyleIsIdentity(s.style);
  }

  /** Reading back a shape list changes nothing exactly when every shape round-trips. */
  lemma ReadBackAllIsIdentity(shapes: seq<Shape>)
    requires AllReadable(shapes)
    ensures ReadBackAll(shapes) == shapes <==> forall i | 0 <= i < |shapes| :: RoundTrips(shapes[i])
  {
    var back := ReadBackAll(shapes);
    forall i | 0 <= i < |shapes|
      ensures back[i] == shapes[i] <==> RoundTrips(shapes[i])
    {
      ReadBackIsIdentity(shapes[i]);
    }
    if forall i | 0 <= i < |shapes| :: RoundTrips(shapes[i]) {
      assert back == shapes;
    }
  }

  /** The document read back is the document written exactly when every shape round-trips. */
  lemma DeserializeExportExact(doc: Svg, cfg: ExportConfig)
    requires ReadableDocument(doc)
    ensures Deserialize(ExportSvg(doc, cfg)).Ok?
    ensures Deserialize(ExportSvg(doc, cfg)).value == doc
      <==> forall i | 0 <= i < |doc.shapes| :: RoundTrips(doc.shapes[i])
  {
    DeserializeExport(doc, cfg);
    ReadBackAllIsIdentity(doc.shapes);
  }
}
