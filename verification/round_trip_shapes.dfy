/**
 * Reading back one leaf shape, one attribute at a time.  Each step lemma
 * takes the attribute loop of the shape parser across one parameter the
 * writer wrote: the loop after the step is the loop before it, with the
 * parameter's value in the fields or in the style.
 */
module ShapeRoundTrip {
  import opened CInt
  import opened SeqRegroup
  import opened Text
  import opened Serde
  import opened Optional
  import opened Model
  import opened Parser
  import opened Export
  import opened StyleParser
  import opened StyleExport
  import opened ShapeParser
  import opened PathParser
  import opened PathExport
  import opened ShapeExport
  import opened ValueRoundTrip
  import opened StyleRoundTrip
  import opened PointsRoundTrip
  import opened PathRoundTrip

  /** The loop across a style attribute, once the attribute is read. */
  lemma StyleStep(cur: Cursor, kind: ShapeKind, f: Fields, style: Style, read: Style, next: Cursor)
    requires var c := NextNonWhitespace(cur);
      && c.last.Chr? && c.last != Chr('/') && AttributeFor(kind, c.last).None?
      && ParseStyles(c, style) == Ok(read, next)
    ensures ShapeLoop(cur, kind, f, style) == ShapeLoop(next, kind, f, read)
  {
  }

  /** The loop across a shape attribute, once the attribute is read. */
  lemma AttributeStep(cur: Cursor, kind: ShapeKind, f: Fields, style: Style, a: Attribute, read: Fields, next: Cursor)
    requires var c := NextNonWhitespace(cur);
      && c.last != Chr('/') && AttributeFor(kind, c.last) == Some(a)
      && ParseAttribute(c, a, f) == Ok(read, next)
    ensures ShapeLoop(cur, kind, f, style) == ShapeLoop(next, kind, read, style)
  {
  }

  /** The style letters are not attribute letters of any shape. */
  lemma StyleLetters(kind: ShapeKind)
    ensures AttributeFor(kind, Chr('f')).None? && AttributeFor(kind, Chr('o')).None?
    ensures AttributeFor(kind, Chr('t')).None? && AttributeFor(kind, Chr('r')).None?
  {
  }

  /** `fill="..."`. */
  lemma FillStep(cur: Cursor, kind: ShapeKind, f: Fields, style: Style, color: Color,
                 cfg: ExportConfig, depth: int, w: seq<char>, rest: seq<char>) returns (next: Cursor)
    requires AllWhitespace(w)
    requires Rest(cur) == w + (Parameter(cfg, "fill", ExportColor(color), depth) + rest)
    ensures next.text == cur.text && Rest(next) == Separator(cfg) + rest
    ensures ShapeLoop(cur, kind, f, style) == ShapeLoop(next, kind, f, style.(fill := color))
  {
    AttributeStart(cur, cfg, "fill", ExportColor(color), depth, w, rest);
    var c := NextNonWhitespace(cur);
    FillReads(c, style, color, Separator(cfg) + rest);
    next := ParseStyles(c, style).cursor;
    StyleLetters(kind);
    StyleStep(cur, kind, f, style, style.(fill := color), next);
  }

  /** `outline="..."`. */
  lemma OutlineStep(cur: Cursor, kind: ShapeKind, f: Fields, style: Style, color: Color,
                    cfg: ExportConfig, depth: int, w: seq<char>, rest: seq<char>) returns (next: Cursor)
    requires AllWhitespace(w)
    requires Rest(cur) == w + (Parameter(cfg, "outline", ExportColor(color), depth) + rest)
    ensures next.text == cur.text && Rest(next) == Separator(cfg) + rest
    ensures ShapeLoop(cur, kind, f, style) == ShapeLoop(next, kind, f, style.(outline := color))
  {
    AttributeStart(cur, cfg, "outline", ExportColor(color), depth, w, rest);
    var c := NextNonWhitespace(cur);
    OutlineReads(c, style, color, Separator(cfg) + rest);
    next := ParseStyles(c, style).cursor;
    StyleLetters(kind);
    StyleStep(cur, kind, f, style, style.(outline := color), next);
  }

  /** `translate="..."`. */
  lemma TranslateStep(cur: Cursor, kind: ShapeKind, f: Fields, style: Style, p: Point,
                      cfg: ExportConfig, depth: int, w: seq<char>, rest: seq<char>) returns (next: Cursor)
    requires AllWhitespace(w) && NonNegative(p)
    requires Rest(cur) == w + (Parameter(cfg, "translate", ExportPoint(p), depth) + rest)
    ensures next.text == cur.text && Rest(next) == Separator(cfg) + rest
    ensures ShapeLoop(cur, kind, f, style) == ShapeLoop(next, kind, f, style.(translate := p))
  {
    AttributeStart(cur, cfg, "translate", ExportPoint(p), depth, w, rest);
    var c := NextNonWhitespace(cur);
    TranslateReads(c, style, p, Separator(cfg) + rest);
    next := ParseStyles(c, style).cursor;
    StyleLetters(kind);
    StyleStep(cur, kind, f, style, style.(translate := p), next);
  }

  /** `rotate="..."`. */
  lemma RotateStep(cur: Cursor, kind: ShapeKind, f: Fields, style: Style, rotate: Rotate,
                   cfg: ExportConfig, depth: int, w: seq<char>, rest: seq<char>) returns (next: Cursor)
    requires AllWhitespace(w) && (rotate.Circular? ==> rotate.degree >= 0)
    requires Rest(cur) == w + (Parameter(cfg, "rotate", RotateValue(rotate), depth) + rest)
    ensures next.text == cur.text && Rest(next) == Separator(cfg) + rest
    ensures ShapeLoop(cur, kind, f, style) == ShapeLoop(next, kind, f, style.(rotate := CloneRotate(rotate)))
  {
    AttributeStart(cur, cfg, "rotate", RotateValue(rotate), depth, w, rest);
    var c := NextNonWhitespace(cur);
    RotateReads(c, style, rotate, Separator(cfg) + rest);
    next := ParseStyles(c, style).cursor;
    StyleLetters(kind);
    StyleStep(cur, kind, f, style, style.(rotate := CloneRotate(rotate)), next);
  }

  /**
   * The four style attributes `export_styles` writes: whatever style the
   * loop held, it now holds the style the reader rebuilds from them.
   */
  lemma StylesStep(cur: Cursor, kind: ShapeKind, f: Fields, style: Style, st: Style,
                   cfg: ExportConfig, depth: int, w: seq<char>, rest: seq<char>) returns (next: Cursor)
    requires AllWhitespace(w) && ReadableStyle(st)
    requires Rest(cur) == w + (ExportStyles(st, cfg, depth) + rest)
    ensures next.text == cur.text && Rest(next) == Separator(cfg) + rest
    ensures ShapeLoop(cur, kind, f, style) == ShapeLoop(next, kind, f, ReadStyle(st))
  {
    var a := Parameter(cfg, "fill", ExportColor(st.fill), depth);
    var b := Parameter(cfg, "outline", ExportColor(st.fill), depth);
    var c := Parameter(cfg, "translate", ExportPoint(st.translate), depth);
    var d := Parameter(cfg, "rotate", RotateValue(st.rotate), depth);
    ExportRotateLayout(st, cfg, depth);
    assert ExportStyles(st, cfg, depth) == a + b + c + d;
    Nest4(a, b, c, d, rest);
    var sep := Separator(cfg);
    var n1 := FillStep(cur, kind, f, style, st.fill, cfg, depth, w, b + (c + (d + rest)));
    var s1 := style.(fill := st.fill);
    var n2 := OutlineStep(n1, kind, f, s1, st.fill, cfg, depth, sep, c + (d + rest));
    var s2 := s1.(outline := st.fill);
    var n3 := TranslateStep(n2, kind, f, s2, st.translate, cfg, depth, sep, d + rest);
    var s3 := s2.(translate := st.translate);
    next := RotateStep(n3, kind, f, s3, st.rotate, cfg, depth, sep, rest);
    assert s3.(rotate := CloneRotate(st.rotate)) == ReadStyle(st);
  }

  /** The letter that introduces each integer attribute. */
  function IntLetter(a: Attribute): char
    requires a == X || a == Y || a == Width || a == Height
  {
    match a
    case X => 'x'
    case Y => 'y'
    case Width => 'w'
    case Height => 'h'
  }

  /** What `parse_attribute` reads of the name after the letter. */
  function IntRest(a: Attribute): string
    requires a == X || a == Y || a == Width || a == Height
  {
    match a
    case X => ""
    case Y => ""
    case Width => "idth"
    case Height => "eight"
  }

  /** The name the writer gives each integer attribute. */
  function IntName(a: Attribute): (name: string)
    requires a == X || a == Y || a == Width || a == Height
    ensures |name| > 0 && name[0] == IntLetter(a) && name[1..] == IntRest(a)
    ensures NoWhitespace(name) && NoWhitespace(IntRest(a))
  {
    var name := [IntLetter(a)] + IntRest(a);
    assert name[1..] == IntRest(a);
    name
  }

  /** The fields with an integer attribute set. */
  function WithInt(f: Fields, a: Attribute, n: Int32): (r: Fields)
    requires a == X || a == Y || a == Width || a == Height
  {
    match a
    case X => f.(x := Some(n))
    case Y => f.(y := Some(n))
    case Width => f.(width := Some(n))
    case Height => f.(height := Some(n))
  }

  /** `parse_attribute` on an integer attribute, once the parameter is read. */
  lemma IntAttributeSteps(c: Cursor, kind: ShapeKind, a: Attribute, f: Fields, n: Int32, next: Cursor)
    requires kind == EllipseKind || kind == RectangleKind
    requires a == X || a == Y || a == Width || a == Height
    requires c.last == Chr(IntLetter(a))
    requires ParseIntParameter(c, IntRest(a)) == Ok(n, next)
    ensures AttributeFor(kind, c.last) == Some(a)
    ensures ParseAttribute(c, a, f) == Ok(WithInt(f, a, n), next)
  {
  }

  /** An integer attribute of an ellipse or a rectangle. */
  lemma IntStep(cur: Cursor, kind: ShapeKind, f: Fields, style: Style, a: Attribute, n: Int32,
                cfg: ExportConfig, depth: int, w: seq<char>, rest: seq<char>) returns (next: Cursor)
    requires kind == EllipseKind || kind == RectangleKind
    requires a == X || a == Y || a == Width || a == Height
    requires n >= 0 && AllWhitespace(w)
    requires Rest(cur) == w + (ExportIntParameter(cfg, IntName(a), n, depth) + rest)
    ensures next.text == cur.text && Rest(next) == Separator(cfg) + rest
    ensures ShapeLoop(cur, kind, f, style) == ShapeLoop(next, kind, WithInt(f, a, n), style)
  {
    var name := IntName(a);
    AttributeStart(cur, cfg, name, IntToString(n), depth, w, rest);
    var c := NextNonWhitespace(cur);
    IntParameterReads(c, IntRest(a), n, Separator(cfg) + rest);
    next := ParseIntParameter(c, IntRest(a)).cursor;
    IntAttributeSteps(c, kind, a, f, n, next);
    AttributeStep(cur, kind, f, style, a, WithInt(f, a, n), next);
  }

  /** `start="..."` or `end="..."` of a line. */
  lemma PointStep(cur: Cursor, f: Fields, style: Style, isStart: bool, p: Point,
                  cfg: ExportConfig, depth: int, w: seq<char>, rest: seq<char>) returns (next: Cursor)
    requires NonNegative(p) && AllWhitespace(w)
    requires Rest(cur) == w + (ExportPointParameter(cfg, if isStart then "start" else "end", p, depth) + rest)
    ensures next.text == cur.text && Rest(next) == Separator(cfg) + rest
    ensures ShapeLoop(cur, LineKind, f, style)
      == ShapeLoop(next, LineKind, if isStart then f.(start := Some(p)) else f.(end := Some(p)), style)
  {
    var name := if isStart then "start" else "end";
    assert NoWhitespace(name[1..]);
    AttributeStart(cur, cfg, name, ExportPoint(p), depth, w, rest);
    var c := NextNonWhitespace(cur);
    PointParameterReads(c, name[1..], p, Separator(cfg) + rest);
    next := ParsePointParameter(c, name[1..]).cursor;
    var a := if isStart then Start else End;
    var read := if isStart then f.(start := Some(p)) else f.(end := Some(p));
    PointAttributeSteps(c, a, f, p, next);
    AttributeStep(cur, LineKind, f, style, a, read, next);
  }

  /** `parse_attribute` on `start` or `end`, once the parameter is read. */
  lemma PointAttributeSteps(c: Cursor, a: Attribute, f: Fields, p: Point, next: Cursor)
    requires a == Start || a == End
    requires c.last == Chr(if a == Start then 's' else 'e')
    requires ParsePointParameter(c, if a == Start then "tart" else "nd") == Ok(p, next)
    ensures AttributeFor(LineKind, c.last) == Some(a)
    ensures ParseAttribute(c, a, f) == Ok(if a == Start then f.(start := Some(p)) else f.(end := Some(p)), next)
  {
  }

  /** `points="..."` of a multiline or a polygon. */
  lemma PointsStep(cur: Cursor, kind: ShapeKind, f: Fields, style: Style, points: seq<Point>,
                   cfg: ExportConfig, depth: int, w: seq<char>, rest: seq<char>) returns (next: Cursor)
    requires kind == MultilineKind || kind == PolygonKind
    requires |points| > 0 && AllNonNegative(points) && AllWhitespace(w)
    requires Rest(cur) == w + (ExportPointsParameter(cfg, "points", points, depth) + rest)
    ensures next.text == cur.text && Rest(next) == Separator(cfg) + rest
    ensures ShapeLoop(cur, kind, f, style) == ShapeLoop(next, kind, f.(points := Some(points)), style)
  {
    PointsName();
    AttributeStart(cur, cfg, "points", ExportPoints(points), depth, w, rest);
    var c := NextNonWhitespace(cur);
    PointsParameterReads(c, "oints", points, Separator(cfg) + rest);
    next := ParsePointsParameter(c, "oints").cursor;
    PointsAttributeSteps(c, kind, f, points, next);
    AttributeStep(cur, kind, f, style, Points, f.(points := Some(points)), next);
  }

  /** The name `points`, its first letter and the rest. */
  lemma PointsName()
    ensures "points"[0] == 'p' && "points"[1..] == "oints" && !IsWhitespaceChar('p') && NoWhitespace("oints")
  {
  }

  /** `parse_attribute` on `points`, once the parameter is read. */
  lemma PointsAttributeSteps(c: Cursor, kind: ShapeKind, f: Fields, points: seq<Point>, next: Cursor)
    requires kind == MultilineKind || kind == PolygonKind
    requires c.last == Chr('p') && ParsePointsParameter(c, "oints") == Ok(points, next)
    ensures AttributeFor(kind, c.last) == Some(Points)
    ensures ParseAttribute(c, Points, f) == Ok(f.(points := Some(points)), next)
  {
  }

  /** `parse_attribute` on `data`, once the commands are read. */
  lemma DataAttributeSteps(c: Cursor, f: Fields, es: seq<PathElement>, next: Cursor)
    requires c.last == Chr('d') && ParsePathElements(c) == Ok(es, next)
    ensures AttributeFor(PathKind, c.last) == Some(Data)
    ensures ParseAttribute(c, Data, f) == Ok(f.(data := Some(es)), next)
  {
    DataLetter();
  }

  lemma DataLetter()
    ensures AttributeFor(PathKind, Chr('d')) == Some(Data)
  {
  }

  /** `data="..."` of a path. */
  lemma DataStep(cur: Cursor, f: Fields, style: Style, es: seq<PathElement>,
                 cfg: ExportConfig, depth: int, w: seq<char>, rest: seq<char>) returns (next: Cursor)
    requires ReadablePath(es) && AllWhitespace(w)
    requires Rest(cur) == w + (ExportPathElements(es, cfg, depth) + rest)
    ensures next.text == cur.text && Rest(next) == Separator(cfg) + rest
    ensures ShapeLoop(cur, PathKind, f, style) == ShapeLoop(next, PathKind, f.(data := Some(es)), style)
  {
    AttributeStart(cur, cfg, "data", ExportElements(es), depth, w, rest);
    var c := NextNonWhitespace(cur);
    PathElementsReads(c, es, Separator(cfg) + rest);
    next := ParsePathElements(c).cursor;
    DataAttributeSteps(c, f, es, next);
    AttributeStep(cur, PathKind, f, style, Data, f.(data := Some(es)), next);
  }

  /** The inline close `/>`: the loop builds the shape from what it read. */
  lemma CloseStep(cur: Cursor, kind: ShapeKind, f: Fields, style: Style,
                  cfg: ExportConfig, depth: int, w: seq<char>, more: seq<char>) returns (g: Cursor)
    requires AllWhitespace(w)
    requires Rest(cur) == w + (ExportInlineCloseShape(cfg, depth) + more)
    ensures g.text == cur.text && g.last == Chr('>') && Rest(g) == more
    ensures ShapeLoop(cur, kind, f, style) == BuildShape(g, kind, f, style)
  {
    CloseReads(cur, cfg, depth, w, more);
    g := NextNonWhitespace(NextNonWhitespace(cur));
    CloseSteps(cur, kind, f, style);
  }

  /** The reader finds `/`, then `>`, whatever the indentation in front. */
  lemma CloseReads(cur: Cursor, cfg: ExportConfig, depth: int, w: seq<char>, more: seq<char>)
    requires AllWhitespace(w)
    requires Rest(cur) == w + (ExportInlineCloseShape(cfg, depth) + more)
    ensures var c := NextNonWhitespace(cur); var g := NextNonWhitespace(c);
      c.last == Chr('/') && g.text == cur.text && g.last == Chr('>') && Rest(g) == more
  {
    var i := Indent(cfg, depth);
    SplitClose(w, i, '/', '>', more);
    SkipWhitespace(cur, w + i, '/', ['>'] + more);
    SkipWhitespace(NextNonWhitespace(cur), [], '>', more);
  }

  /** The `/` `>` branch of the loop. */
  lemma CloseSteps(cur: Cursor, kind: ShapeKind, f: Fields, style: Style)
    requires NextNonWhitespace(cur).last == Chr('/')
    requires NextNonWhitespace(NextNonWhitespace(cur)).last == Chr('>')
    ensures ShapeLoop(cur, kind, f, style) == BuildShape(NextNonWhitespace(NextNonWhitespace(cur)), kind, f, style)
  {
  }

  /**
   * What follows the name of an ellipse or a rectangle: the style, the
   * four integer attributes in the order x, y, width, height, then `/>`.
   */
  function FourIntsBody(st: Style, x: Int32, y: Int32, w: Int32, h: Int32, cfg: ExportConfig, depth: int): string
  {
    ExportStyles(st, cfg, depth + 1)
    + ExportIntParameter(cfg, "x", x, depth + 1) + ExportIntParameter(cfg, "y", y, depth + 1)
    + ExportIntParameter(cfg, "width", w, depth + 1) + ExportIntParameter(cfg, "height", h, depth + 1)
    + ExportInlineCloseShape(cfg, depth)
  }

  lemma IntNames()
    ensures IntName(X) == "x" && IntName(Y) == "y" && IntName(Width) == "width" && IntName(Height) == "height"
  {
    assert IntName(X) == ['x'] + "";
    assert IntName(Width) == ['w'] + "idth";
    assert IntName(Height) == ['h'] + "eight";
  }

  /** The loop of an ellipse or a rectangle reads back the four integers and the style. */
  lemma FourIntsLoop(cur: Cursor, kind: ShapeKind, style: Style, st: Style, x: Int32, y: Int32, w: Int32, h: Int32,
                     cfg: ExportConfig, depth: int, more: seq<char>) returns (g: Cursor)
    requires kind == EllipseKind || kind == RectangleKind
    requires x >= 0 && y >= 0 && w >= 0 && h >= 0 && ReadableStyle(st)
    requires Rest(cur) == Separator(cfg) + (FourIntsBody(st, x, y, w, h, cfg, depth) + more)
    ensures g.text == cur.text && g.last == Chr('>') && Rest(g) == more
    ensures ShapeLoop(cur, kind, NO_FIELDS, style)
      == BuildShape(g, kind, NO_FIELDS.(x := Some(x), y := Some(y), width := Some(w), height := Some(h)), ReadStyle(st))
  {
    var d := depth + 1;
    var ps := ExportStyles(st, cfg, d);
    var px := ExportIntParameter(cfg, IntName(X), x, d);
    var py := ExportIntParameter(cfg, IntName(Y), y, d);
    var pw := ExportIntParameter(cfg, IntName(Width), w, d);
    var ph := ExportIntParameter(cfg, IntName(Height), h, d);
    var pc := ExportInlineCloseShape(cfg, depth);
    IntNames();
    Nest6(ps, px, py, pw, ph, pc, more);
    var n0 := StylesStep(cur, kind, NO_FIELDS, style, st, cfg, d, Separator(cfg), px + (py + (pw + (ph + (pc + more)))));
    g := FourIntsAttributes(n0, kind, ReadStyle(st), x, y, w, h, cfg, depth, more);
  }

  /** The four integer attributes, then the close. */
  lemma FourIntsAttributes(cur: Cursor, kind: ShapeKind, read: Style, x: Int32, y: Int32, w: Int32, h: Int32,
                           cfg: ExportConfig, depth: int, more: seq<char>) returns (g: Cursor)
    requires kind == EllipseKind || kind == RectangleKind
    requires x >= 0 && y >= 0 && w >= 0 && h >= 0
    requires Rest(cur) == Separator(cfg) + (ExportIntParameter(cfg, IntName(X), x, depth + 1)
      + (ExportIntParameter(cfg, IntName(Y), y, depth + 1) + (ExportIntParameter(cfg, IntName(Width), w, depth + 1)
      + (ExportIntParameter(cfg, IntName(Height), h, depth + 1) + (ExportInlineCloseShape(cfg, depth) + more)))))
    ensures g.text == cur.text && g.last == Chr('>') && Rest(g) == more
    ensures ShapeLoop(cur, kind, NO_FIELDS, read)
      == BuildShape(g, kind, NO_FIELDS.(x := Some(x), y := Some(y), width := Some(w), height := Some(h)), read)
  {
    var sep := Separator(cfg);
    var d := depth + 1;
    var ph := ExportIntParameter(cfg, IntName(Height), h, d);
    var pw := ExportIntParameter(cfg, IntName(Width), w, d);
    var pc := ExportInlineCloseShape(cfg, depth);
    var n1 := IntStep(cur, kind, NO_FIELDS, read, X, x, cfg, d, sep,
      ExportIntParameter(cfg, IntName(Y), y, d) + (pw + (ph + (pc + more))));
    var f1 := WithInt(NO_FIELDS, X, x);
    var n2 := IntStep(n1, kind, f1, read, Y, y, cfg, d, sep, pw + (ph + (pc + more)));
    var f2 := WithInt(f1, Y, y);
    g := LastTwoInts(n2, kind, f2, read, w, h, cfg, depth, more);
  }

  /** `width`, `height`, then the close. */
  lemma LastTwoInts(cur: Cursor, kind: ShapeKind, f: Fields, read: Style, w: Int32, h: Int32,
                    cfg: ExportConfig, depth: int, more: seq<char>) returns (g: Cursor)
    requires kind == EllipseKind || kind == RectangleKind
    requires w >= 0 && h >= 0
    requires Rest(cur) == Separator(cfg) + (ExportIntParameter(cfg, IntName(Width), w, depth + 1)
      + (ExportIntParameter(cfg, IntName(Height), h, depth + 1) + (ExportInlineCloseShape(cfg, depth) + more)))
    ensures g.text == cur.text && g.last == Chr('>') && Rest(g) == more
    ensures ShapeLoop(cur, kind, f, read) == BuildShape(g, kind, f.(width := Some(w), height := Some(h)), read)
  {
    var sep := Separator(cfg);
    var d := depth + 1;
    var pc := ExportInlineCloseShape(cfg, depth);
    var n3 := IntStep(cur, kind, f, read, Width, w, cfg, d, sep, ExportIntParameter(cfg, IntName(Height), h, d) + (pc + more));
    var f3 := WithInt(f, Width, w);
    var n4 := IntStep(n3, kind, f3, read, Height, h, cfg, d, sep, pc + more);
    g := CloseStep(n4, kind, WithInt(f3, Height, h), read, cfg, depth, sep, more);
  }

  /** The loop of a line reads back `start`, `end` and the style. */
  lemma LineLoop(cur: Cursor, style: Style, st: Style, start: Point, end: Point,
                 cfg: ExportConfig, depth: int, more: seq<char>) returns (g: Cursor)
    requires NonNegative(start) && NonNegative(end) && ReadableStyle(st)
    requires Rest(cur) == Separator(cfg) + (ExportStyles(st, cfg, depth + 1)
      + ExportPointParameter(cfg, "start", start, depth + 1) + ExportPointParameter(cfg, "end", end, depth + 1)
      + ExportInlineCloseShape(cfg, depth) + more)
    ensures g.text == cur.text && g.last == Chr('>') && Rest(g) == more
    ensures ShapeLoop(cur, LineKind, NO_FIELDS, style)
      == BuildShape(g, LineKind, NO_FIELDS.(start := Some(start), end := Some(end)), ReadStyle(st))
  {
    var sep := Separator(cfg);
    var d := depth + 1;
    var ps := ExportStyles(st, cfg, d);
    var pa := ExportPointParameter(cfg, "start", start, d);
    var pb := ExportPointParameter(cfg, "end", end, d);
    var pc := ExportInlineCloseShape(cfg, depth);
    Nest4(ps, pa, pb, pc, more);
    var n0 := StylesStep(cur, LineKind, NO_FIELDS, style, st, cfg, d, sep, pa + (pb + (pc + more)));
    var read := ReadStyle(st);
    var n1 := PointStep(n0, NO_FIELDS, read, true, start, cfg, d, sep, pb + (pc + more));
    var f1 := NO_FIELDS.(start := Some(start));
    var n2 := PointStep(n1, f1, read, false, end, cfg, d, sep, pc + more);
    g := CloseStep(n2, LineKind, f1.(end := Some(end)), read, cfg, depth, sep, more);
  }

  /** The loop of a multiline or a polygon reads back the points and the style. */
  lemma PointListLoop(cur: Cursor, kind: ShapeKind, style: Style, st: Style, points: seq<Point>,
                      cfg: ExportConfig, depth: int, more: seq<char>) returns (g: Cursor)
    requires kind == MultilineKind || kind == PolygonKind
    requires |points| > 0 && AllNonNegative(points) && ReadableStyle(st)
    requires Rest(cur) == Separator(cfg) + (ExportStyles(st, cfg, depth + 1)
      + ExportPointsParameter(cfg, "points", points, depth + 1) + ExportInlineCloseShape(cfg, depth) + more)
    ensures g.text == cur.text && g.last == Chr('>') && Rest(g) == more
    ensures ShapeLoop(cur, kind, NO_FIELDS, style)
      == BuildShape(g, kind, NO_FIELDS.(points := Some(points)), ReadStyle(st))
  {
    var sep := Separator(cfg);
    var d := depth + 1;
    var ps := ExportStyles(st, cfg, d);
    var pp := ExportPointsParameter(cfg, "points", points, d);
    var pc := ExportInlineCloseShape(cfg, depth);
    Nest3(ps, pp, pc, more);
    var n0 := StylesStep(cur, kind, NO_FIELDS, style, st, cfg, d, sep, pp + (pc + more));
    var read := ReadStyle(st);
    var n1 := PointsStep(n0, kind, NO_FIELDS, read, points, cfg, d, sep, pc + more);
    g := CloseStep(n1, kind, NO_FIELDS.(points := Some(points)), read, cfg, depth, sep, more);
  }

  /** The loop of a `draw` shape reads back the commands and the style. */
  lemma PathShapeLoop(cur: Cursor, style: Style, st: Style, es: seq<PathElement>,
                      cfg: ExportConfig, depth: int, more: seq<char>) returns (g: Cursor)
    requires ReadablePath(es) && ReadableStyle(st)
    requires Rest(cur) == Separator(cfg) + (ExportStyles(st, cfg, depth + 1)
      + ExportPathElements(es, cfg, depth + 1) + ExportInlineCloseShape(cfg, depth) + more)
    ensures g.text == cur.text && g.last == Chr('>') && Rest(g) == more
    ensures ShapeLoop(cur, PathKind, NO_FIELDS, style)
      == BuildShape(g, PathKind, NO_FIELDS.(data := Some(es)), ReadStyle(st))
  {
    var sep := Separator(cfg);
    var d := depth + 1;
    var ps := ExportStyles(st, cfg, d);
    var pp := ExportPathElements(es, cfg, d);
    var pc := ExportInlineCloseShape(cfg, depth);
    Nest3(ps, pp, pc, more);
    var n0 := StylesStep(cur, PathKind, NO_FIELDS, style, st, cfg, d, sep, pp + (pc + more));
    var read := ReadStyle(st);
    var n1 := DataStep(n0, NO_FIELDS, read, es, cfg, d, sep, pc + more);
    g := CloseStep(n1, PathKind, NO_FIELDS.(data := Some(es)), read, cfg, depth, sep, more);
  }
}
