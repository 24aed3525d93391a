/**
 * The shape writers.  A leaf shape is its name, its four style attributes
 * and its own attributes one level deeper, then `/>`; a group is its name,
 * its style, `>`, its children one level deeper, then a closing tag.
 * Every shape is followed by a line feed.
 */
module ShapeExport {
  import opened Serde
  import opened Model
  import opened Export
  import opened StyleExport
  import opened PathExport
  import opened SeqRegroup

  /** `export_shape_name`: indentation (whatever the layout), '<' and the name, then the separator. */
  function ExportShapeName(cfg: ExportConfig, name: string, depth: int): string
  {
    WriteSpaces(depth * cfg.tabSize) + "<" + name + Separator(cfg)
  }

  /** `export_inline_close_shape`: `/>`, indented only when breaking lines. */
  function ExportInlineCloseShape(cfg: ExportConfig, depth: int): string
  {
    Indent(cfg, depth) + "/>"
  }

  /** `export_close_shape`: indentation, then `<name/>`. */
  function ExportCloseShape(cfg: ExportConfig, name: string, depth: int): string
  {
    WriteSpaces(depth * cfg.tabSize) + "<" + name + "/>"
  }

  /** `export_ellipse`: `width` carries `radiusY` and `height` carries `radiusX`. */
  function ExportEllipse(e: Shape, cfg: ExportConfig, depth: int): string
    requires e.Ellipse?
  {
    ExportShapeName(cfg, "ellipse", depth) + ExportStyles(e.style, cfg, depth + 1)
    + ExportIntParameter(cfg, "x", e.centerX, depth + 1)
    + ExportIntParameter(cfg, "y", e.centerY, depth + 1)
    + ExportIntParameter(cfg, "width", e.radiusY, depth + 1)
    + ExportIntParameter(cfg, "height", e.radiusX, depth + 1)
    + ExportInlineCloseShape(cfg, depth)
  }

  /** `export_rectangle`: x, y, width, height. */
  function ExportRectangle(r: Shape, cfg: ExportConfig, depth: int): string
    requires r.Rectangle?
  {
    ExportShapeName(cfg, "rectangle", depth) + ExportStyles(r.style, cfg, depth + 1)
    + ExportIntParameter(cfg, "x", r.x, depth + 1)
    + ExportIntParameter(cfg, "y", r.y, depth + 1)
    + ExportIntParameter(cfg, "width", r.width, depth + 1)
    + ExportIntParameter(cfg, "height", r.height, depth + 1)
    + ExportInlineCloseShape(cfg, depth)
  }

  /** `export_line`: start, then end. */
  function ExportLine(l: Shape, cfg: ExportConfig, depth: int): string
    requires l.Line?
  {
    ExportShapeName(cfg, "line", depth) + ExportStyles(l.style, cfg, depth + 1)
    + ExportPointParameter(cfg, "start", l.start, depth + 1)
    + ExportPointParameter(cfg, "end", l.end, depth + 1)
    + ExportInlineCloseShape(cfg, depth)
  }

  /** `export_multiline`. */
  function ExportMultiline(m: Shape, cfg: ExportConfig, depth: int): string
    requires m.Multiline? && |m.points| > 0
  {
    ExportShapeName(cfg, "multiline", depth) + ExportStyles(m.style, cfg, depth + 1)
    + ExportPointsParameter(cfg, "points", m.points, depth + 1)
    + ExportInlineCloseShape(cfg, depth)
  }

  /** `export_polygon`. */
  function ExportPolygon(p: Shape, cfg: ExportConfig, depth: int): string
    requires p.Polygon? && |p.points| > 0
  {
    ExportShapeName(cfg, "polygon", depth) + ExportStyles(p.style, cfg, depth + 1)
    + ExportPointsParameter(cfg, "points", p.points, depth + 1)
    + ExportInlineCloseShape(cfg, depth)
  }

  /** `export_path`: the element is named `draw`. */
  function ExportPath(p: Shape, cfg: ExportConfig, depth: int): string
    requires p.Path? && |p.elements| > 0
  {
    ExportShapeName(cfg, "draw", depth) + ExportStyles(p.style, cfg, depth + 1)
    + ExportPathElements(p.elements, cfg, depth + 1)
    + ExportInlineCloseShape(cfg, depth)
  }

  /** What the writers need: every point list and every command list not empty, at every depth. */
  predicate Writable(s: Shape)
    decreases s
  {
    && ((s.Multiline? || s.Polygon?) ==> |s.points| > 0)
    && (s.Path? ==> |s.elements| > 0)
    && (s.Group? ==> forall i | 0 <= i < |s.shapes| :: Writable(s.shapes[i]))
  }

  /**
   * `export_group`: the header, `>` and a line feed, the children one level
   * deeper, then the closing tag, which is written `<group/>`.
   */
  function ExportGroup(g: Shape, cfg: ExportConfig, depth: int): string
    requires g.Group? && Writable(g)
    decreases g, 0
  {
    ExportShapeName(cfg, "group", depth) + ExportStyles(g.style, cfg, depth + 1)
    + Indent(cfg, depth) + ">\n"
    + ExportShapes(g.shapes, cfg, depth + 1)
    + ExportCloseShape(cfg, "group", depth)
  }

  /**
   * A group is closed by `<group/>`, written the way an empty element is,
   * rather than by an end tag `</group>`.
   */
  lemma GroupClosedInline(g: Shape, cfg: ExportConfig, depth: int)
    requires g.Group? && Writable(g)
    ensures var t := ExportGroup(g, cfg, depth);
      |t| >= 8 && t[|t| - 8..] == "<group/>"
  {
    var head := ExportShapeName(cfg, "group", depth) + ExportStyles(g.style, cfg, depth + 1)
      + Indent(cfg, depth) + ">\n" + ExportShapes(g.shapes, cfg, depth + 1);
    assert ExportGroup(g, cfg, depth) == head + ExportCloseShape(cfg, "group", depth);
    ClosedBy(head, cfg, "group", depth);
    GroupCloseText();
  }

  lemma GroupCloseText()
    ensures "<" + "group" + "/>" == "<group/>"
  {
  }

  /** Whatever precedes it, a text ending in `export_close_shape` ends in `<name/>`. */
  lemma ClosedBy(head: string, cfg: ExportConfig, name: string, depth: int)
    ensures var t := head + ExportCloseShape(cfg, name, depth);
      |t| >= |name| + 3 && t[|t| - |name| - 3..] == "<" + name + "/>"
  {
    EndsWith(head, WriteSpaces(depth * cfg.tabSize), "<" + name + "/>");
  }

  /** The loop over a shape list: each shape in order, at the same depth. */
  function ExportShapes(shapes: seq<Shape>, cfg: ExportConfig, depth: int): string
    requires forall i | 0 <= i < |shapes| :: Writable(shapes[i])
    decreases shapes
  {
    if |shapes| == 0 then [] else ExportShape(shapes[0], cfg, depth) + ExportShapes(shapes[1..], cfg, depth)
  }

  /** `export_shape`: the variant's writer, then a line feed. */
  function ExportShape(s: Shape, cfg: ExportConfig, depth: int): (t: string)
    requires Writable(s)
    ensures |t| > 0 && t[|t| - 1] == '\n'
    decreases s, 1
  {
    var body := match s
      case Ellipse(_, _, _, _, _) => ExportEllipse(s, cfg, depth)
      case Rectangle(_, _, _, _, _) => ExportRectangle(s, cfg, depth)
      case Line(_, _, _) => ExportLine(s, cfg, depth)
      case Multiline(_, _) => ExportMultiline(s, cfg, depth)
      case Polygon(_, _) => ExportPolygon(s, cfg, depth)
      case Path(_, _) => ExportPath(s, cfg, depth)
      case Group(_, _) => ExportGroup(s, cfg, depth);
    body + "\n"
  }
}
