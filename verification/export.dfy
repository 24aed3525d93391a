/**
 * The writer side: the configuration, the value writers and the
 * `name="value"` parameter writers.  Every writer is a function giving the
 * text it appends to the file.  None of them ever hands `write_to_file` an
 * empty text, so the only way a C writer fails is a failing stream, which
 * is not modelled.
 */
module Export {
  import opened CInt
  import opened Text
  import opened Serde
  import opened Optional
  import opened Model
  import opened Parser

  datatype ExportConfig = ExportConfig(tabSize: Int32, lineBreak: bool)

  /** `new_export_config`: refused (NULL) unless the tab size is positive. */
  function NewExportConfig(tabSize: Int32, lineBreak: bool): (r: Option<ExportConfig>)
    ensures r.Some? <==> tabSize > 0
    ensures r.Some? ==> r.value.tabSize == tabSize && r.value.lineBreak == lineBreak
  {
    if tabSize <= 0 then None else Some(ExportConfig(tabSize, lineBreak))
  }

  /**
   * The indentation of a parameter or of an inline closing tag:
   * `depth * tab_size` spaces, written only when breaking lines.
   */
  function Indent(cfg: ExportConfig, depth: int): (s: string)
    ensures AllWhitespace(s)
    ensures |s| == if cfg.lineBreak && depth * cfg.tabSize > 0 then depth * cfg.tabSize else 0
  {
    if cfg.lineBreak then WriteSpaces(depth * cfg.tabSize) else []
  }

  /** What ends a parameter or a shape name: a line feed when breaking lines, a space otherwise. */
  function Separator(cfg: ExportConfig): (s: string)
    ensures |s| == 1 && IsWhitespaceChar(s[0])
    ensures s[0] == '\n' <==> cfg.lineBreak
  {
    if cfg.lineBreak then "\n" else " "
  }

  /** The characters `%d` can print. */
  predicate IsNumberChar(c: char)
  {
    IsDigitChar(c) || c == '-'
  }

  /** Numbers and spaces only: nothing that can end a parameter or a tag. */
  predicate NumbersText(s: string)
  {
    forall i | 0 <= i < |s| :: IsNumberChar(s[i]) || s[i] == ' '
  }

  /** `export_point`: `x y` in decimal; nothing in it can end a parameter or a tag. */
  function ExportPoint(p: Point): (s: string)
    ensures |s| >= 3 && NumbersText(s)
  {
    IntToString(p.x) + " " + IntToString(p.y)
  }

  /** The four bytes of a colour as `%02x` prints them, one after the other. */
  function HexString(bs: seq<Byte>): (s: string)
    ensures |s| == 2 * |bs|
    ensures IsHexText(s, |bs|)
    ensures HexBytes(s, |bs|) == bs
  {
    if |bs| == 0 then []
    else
      var h := Hex2(bs[0]);
      var s := h + HexString(bs[1..]);
      assert s[2..] == HexString(bs[1..]);
      HexTextStep(s, |bs|);
      HexBytesStep(s, |bs|);
      s
  }

  /**
   * `export_color`: '#' and two lowercase hexadecimal digits for each of red,
   * green, blue and alpha.  The colour the reader finds at the head of this
   * text is the colour written.
   */
  function ExportColor(c: Color): (s: string)
    ensures |s| == 9 && IsColorText(s) && ColorOf(s) == c
  {
    var s := "#" + HexString([c.red, c.green, c.blue, c.alpha]);
    assert s[1..] == HexString([c.red, c.green, c.blue, c.alpha]);
    s
  }

  /** `export_close_parameter`: the closing quote, then the separator. */
  function ExportCloseParameter(cfg: ExportConfig): (s: string)
    ensures |s| == 2 && s[0] == '"' && IsWhitespaceChar(s[1])
  {
    "\"" + Separator(cfg)
  }

  /**
   * The layout every parameter writer shares: the indentation, `name="`,
   * the value's text, then the closing quote and the separator.
   */
  function Parameter(cfg: ExportConfig, name: string, value: string, depth: int): (s: string)
    ensures |s| == |Indent(cfg, depth)| + |name| + |value| + 4
    ensures s[|s| - 2] == '"' && IsWhitespaceChar(s[|s| - 1])
  {
    Indent(cfg, depth) + name + "=\"" + value + ExportCloseParameter(cfg)
  }

  /** `export_int_parameter`: the value in signed decimal. */
  function ExportIntParameter(cfg: ExportConfig, name: string, value: Int32, depth: int): (s: string)
  {
    Parameter(cfg, name, IntToString(value), depth)
  }

  /** `export_color_parameter`: the value as `export_color` writes it. */
  function ExportColorParameter(cfg: ExportConfig, name: string, value: Color, depth: int): (s: string)
  {
    Parameter(cfg, name, ExportColor(value), depth)
  }

  /** `export_point_parameter`: the value as `export_point` writes it. */
  function ExportPointParameter(cfg: ExportConfig, name: string, value: Point, depth: int): (s: string)
  {
    Parameter(cfg, name, ExportPoint(value), depth)
  }

  /**
   * The points of `export_points_parameter`, separated by single spaces.
   * The C loop reads `node->next` before testing the list, so it needs a
   * point to start with.
   */
  function ExportPoints(points: seq<Point>): (s: string)
    requires |points| > 0
    ensures |s| >= 4 * |points| - 1 && NumbersText(s)
  {
    if |points| == 1 then ExportPoint(points[0])
    else ExportPoint(points[0]) + " " + ExportPoints(points[1..])
  }

  /** `export_points_parameter`. */
  function ExportPointsParameter(cfg: ExportConfig, name: string, points: seq<Point>, depth: int): (s: string)
    requires |points| > 0
  {
    Parameter(cfg, name, ExportPoints(points), depth)
  }

  /** `export_string_parameter`: the value verbatim. */
  function ExportStringParameter(cfg: ExportConfig, name: string, value: string, depth: int): (s: string)
  {
    Parameter(cfg, name, value, depth)
  }
}
