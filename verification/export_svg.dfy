/** The document writer. */
module SvgExport {
  import opened Serde
  import opened Model
  import opened Export
  import opened ShapeExport

  /**
   * `export_svg`: `<svg`, a line feed and one tab of spaces (or a single
   * space), the viewport as four numbers, `>` and a line feed, every shape
   * at depth 1, then `</svg>`.
   */
  function ExportSvg(doc: Svg, cfg: ExportConfig): string
    requires forall i | 0 <= i < |doc.shapes| :: Writable(doc.shapes[i])
  {
    "<svg" + (if cfg.lineBreak then "\n" + WriteSpaces(cfg.tabSize) else " ")
    + "viewport=\"" + ExportPoint(doc.viewport.start) + " " + ExportPoint(doc.viewport.end) + "\""
    + ">\n" + ExportShapes(doc.shapes, cfg, 1) + "</svg>"
  }
}
