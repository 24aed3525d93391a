/** The style writers: the four style attributes, always all four, in a fixed order. */
module StyleExport {
  import opened Text
  import opened Model
  import opened Export

  /** `export_fill`. */
  function ExportFill(style: Style, cfg: ExportConfig, depth: int): string
  {
    ExportColorParameter(cfg, "fill", style.fill, depth)
  }

  /** `export_outline`: the attribute is named `outline`, but the colour written is the fill colour. */
  function ExportOutline(style: Style, cfg: ExportConfig, depth: int): string
  {
    ExportColorParameter(cfg, "outline", style.fill, depth)
  }

  /** `export_translate`. */
  function ExportTranslate(style: Style, cfg: ExportConfig, depth: int): string
  {
    ExportPointParameter(cfg, "translate", style.translate, depth)
  }

  /** `export_rotate`: the flips as the strings `X` and `Y`, a circular rotation as its signed degree. */
  function ExportRotate(style: Style, cfg: ExportConfig, depth: int): string
  {
    match style.rotate
    case FlipX => ExportStringParameter(cfg, "rotate", "X", depth)
    case FlipY => ExportStringParameter(cfg, "rotate", "Y", depth)
    case Circular(d) => ExportIntParameter(cfg, "rotate", d, depth)
  }

  /** `export_styles`: fill, outline, translate, rotate. */
  function ExportStyles(style: Style, cfg: ExportConfig, depth: int): string
  {
    ExportFill(style, cfg, depth) + ExportOutline(style, cfg, depth)
    + ExportTranslate(style, cfg, depth) + ExportRotate(style, cfg, depth)
  }

  /** The outline colour never reaches the text. */
  lemma OutlineNotWritten(style: Style, other: Color, cfg: ExportConfig, depth: int)
    ensures ExportStyles(style.(outline := other), cfg, depth) == ExportStyles(style, cfg, depth)
  {
  }
}
