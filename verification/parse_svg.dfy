/** The document element: `<svg viewport="...">`, the shapes, `</svg>`. */
module SvgParser {
  import opened Serde
  import opened Model
  import opened Parser
  import opened ShapeParser

  /**
   * The shape loop of `parse_svg`.  Unlike a group, the loop stops at the
   * first character that is not '<' (as well as at `</` and at the end of
   * the text); the caller then requires `svg>`.  Top-level shapes inherit
   * the default style.
   */
  function SvgShapes(cur: Cursor, acc: seq<Shape>): (r: Parsed<seq<Shape>>)
    ensures r.Ok? ==> Advanced(cur, r.cursor) && acc <= r.value
    ensures r.Ok? ==> r.cursor.last != Chr('<')
    decreases Remaining(cur)
  {
    var c := NextNonWhitespace(cur);
    if c.last != Chr('<') then Ok(acc, c)
    else
      var d := NextNonWhitespace(c);
      if d.last == Chr('/') then Ok(acc, d)
      else
        var s := ParseShape(d, DefaultStyle());
        if s.Fail? then Fail(s.error) else SvgShapes(s.cursor, acc + [s.value])
  }

  /** `parse_svg`.  Whatever follows the closing `svg>` is not read. */
  function ParseSvg(cur: Cursor): (r: Parsed<Svg>)
    ensures r.Ok? ==> Advanced(cur, r.cursor) && Remaining(r.cursor) < Remaining(cur) && r.cursor.last == Chr('>')
    ensures !("<svg" <= NonWhitespace(Rest(cur))) ==> r.Fail?
  {
    var p := ConsumePattern(cur, "<svg");
    if p.Fail? then Fail(p.error)
    else
      var v := ParseViewport(p.cursor);
      if v.Fail? then Fail(v.error)
      else
        var g := NextNonWhitespace(v.cursor);
        if g.last != Chr('>') then FailAt(g, Syntax)
        else
          var shapes := SvgShapes(g, []);
          if shapes.Fail? then Fail(shapes.error)
          else
            var e := ConsumePattern(shapes.cursor, "svg>");
            if e.Fail? then Fail(e.error) else Ok(Svg(v.value, shapes.value), e.cursor)
  }

  /** A whole text read from a fresh reader. */
  function Deserialize(text: string): (r: Parsed<Svg>)
    ensures r.Ok? ==> |text| > 0 && r.cursor.text == text
  {
    ParseSvg(NewSerdelizer(text))
  }
}
