/**
 * Reading back the four style attributes.  What comes back is not quite
 * what was written: the outline is read as the fill colour, because the
 * writer puts the fill colour under `outline`, and a degree goes through
 * `new_circular` again.
 */
module StyleRoundTrip {
  import opened CInt
  import opened SeqRegroup
  import opened Text
  import opened Serde
  import opened Model
  import opened Parser
  import opened Export
  import opened StyleParser
  import opened StyleExport
  import opened ValueRoundTrip

  /** The styles the writer can write and the reader read back: no negative number in them. */
  predicate ReadableStyle(st: Style)
  {
    NonNegative(st.translate) && (st.rotate.Circular? ==> st.rotate.degree >= 0)
  }

  /** The style the reader rebuilds from the four attributes the writer wrote for `st`. */
  function ReadStyle(st: Style): (r: Style)
    ensures r.fill == r.outline == st.fill && r.translate == st.translate
    ensures Reduced(st.rotate) ==> r.rotate == st.rotate
  {
    Style(st.fill, st.fill, st.translate, CloneRotate(st.rotate))
  }

  /** The text `export_rotate` writes as the value of `rotate`. */
  function RotateValue(r: Rotate): string
  {
    match r
    case FlipX => "X"
    case FlipY => "Y"
    case Circular(d) => IntToString(d)
  }

  /** Both branches of `export_rotate` are the same parameter layout. */
  lemma ExportRotateLayout(st: Style, cfg: ExportConfig, depth: int)
    ensures ExportRotate(st, cfg, depth) == Parameter(cfg, "rotate", RotateValue(st.rotate), depth)
  {
  }

  /** `fill`, its first letter just read. */
  lemma FillReads(cur: Cursor, style: Style, color: Color, more: seq<char>)
    requires cur.last == Chr('f')
    requires Rest(cur) == "ill" + "=\"" + ExportColor(color) + "\"" + more
    ensures Reads(ParseStyles(cur, style), style.(fill := color), cur.text, Chr('"'), more)
  {
    ColorParameterReads(cur, "ill", color, more);
  }

  /** `outline`, its first letter just read. */
  lemma OutlineReads(cur: Cursor, style: Style, color: Color, more: seq<char>)
    requires cur.last == Chr('o')
    requires Rest(cur) == "utline" + "=\"" + ExportColor(color) + "\"" + more
    ensures Reads(ParseStyles(cur, style), style.(outline := color), cur.text, Chr('"'), more)
  {
    ColorParameterReads(cur, "utline", color, more);
  }

  /** `translate`, its first letter just read. */
  lemma TranslateReads(cur: Cursor, style: Style, p: Point, more: seq<char>)
    requires cur.last == Chr('t') && NonNegative(p)
    requires Rest(cur) == "ranslate" + "=\"" + ExportPoint(p) + "\"" + more
    ensures Reads(ParseStyles(cur, style), style.(translate := p), cur.text, Chr('"'), more)
  {
    PointParameterReads(cur, "ranslate", p, more);
  }

  /** `otate="` of `rotate`, its first letter just read. */
  lemma RotateOpens(cur: Cursor, v: string, more: seq<char>)
    requires Rest(cur) == "otate" + "=\"" + v + "\"" + more
    ensures Reads(ConsumePattern(cur, "otate=\""), (), cur.text, Chr('"'), v + "\"" + more)
  {
    assert "otate" + "=\"" == "otate=\"";
    assert Rest(cur) == [] + "otate=\"" + (v + "\"" + more);
    ConsumeExact(cur, [], "otate=\"", v + "\"" + more);
  }

  /** `rotate="X"` or `rotate="Y"`: the flip, and the cursor on the quote. */
  lemma FlipReads(cur: Cursor, style: Style, rotate: Rotate, more: seq<char>)
    requires cur.last == Chr('r') && (rotate.FlipX? || rotate.FlipY?)
    requires Rest(cur) == "otate" + "=\"" + RotateValue(rotate) + "\"" + more
    ensures Reads(ParseStyles(cur, style), style.(rotate := rotate), cur.text, Chr('"'), more)
  {
    RotateOpens(cur, RotateValue(rotate), more);
    FlipValueReads(ConsumePattern(cur, "otate=\"").cursor, rotate, more);
    FlipSteps(cur, style, rotate, more);
  }

  /** The letter of a flip, then the quote, each found by skipping whitespace. */
  lemma FlipValueReads(cur: Cursor, rotate: Rotate, more: seq<char>)
    requires rotate.FlipX? || rotate.FlipY?
    requires Rest(cur) == RotateValue(rotate) + "\"" + more
    ensures var c := NextNonWhitespace(cur); var q := NextNonWhitespace(c);
      && c.last == Chr(if rotate.FlipX? then 'X' else 'Y')
      && q.text == cur.text && q.last == Chr('"') && Rest(q) == more
  {
    var v := RotateValue(rotate);
    assert Rest(cur) == [] + [v[0]] + (['"'] + more);
    SkipWhitespace(cur, [], v[0], ['"'] + more);
    var c := NextNonWhitespace(cur);
    assert Rest(c) == [] + ['"'] + more;
    SkipWhitespace(c, [], '"', more);
  }

  /** `parse_rotate` on a flip, once `otate="`, the letter and the quote are read. */
  lemma FlipSteps(cur: Cursor, style: Style, rotate: Rotate, more: seq<char>)
    requires cur.last == Chr('r') && (rotate.FlipX? || rotate.FlipY?)
    requires ConsumePattern(cur, "otate=\"").Ok?
    requires var c := NextNonWhitespace(ConsumePattern(cur, "otate=\"").cursor); var q := NextNonWhitespace(c);
      && c.last == Chr(if rotate.FlipX? then 'X' else 'Y')
      && q.text == cur.text && q.last == Chr('"') && Rest(q) == more
    ensures Reads(ParseStyles(cur, style), style.(rotate := rotate), cur.text, Chr('"'), more)
  {
    FlipRotate(cur, style, rotate, more);
  }

  /** `parse_rotate` itself on a flip, once `otate="`, the letter and the quote are read. */
  lemma FlipRotate(cur: Cursor, style: Style, rotate: Rotate, more: seq<char>)
    requires rotate.FlipX? || rotate.FlipY?
    requires ConsumePattern(cur, "otate=\"").Ok?
    requires var c := NextNonWhitespace(ConsumePattern(cur, "otate=\"").cursor); var q := NextNonWhitespace(c);
      && c.last == Chr(if rotate.FlipX? then 'X' else 'Y')
      && q.text == cur.text && q.last == Chr('"') && Rest(q) == more
    ensures Reads(ParseRotate(cur, style), style.(rotate := rotate), cur.text, Chr('"'), more)
  {
    var c := NextNonWhitespace(ConsumePattern(cur, "otate=\"").cursor);
    assert c.last in {Chr('x'), Chr('X'), Chr('y'), Chr('Y')};
    assert c.last in {Chr('x'), Chr('X')} <==> rotate.FlipX?;
    assert style.(rotate := rotate) == Style(style.fill, style.outline, style.translate, rotate);
  }

  /** `rotate="<degree>"`, non-negative: the degree reduced, and the cursor on the quote that ended it. */
  lemma DegreeReads(cur: Cursor, style: Style, degree: Int32, more: seq<char>)
    requires cur.last == Chr('r') && degree >= 0
    requires Rest(cur) == "otate" + "=\"" + IntToString(degree) + "\"" + more
    ensures Reads(ParseStyles(cur, style), style.(rotate := NewCircular(degree)), cur.text, Chr('"'), more)
  {
    RotateOpens(cur, IntToString(degree), more);
    UnsignedReads(ConsumePattern(cur, "otate=\"").cursor, [], degree, '"', more);
    DegreeSteps(cur, style, degree, more);
  }

  /** `parse_rotate` on a degree, once `otate="` and the number are read. */
  lemma DegreeSteps(cur: Cursor, style: Style, degree: Int32, more: seq<char>)
    requires cur.last == Chr('r')
    requires ConsumePattern(cur, "otate=\"").Ok?
    requires var d := NextNonWhitespace(ConsumePattern(cur, "otate=\"").cursor);
      && IsDigit(d.last)
      && Reads(ParseInt(d, DigitValue(d.last.c), false), degree, cur.text, Chr('"'), more)
    ensures Reads(ParseStyles(cur, style), style.(rotate := NewCircular(degree)), cur.text, Chr('"'), more)
  {
    DegreeRotate(cur, style, degree, more);
  }

  /** `parse_rotate` itself on a degree, once `otate="` and the number are read. */
  lemma DegreeRotate(cur: Cursor, style: Style, degree: Int32, more: seq<char>)
    requires ConsumePattern(cur, "otate=\"").Ok?
    requires var d := NextNonWhitespace(ConsumePattern(cur, "otate=\"").cursor);
      && IsDigit(d.last)
      && Reads(ParseInt(d, DigitValue(d.last.c), false), degree, cur.text, Chr('"'), more)
    ensures Reads(ParseRotate(cur, style), style.(rotate := NewCircular(degree)), cur.text, Chr('"'), more)
  {
    var d := NextNonWhitespace(ConsumePattern(cur, "otate=\"").cursor);
    assert d.last !in {Chr('x'), Chr('X'), Chr('y'), Chr('Y')};
  }

  /** `rotate`, whichever rotation was written. */
  lemma RotateReads(cur: Cursor, style: Style, rotate: Rotate, more: seq<char>)
    requires cur.last == Chr('r') && (rotate.Circular? ==> rotate.degree >= 0)
    requires Rest(cur) == "otate" + "=\"" + RotateValue(rotate) + "\"" + more
    ensures Reads(ParseStyles(cur, style), style.(rotate := CloneRotate(rotate)), cur.text, Chr('"'), more)
  {
    if rotate.Circular? {
      DegreeReads(cur, style, rotate.degree, more);
    } else {
      FlipReads(cur, style, rotate, more);
    }
  }
}
