/**
 * The style attributes `fill`, `outline`, `translate` and `rotate`.  The
 * first letter of the attribute has already been read by the shape parser;
 * each parser reads the rest of the name and the value, and replaces one
 * field of the style.
 */
module StyleParser {
  import opened CInt
  import opened Text
  import opened Serde
  import opened Model
  import opened Parser

  /** `parse_fill`: `ill="#rrggbbaa"`. */
  function ParseFill(cur: Cursor, style: Style): (r: Parsed<Style>)
    ensures r.Ok? ==> Advanced(cur, r.cursor) && Remaining(r.cursor) < Remaining(cur)
    ensures r.Ok? ==> (r.value.outline == style.outline && r.value.translate == style.translate
      && r.value.rotate == style.rotate)
    ensures var c := ParseColorParameter(cur, "ill");
      (r.Ok? <==> c.Ok?) && (r.Ok? ==> r.value.fill == c.value && r.cursor == c.cursor)
  {
    var c := ParseColorParameter(cur, "ill");
    if c.Fail? then Fail(c.error)
    else Ok(Style(c.value, style.outline, style.translate, style.rotate), c.cursor)
  }

  /** `parse_outline`: `utline="#rrggbbaa"`. */
  function ParseOutline(cur: Cursor, style: Style): (r: Parsed<Style>)
    ensures r.Ok? ==> Advanced(cur, r.cursor) && Remaining(r.cursor) < Remaining(cur)
    ensures r.Ok? ==> (r.value.fill == style.fill && r.value.translate == style.translate
      && r.value.rotate == style.rotate)
    ensures var c := ParseColorParameter(cur, "utline");
      (r.Ok? <==> c.Ok?) && (r.Ok? ==> r.value.outline == c.value && r.cursor == c.cursor)
  {
    var c := ParseColorParameter(cur, "utline");
    if c.Fail? then Fail(c.error)
    else Ok(Style(style.fill, c.value, style.translate, style.rotate), c.cursor)
  }

  /** `parse_translate`: `ranslate="<x> <y>"`. */
  function ParseTranslate(cur: Cursor, style: Style): (r: Parsed<Style>)
    ensures r.Ok? ==> Advanced(cur, r.cursor) && Remaining(r.cursor) < Remaining(cur)
    ensures r.Ok? ==> (r.value.fill == style.fill && r.value.outline == style.outline
      && r.value.rotate == style.rotate)
    ensures var p := ParsePointParameter(cur, "ranslate");
      (r.Ok? <==> p.Ok?) && (r.Ok? ==> r.value.translate == p.value && r.cursor == p.cursor)
  {
    var p := ParsePointParameter(cur, "ranslate");
    if p.Fail? then Fail(p.error)
    else Ok(Style(style.fill, style.outline, p.value, style.rotate), p.cursor)
  }

  /**
   * `parse_rotate`: `otate="` and then either one of x, X, y, Y followed by
   * the closing quote, or an unsigned integer reduced by `new_circular`.
   * After an integer the closing quote is not checked: it is the character
   * that ended the integer, left for the shape parser.
   */
  function ParseRotate(cur: Cursor, style: Style): (r: Parsed<Style>)
    ensures r.Ok? ==> Advanced(cur, r.cursor) && Remaining(r.cursor) < Remaining(cur)
    ensures r.Ok? ==> (r.value.fill == style.fill && r.value.outline == style.outline
      && r.value.translate == style.translate && Reduced(r.value.rotate))
    ensures r.Ok? && r.value.rotate.Circular? ==> 0 <= r.value.rotate.degree < 360
    ensures ConsumePattern(cur, "otate=\"").Fail? ==> r.Fail?
    ensures var o := ConsumePattern(cur, "otate=\"");
      o.Ok? ==> var c := NextNonWhitespace(o.cursor);
        && (c.last in {Chr('x'), Chr('X')} ==>
              ((r.Ok? <==> NextNonWhitespace(c).last == Chr('"')) && (r.Ok? ==> r.value.rotate == FlipX)))
        && (c.last in {Chr('y'), Chr('Y')} ==>
              ((r.Ok? <==> NextNonWhitespace(c).last == Chr('"')) && (r.Ok? ==> r.value.rotate == FlipY)))
        && (c.last !in {Chr('x'), Chr('X'), Chr('y'), Chr('Y')} && !IsDigit(c.last) ==> r.Fail?)
        && (IsDigit(c.last) ==>
              ((r.Ok? <==> ParseInt(c, DigitValue(c.last.c), false).Ok?)
               && (r.Ok? ==> r.value.rotate == NewCircular(ParseInt(c, DigitValue(c.last.c), false).value))))
  {
    var o := ConsumePattern(cur, "otate=\"");
    if o.Fail? then Fail(o.error)
    else
      var c := NextNonWhitespace(o.cursor);
      if c.last in {Chr('x'), Chr('X'), Chr('y'), Chr('Y')} then
        var q := NextNonWhitespace(c);
        if q.last != Chr('"') then FailAt(q, Syntax)
        else
          var rotate := if c.last in {Chr('x'), Chr('X')} then FlipX else FlipY;
          Ok(Style(style.fill, style.outline, style.translate, rotate), q)
      else if !IsDigit(c.last) then FailAt(c, Syntax)
      else
        var v := ParseInt(c, DigitValue(c.last.c), false);
        if v.Fail? then Fail(v.error)
        else Ok(Style(style.fill, style.outline, style.translate, NewCircular(v.value)), v.cursor)
  }

  /**
   * `parse_styles`: dispatches on the letter the shape parser just read;
   * any other letter is refused (without a message of its own).
   */
  function ParseStyles(cur: Cursor, style: Style): (r: Parsed<Style>)
    ensures r.Ok? ==> Advanced(cur, r.cursor) && Remaining(r.cursor) < Remaining(cur)
    ensures r.Ok? ==> cur.last in {Chr('f'), Chr('o'), Chr('t'), Chr('r')}
    ensures cur.last == Chr('f') ==> r == ParseFill(cur, style)
    ensures cur.last == Chr('o') ==> r == ParseOutline(cur, style)
    ensures cur.last == Chr('t') ==> r == ParseTranslate(cur, style)
    ensures cur.last == Chr('r') ==> r == ParseRotate(cur, style)
  {
    match cur.last
    case Chr('f') => ParseFill(cur, style)
    case Chr('o') => ParseOutline(cur, style)
    case Chr('t') => ParseTranslate(cur, style)
    case Chr('r') => ParseRotate(cur, style)
    case _ => FailAt(cur, Syntax)
  }
}
