/**
 * The `data` attribute of a `draw` shape: a sequence of path commands, each
 * a letter of either case followed by its integer operands.
 */
module PathParser {
  import opened CInt
  import opened Text
  import opened Serde
  import opened Model
  import opened Parser

  /** The ASCII upper-case form of a letter; other characters are unchanged. */
  function UpperCase(c: char): (u: char)
    ensures 'a' <= c <= 'z' ==> u as int == c as int - 32
    ensures !('a' <= c <= 'z') ==> u == c
  {
    if 'a' <= c <= 'z' then (c as int - 32) as char else c
  }

  /** The nine upper-case command letters. */
  predicate IsCommandLetter(u: char)
  {
    u == 'M' || u == 'L' || u == 'H' || u == 'V' || u == 'Z' || u == 'C' || u == 'S' || u == 'Q' || u == 'T'
  }

  /** A command letter of either case. */
  predicate IsCommand(ch: Ch)
  {
    ch.Chr? && IsCommandLetter(UpperCase(ch.c))
  }

  /**
   * `parse_horizontal_line_to` / `parse_vertical_line_to`: an unsigned
   * integer whose first digit is found by skipping whitespace.
   */
  function ParseUnsignedOperand(cur: Cursor): (r: Parsed<Int32>)
    ensures r.Ok? ==> Advanced(cur, r.cursor) && Remaining(r.cursor) < Remaining(cur) && r.value >= 0
  {
    var c := NextNonWhitespace(cur);
    if !IsDigit(c.last) then FailAt(c, Syntax)
    else ParseInt(c, DigitValue(c.last.c), false)
  }

  /** `parse_move_to`: the letter M or m, then one point. */
  function ParseMoveTo(cur: Cursor): (r: Parsed<PathElement>)
    ensures r.Ok? ==> r.value.MoveTo? && Advanced(cur, r.cursor) && Remaining(r.cursor) < Remaining(cur)
    ensures cur.last != Chr('M') && cur.last != Chr('m') ==> r.Fail?
  {
    if cur.last != Chr('M') && cur.last != Chr('m') then FailAt(cur, Syntax)
    else
      var p := ParsePoint(cur);
      if p.Fail? then Fail(p.error) else Ok(MoveTo(p.value), p.cursor)
  }

  /** `parse_line_to`: the letter L or l, then one point. */
  function ParseLineTo(cur: Cursor): (r: Parsed<PathElement>)
    ensures r.Ok? ==> r.value.LineTo? && Advanced(cur, r.cursor) && Remaining(r.cursor) < Remaining(cur)
    ensures cur.last != Chr('L') && cur.last != Chr('l') ==> r.Fail?
  {
    if cur.last != Chr('L') && cur.last != Chr('l') then FailAt(cur, Syntax)
    else
      var p := ParsePoint(cur);
      if p.Fail? then Fail(p.error) else Ok(LineTo(p.value), p.cursor)
  }

  /** `parse_horizontal_line_to`: the letter H or h, then an unsigned integer. */
  function ParseHorizontalLineTo(cur: Cursor): (r: Parsed<PathElement>)
    ensures r.Ok? ==> r.value.HorizontalLineTo? && Advanced(cur, r.cursor) && Remaining(r.cursor) < Remaining(cur)
    ensures r.Ok? ==> r.value.position >= 0
    ensures cur.last != Chr('H') && cur.last != Chr('h') ==> r.Fail?
  {
    if cur.last != Chr('H') && cur.last != Chr('h') then FailAt(cur, Syntax)
    else
      var n := ParseUnsignedOperand(cur);
      if n.Fail? then Fail(n.error) else Ok(HorizontalLineTo(n.value), n.cursor)
  }

  /** `parse_vertical_line_to`: the letter V or v, then an unsigned integer. */
  function ParseVerticalLineTo(cur: Cursor): (r: Parsed<PathElement>)
    ensures r.Ok? ==> r.value.VerticalLineTo? && Advanced(cur, r.cursor) && Remaining(r.cursor) < Remaining(cur)
    ensures r.Ok? ==> r.value.position >= 0
    ensures cur.last != Chr('V') && cur.last != Chr('v') ==> r.Fail?
  {
    if cur.last != Chr('V') && cur.last != Chr('v') then FailAt(cur, Syntax)
    else
      var n := ParseUnsignedOperand(cur);
      if n.Fail? then Fail(n.error) else Ok(VerticalLineTo(n.value), n.cursor)
  }

  /** `parse_cubic_curve_to`: the letter C or c, then three points. */
  function ParseCubicCurveTo(cur: Cursor): (r: Parsed<PathElement>)
    ensures r.Ok? ==> r.value.CubicCurveTo? && Advanced(cur, r.cursor) && Remaining(r.cursor) < Remaining(cur)
    ensures cur.last != Chr('C') && cur.last != Chr('c') ==> r.Fail?
  {
    if cur.last != Chr('C') && cur.last != Chr('c') then FailAt(cur, Syntax)
    else
      var c1 := ParsePoint(cur);
      if c1.Fail? then Fail(c1.error)
      else
        var c2 := ParsePoint(c1.cursor);
        if c2.Fail? then Fail(c2.error)
        else
          var e := ParsePoint(c2.cursor);
          if e.Fail? then Fail(e.error) else Ok(CubicCurveTo(c1.value, c2.value, e.value), e.cursor)
  }

  /** `parse_cubic_curve_to_shorthand`: the letter S or s, then two points. */
  function ParseCubicCurveToShorthand(cur: Cursor): (r: Parsed<PathElement>)
    ensures r.Ok? ==> r.value.CubicCurveToShorthand? && Advanced(cur, r.cursor) && Remaining(r.cursor) < Remaining(cur)
    ensures cur.last != Chr('S') && cur.last != Chr('s') ==> r.Fail?
  {
    if cur.last != Chr('S') && cur.last != Chr('s') then FailAt(cur, Syntax)
    else
      var c := ParsePoint(cur);
      if c.Fail? then Fail(c.error)
      else
        var e := ParsePoint(c.cursor);
        if e.Fail? then Fail(e.error) else Ok(CubicCurveToShorthand(c.value, e.value), e.cursor)
  }

  /** `parse_quadratic_curve_to`: the letter Q or q, then two points. */
  function ParseQuadraticCurveTo(cur: Cursor): (r: Parsed<PathElement>)
    ensures r.Ok? ==> r.value.QuadraticCurveTo? && Advanced(cur, r.cursor) && Remaining(r.cursor) < Remaining(cur)
    ensures cur.last != Chr('Q') && cur.last != Chr('q') ==> r.Fail?
  {
    if cur.last != Chr('Q') && cur.last != Chr('q') then FailAt(cur, Syntax)
    else
      var c := ParsePoint(cur);
      if c.Fail? then Fail(c.error)
      else
        var e := ParsePoint(c.cursor);
        if e.Fail? then Fail(e.error) else Ok(QuadraticCurveTo(c.value, e.value), e.cursor)
  }

  /** `parse_quadratic_curve_to_shorthand`: the letter T or t, then one point. */
  function ParseQuadraticCurveToShorthand(cur: Cursor): (r: Parsed<PathElement>)
    ensures r.Ok? ==> r.value.QuadraticCurveToShorthand? && Advanced(cur, r.cursor) && Remaining(r.cursor) < Remaining(cur)
    ensures cur.last != Chr('T') && cur.last != Chr('t') ==> r.Fail?
  {
    if cur.last != Chr('T') && cur.last != Chr('t') then FailAt(cur, Syntax)
    else
      var p := ParsePoint(cur);
      if p.Fail? then Fail(p.error) else Ok(QuadraticCurveToShorthand(p.value), p.cursor)
  }

  /** `parse_end_of_path`: the letter Z or z, and nothing after it. */
  function ParseEndOfPath(cur: Cursor): (r: Parsed<PathElement>)
    ensures r.Ok? <==> cur.last == Chr('Z') || cur.last == Chr('z')
    ensures r.Ok? ==> r.value == EndPath && r.cursor == cur
  {
    if cur.last != Chr('Z') && cur.last != Chr('z') then FailAt(cur, Syntax)
    else Ok(EndPath, cur)
  }

  /**
   * `parse_path_element`: dispatches on the letter just read.  Lower-case
   * letters give the same (absolute) command as upper-case ones.
   */
  function ParsePathElement(cur: Cursor): (r: Parsed<PathElement>)
    ensures r.Ok? ==> Advanced(cur, r.cursor) && cur.last.Chr? && UpperCase(cur.last.c) == Letter(r.value)
    ensures r.Ok? && !r.value.EndPath? ==> Remaining(r.cursor) < Remaining(cur)
    ensures r.Ok? && r.value.EndPath? ==> r.cursor == cur
    ensures r.Ok? && (r.value.HorizontalLineTo? || r.value.VerticalLineTo?) ==> r.value.position >= 0
    ensures !IsCommand(cur.last) ==> r.Fail?
  {
    match cur.last
    case Chr(c) =>
      var u := UpperCase(c);
      var r := if u == 'M' then ParseMoveTo(cur)
        else if u == 'L' then ParseLineTo(cur)
        else if u == 'H' then ParseHorizontalLineTo(cur)
        else if u == 'V' then ParseVerticalLineTo(cur)
        else if u == 'Z' then ParseEndOfPath(cur)
        else ParseCurveElement(cur, u);
      if r.Fail? then r else LetterCases(r.value); r
    case Eof => FailAt(cur, Syntax)
  }

  /** The curve commands of `parse_path_element`; `u` is the upper-case form of the letter just read. */
  function ParseCurveElement(cur: Cursor, u: char): (r: Parsed<PathElement>)
    ensures r.Ok? ==> Advanced(cur, r.cursor) && Remaining(r.cursor) < Remaining(cur) && u == Letter(r.value)
    ensures r.Ok? ==> r.value.CubicCurveTo? || r.value.CubicCurveToShorthand? || r.value.QuadraticCurveTo? || r.value.QuadraticCurveToShorthand?
    ensures !(u == 'C' || u == 'S' || u == 'Q' || u == 'T') ==> r.Fail?
  {
    var r := if u == 'C' then ParseCubicCurveTo(cur)
      else if u == 'S' then ParseCubicCurveToShorthand(cur)
      else if u == 'Q' then ParseQuadraticCurveTo(cur)
      else if u == 'T' then ParseQuadraticCurveToShorthand(cur)
      else FailAt(cur, Syntax);
    if r.Fail? then r else LetterCases(r.value); r
  }

  /**
   * The loop of `parse_path_elements`: `cur.last` is the character just read
   * by skipping whitespace.  The closing quote ends the list, which must not
   * be empty; the end of the text is an error; anything else must start a
   * command, after which the next non-whitespace character is read.
   */
  function PathLoop(cur: Cursor, acc: seq<PathElement>): (r: Parsed<seq<PathElement>>)
    ensures r.Ok? ==> (Advanced(cur, r.cursor) && r.cursor.last == Chr('"')
      && |r.value| > 0 && acc <= r.value)
    ensures cur.last == Chr('"') ==> (r.Ok? <==> |acc| > 0) && (r.Ok? ==> r.value == acc && r.cursor == cur)
    ensures cur.last == Eof ==> r.Fail?
    decreases Remaining(cur), if cur.last.Eof? then 0 else 1
  {
    if cur.last.Eof? then FailAt(cur, UnexpectedEnd)
    else if cur.last == Chr('"') then
      if |acc| == 0 then FailAt(cur, Syntax) else Ok(acc, cur)
    else
      var e := ParsePathElement(cur);
      if e.Fail? then Fail(e.error)
      else
        PathLoop(NextNonWhitespace(e.cursor), acc + [e.value])
  }

  /** `parse_path_elements`: `ata="`, then the commands up to the closing quote. */
  function ParsePathElements(cur: Cursor): (r: Parsed<seq<PathElement>>)
    ensures r.Ok? ==> (Advanced(cur, r.cursor) && Remaining(r.cursor) < Remaining(cur)
      && r.cursor.last == Chr('"') && |r.value| > 0)
    ensures !("ata=\"" <= NonWhitespace(Rest(cur))) ==> r.Fail?
  {
    var o := ConsumePattern(cur, "ata=\"");
    if o.Fail? then Fail(o.error)
    else PathLoop(NextNonWhitespace(o.cursor), [])
  }
}
