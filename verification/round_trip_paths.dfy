/**
 * Reading back the `data` attribute.  The command loop reads the character
 * after each command's last operand to end the number, so a command
 * written last must not have operands: the list must end with Z, the only
 * command whose parser reads nothing after its letter.
 */
module PathRoundTrip {
  import opened CInt
  import opened SeqRegroup
  import opened Text
  import opened Serde
  import opened Model
  import opened Parser
  import opened Export
  import opened PathParser
  import opened PathExport
  import opened ValueRoundTrip

  /** The operands the reader can read back: no negative number. */
  predicate ReadableElement(e: PathElement)
  {
    match e
    case MoveTo(p) => NonNegative(p)
    case LineTo(p) => NonNegative(p)
    case HorizontalLineTo(n) => n >= 0
    case VerticalLineTo(n) => n >= 0
    case CubicCurveTo(c1, c2, end) => NonNegative(c1) && NonNegative(c2) && NonNegative(end)
    case CubicCurveToShorthand(c, end) => NonNegative(c) && NonNegative(end)
    case QuadraticCurveTo(c, end) => NonNegative(c) && NonNegative(end)
    case QuadraticCurveToShorthand(end) => NonNegative(end)
    case EndPath => true
  }

  /** A command list the reader gives back unchanged: readable commands, the last one Z. */
  predicate ReadablePath(es: seq<PathElement>)
  {
    && |es| > 0 && es[|es| - 1] == EndPath
    && forall i | 0 <= i < |es| :: ReadableElement(es[i])
  }

  /** One point after a space, then a space. */
  lemma SpacedPointReads(cur: Cursor, p: Point, rest: seq<char>)
    requires NonNegative(p)
    requires Rest(cur) == " " + ExportPoint(p) + " " + rest
    ensures Reads(ParsePoint(cur), p, cur.text, Chr(' '), rest)
  {
    assert Rest(cur) == " " + (ExportPoint(p) + [' '] + rest);
    PointReads(cur, " ", p, ' ', rest);
  }

  /** A point right after the space that ended the one before it. */
  lemma NextPointReads(cur: Cursor, p: Point, rest: seq<char>)
    requires NonNegative(p)
    requires Rest(cur) == ExportPoint(p) + " " + rest
    ensures Reads(ParsePoint(cur), p, cur.text, Chr(' '), rest)
  {
    assert Rest(cur) == [] + (ExportPoint(p) + [' '] + rest);
    PointReads(cur, [], p, ' ', rest);
  }

  /** `M x y` or `L x y`, the letter just read. */
  lemma PointCommandReads(cur: Cursor, e: PathElement, rest: seq<char>)
    requires (e.MoveTo? || e.LineTo?) && NonNegative(e.to)
    requires cur.last == Chr(Letter(e))
    requires Rest(cur) == ExportPathElement(e)[1..] + " " + rest
    ensures Reads(ParsePathElement(cur), e, cur.text, Chr(' '), rest)
  {
    OnePointText(e);
    SpacedPointReads(cur, e.to, rest);
    LineDispatch(cur, Letter(e));
  }

  /** `H n` or `V n`, the letter just read. */
  lemma LineCommandReads(cur: Cursor, e: PathElement, rest: seq<char>)
    requires (e.HorizontalLineTo? || e.VerticalLineTo?) && e.position >= 0
    requires cur.last == Chr(Letter(e))
    requires Rest(cur) == ExportPathElement(e)[1..] + " " + rest
    ensures Reads(ParsePathElement(cur), e, cur.text, Chr(' '), rest)
  {
    NumberText(e);
    Assoc4(" ", IntToString(e.position), [' '], rest);
    UnsignedReads(cur, " ", e.position, ' ', rest);
    LineDispatch(cur, Letter(e));
  }

  /** `T x y`, the letter just read. */
  lemma ShorthandQuadraticReads(cur: Cursor, end: Point, rest: seq<char>)
    requires NonNegative(end)
    requires cur.last == Chr('T')
    requires Rest(cur) == ExportPathElement(QuadraticCurveToShorthand(end))[1..] + " " + rest
    ensures Reads(ParsePathElement(cur), QuadraticCurveToShorthand(end), cur.text, Chr(' '), rest)
  {
    OnePointText(QuadraticCurveToShorthand(end));
    SpacedPointReads(cur, end, rest);
    CurveDispatch(cur, 'T');
  }

  /** The text after the letter of a one-point command. */
  lemma OnePointText(e: PathElement)
    requires e.MoveTo? || e.LineTo? || e.QuadraticCurveToShorthand?
    ensures ExportPathElement(e)[1..] == " " + ExportPoint(if e.QuadraticCurveToShorthand? then e.end else e.to)
  {
    match e
    case MoveTo(p) => DropLetter1('M', ' ', ExportPoint(p));
    case LineTo(p) => DropLetter1('L', ' ', ExportPoint(p));
    case QuadraticCurveToShorthand(p) => DropLetter1('T', ' ', ExportPoint(p));
  }

  /** The text after the letter of `H` or `V`. */
  lemma NumberText(e: PathElement)
    requires e.HorizontalLineTo? || e.VerticalLineTo?
    ensures ExportPathElement(e)[1..] == " " + IntToString(e.position)
  {
    if e.HorizontalLineTo? {
      DropLetter1('H', ' ', IntToString(e.position));
    } else {
      DropLetter1('V', ' ', IntToString(e.position));
    }
  }

  /** The text after the letter of `S` or `Q`. */
  lemma TwoPointText(e: PathElement)
    requires e.CubicCurveToShorthand? || e.QuadraticCurveTo?
    ensures ExportPathElement(e)[1..] == " " + ExportPoint(e.control) + " " + ExportPoint(e.end)
  {
    if e.CubicCurveToShorthand? {
      DropLetter3('S', ' ', ExportPoint(e.control), " ", ExportPoint(e.end));
    } else {
      DropLetter3('Q', ' ', ExportPoint(e.control), " ", ExportPoint(e.end));
    }
  }

  /** Two points, each after a space, then a space. */
  lemma TwoPointsReads(cur: Cursor, p: Point, q: Point, rest: seq<char>) returns (next: Cursor)
    requires NonNegative(p) && NonNegative(q)
    requires Rest(cur) == " " + ExportPoint(p) + " " + ExportPoint(q) + " " + rest
    ensures Reads(ParsePoint(cur), p, cur.text, Chr(' '), ExportPoint(q) + " " + rest)
    ensures next == ParsePoint(cur).cursor
    ensures Reads(ParsePoint(next), q, cur.text, Chr(' '), rest)
  {
    var tail := ExportPoint(q) + " " + rest;
    assert Rest(cur) == " " + ExportPoint(p) + " " + tail;
    SpacedPointReads(cur, p, tail);
    next := ParsePoint(cur).cursor;
    NextPointReads(next, q, rest);
  }

  /** `S`, `Q`: a control point and an end point, the letter just read. */
  lemma TwoPointCommandReads(cur: Cursor, e: PathElement, rest: seq<char>)
    requires (e.CubicCurveToShorthand? || e.QuadraticCurveTo?) && NonNegative(e.control) && NonNegative(e.end)
    requires cur.last == Chr(Letter(e))
    requires Rest(cur) == ExportPathElement(e)[1..] + " " + rest
    ensures Reads(ParsePathElement(cur), e, cur.text, Chr(' '), rest)
  {
    TwoPointText(e);
    var next := TwoPointsReads(cur, e.control, e.end, rest);
    TwoPointSteps(cur, e, next, rest);
  }

  /** `parse_path_element` on `S` or `Q` once both points are read. */
  lemma TwoPointSteps(cur: Cursor, e: PathElement, next: Cursor, rest: seq<char>)
    requires (e.CubicCurveToShorthand? || e.QuadraticCurveTo?)
    requires cur.last == Chr(Letter(e))
    requires ParsePoint(cur) == Ok(e.control, next)
    requires Reads(ParsePoint(next), e.end, cur.text, Chr(' '), rest)
    ensures Reads(ParsePathElement(cur), e, cur.text, Chr(' '), rest)
  {
    CurveDispatch(cur, Letter(e));
  }

  /** `C`: two control points and an end point, the letter just read. */
  lemma CubicReads(cur: Cursor, e: PathElement, rest: seq<char>)
    requires e.CubicCurveTo? && NonNegative(e.control1) && NonNegative(e.control2) && NonNegative(e.end)
    requires cur.last == Chr('C')
    requires Rest(cur) == ExportPathElement(e)[1..] + " " + rest
    ensures Reads(ParsePathElement(cur), e, cur.text, Chr(' '), rest)
  {
    var tail := ExportPoint(e.end) + " " + rest;
    CubicText(e);
    RegroupLast3(" ", ExportPoint(e.control1), " ", ExportPoint(e.control2), " ", ExportPoint(e.end), " ", rest);
    var n1 := TwoPointsReads(cur, e.control1, e.control2, tail);
    var n2 := ParsePoint(n1).cursor;
    NextPointReads(n2, e.end, rest);
    CubicSteps(cur, e, n1, n2, rest);
  }

  /** The text after the `C` of a cubic curve. */
  lemma CubicText(e: PathElement)
    requires e.CubicCurveTo?
    ensures ExportPathElement(e)[1..] == " " + ExportPoint(e.control1) + " " + ExportPoint(e.control2) + " " + ExportPoint(e.end)
  {
    assert ExportPathElement(e) == ExportCubicCurveTo(e.control1, e.control2, e.end);
    DropLetter5('C', ' ', ExportPoint(e.control1), " ", ExportPoint(e.control2), " ", ExportPoint(e.end));
  }

  /** `parse_path_element` on `C` once the three points are read. */
  lemma CubicSteps(cur: Cursor, e: PathElement, n1: Cursor, n2: Cursor, rest: seq<char>)
    requires e.CubicCurveTo? && cur.last == Chr('C')
    requires ParsePoint(cur) == Ok(e.control1, n1)
    requires ParsePoint(n1) == Ok(e.control2, n2)
    requires Reads(ParsePoint(n2), e.end, cur.text, Chr(' '), rest)
    ensures Reads(ParsePathElement(cur), e, cur.text, Chr(' '), rest)
  {
    CurveDispatch(cur, Letter(e));
  }

  /** `parse_path_element` hands a curve letter to the curve parser. */
  lemma CurveDispatch(cur: Cursor, u: char)
    requires cur.last == Chr(u) && (u == 'C' || u == 'S' || u == 'Q' || u == 'T')
    ensures ParsePathElement(cur) == ParseCurveElement(cur, u)
  {
    assert UpperCase(u) == u;
    assert !(u == 'M' || u == 'L' || u == 'H' || u == 'V' || u == 'Z');
  }

  /** `parse_path_element` hands the other letters to their own parsers. */
  lemma LineDispatch(cur: Cursor, u: char)
    requires cur.last == Chr(u) && (u == 'M' || u == 'L' || u == 'H' || u == 'V')
    ensures u == 'M' ==> ParsePathElement(cur) == ParseMoveTo(cur)
    ensures u == 'L' ==> ParsePathElement(cur) == ParseLineTo(cur)
    ensures u == 'H' ==> ParsePathElement(cur) == ParseHorizontalLineTo(cur)
    ensures u == 'V' ==> ParsePathElement(cur) == ParseVerticalLineTo(cur)
  {
    assert UpperCase(u) == u;
  }

  /** `parse_path_element` on Z reads nothing after the letter. */
  lemma EndDispatch(cur: Cursor)
    requires cur.last == Chr('Z')
    ensures ParsePathElement(cur) == Ok(EndPath, cur)
  {
    assert UpperCase('Z') == 'Z';
  }

  /** Any command but Z, the letter just read, followed by a space. */
  lemma ElementReads(cur: Cursor, e: PathElement, rest: seq<char>)
    requires !e.EndPath? && ReadableElement(e)
    requires cur.last == Chr(Letter(e))
    requires Rest(cur) == ExportPathElement(e)[1..] + " " + rest
    ensures Reads(ParsePathElement(cur), e, cur.text, Chr(' '), rest)
  {
    match e
    case MoveTo(_) => PointCommandReads(cur, e, rest);
    case LineTo(_) => PointCommandReads(cur, e, rest);
    case HorizontalLineTo(_) => LineCommandReads(cur, e, rest);
    case VerticalLineTo(_) => LineCommandReads(cur, e, rest);
    case CubicCurveTo(_, _, _) => CubicReads(cur, e, rest);
    case CubicCurveToShorthand(_, _) => TwoPointCommandReads(cur, e, rest);
    case QuadraticCurveTo(_, _) => TwoPointCommandReads(cur, e, rest);
    case QuadraticCurveToShorthand(end) => ShorthandQuadraticReads(cur, end, rest);
  }

  /** One turn of the command loop, once the command is read. */
  lemma PathLoopStep(cur: Cursor, acc: seq<PathElement>, e: PathElement, next: Cursor)
    requires cur.last.Chr? && cur.last != Chr('"')
    requires ParsePathElement(cur) == Ok(e, next)
    ensures PathLoop(cur, acc) == PathLoop(NextNonWhitespace(next), acc + [e])
  {
  }

  /** The text of more than one command: the first, a space, then the others. */
  lemma ExportElementsCons(es: seq<PathElement>, more: seq<char>)
    requires |es| > 1
    ensures var t := ExportElements(es[1..]);
      ExportElements(es)[1..] + "\"" + more
        == ExportPathElement(es[0])[1..] + " " + ([t[0]] + (t[1..] + "\"" + more))
  {
    var h := ExportPathElement(es[0]);
    var t := ExportElements(es[1..]);
    assert ExportElements(es) == h + " " + t;
    DropHead(h, " ", t, "\"", more);
  }

  /**
   * A command that is not the last one: after it, the loop stands on the
   * letter of the next command.
   */
  lemma PathHead(cur: Cursor, es: seq<PathElement>, more: seq<char>) returns (next: Cursor)
    requires |es| > 1 && ReadableElement(es[0])
    requires cur.last == Chr(Letter(es[0]))
    requires Rest(cur) == ExportElements(es)[1..] + "\"" + more
    ensures ParsePathElement(cur).Ok? && ParsePathElement(cur).value == es[0]
    ensures next == NextNonWhitespace(ParsePathElement(cur).cursor)
    ensures next.text == cur.text && next.last == Chr(Letter(es[1]))
    ensures Rest(next) == ExportElements(es[1..])[1..] + "\"" + more
  {
    var t := ExportElements(es[1..]);
    var tail := t[1..] + "\"" + more;
    ExportElementsCons(es, more);
    if es[0].EndPath? {
      EndDispatch(cur);
      EndText();
      DropEmpty([], " ", [t[0]], tail);
      SkipWhitespace(cur, " ", t[0], tail);
    } else {
      ElementReads(cur, es[0], [t[0]] + tail);
      var n := ParsePathElement(cur).cursor;
      EmptyFront([t[0]], tail);
      SkipWhitespace(n, [], t[0], tail);
    }
    next := NextNonWhitespace(ParsePathElement(cur).cursor);
  }

  lemma EndText()
    ensures ExportPathElement(EndPath)[1..] == []
  {
  }

  lemma ReadablePathTail(es: seq<PathElement>)
    requires |es| > 1 && ReadablePath(es)
    ensures ReadableElement(es[0]) && ReadablePath(es[1..])
  {
    assert forall i | 0 <= i < |es| - 1 :: es[1..][i] == es[i + 1];
  }

  /** Z written last: the loop ends on the closing quote. */
  lemma PathEnd(cur: Cursor, acc: seq<PathElement>, more: seq<char>)
    requires cur.last == Chr('Z')
    requires Rest(cur) == "\"" + more
    ensures Reads(PathLoop(cur, acc), acc + [EndPath], cur.text, Chr('"'), more)
  {
    assert Rest(cur) == [] + ['"'] + more;
    SkipWhitespace(cur, [], '"', more);
    PathEndSteps(cur, acc);
  }

  lemma PathEndSteps(cur: Cursor, acc: seq<PathElement>)
    requires cur.last == Chr('Z') && NextNonWhitespace(cur).last == Chr('"')
    ensures PathLoop(cur, acc) == Ok(acc + [EndPath], NextNonWhitespace(cur))
  {
    EndDispatch(cur);
    PathLoopStep(cur, acc, EndPath, cur);
  }

  /** The command loop reads back every command, up to the closing quote. */
  lemma {:induction false} PathLoopReads(cur: Cursor, acc: seq<PathElement>, es: seq<PathElement>, more: seq<char>)
    requires ReadablePath(es)
    requires cur.last == Chr(Letter(es[0]))
    requires Rest(cur) == ExportElements(es)[1..] + "\"" + more
    ensures Reads(PathLoop(cur, acc), acc + es, cur.text, Chr('"'), more)
    decreases |es|
  {
    if |es| == 1 {
      assert es == [EndPath];
      PathEnd(cur, acc, more);
    } else {
      ReadablePathTail(es);
      var next := PathHead(cur, es, more);
      PathLoopReads(next, acc + [es[0]], es[1..], more);
      PathLoopCons(cur, acc, es[0], next);
      ConsTail(acc, es);
    }
  }

  lemma PathLoopCons(cur: Cursor, acc: seq<PathElement>, e: PathElement, next: Cursor)
    requires cur.last.Chr? && cur.last != Chr('"')
    requires ParsePathElement(cur).Ok? && ParsePathElement(cur).value == e
    requires next == NextNonWhitespace(ParsePathElement(cur).cursor)
    ensures PathLoop(cur, acc) == PathLoop(next, acc + [e])
  {
    PathLoopStep(cur, acc, e, ParsePathElement(cur).cursor);
  }

  /** `parse_path_elements`, its first letter just read: `ata="`, then the commands. */
  lemma PathElementsReads(cur: Cursor, es: seq<PathElement>, more: seq<char>)
    requires ReadablePath(es)
    requires Rest(cur) == "ata" + "=\"" + ExportElements(es) + "\"" + more
    ensures Reads(ParsePathElements(cur), es, cur.text, Chr('"'), more)
  {
    var t := ExportElements(es);
    DataLiterals();
    OpenText("ata", "=\"", t, "\"", more);
    ConsumeExact(cur, [], "ata=\"", t + "\"" + more);
    PathListReads(ConsumePattern(cur, "ata=\"").cursor, es, more);
    PathElementsSteps(cur, es, more);
  }

  /** The loop started on the first letter of the list reads the whole list. */
  lemma PathListReads(cur: Cursor, es: seq<PathElement>, more: seq<char>)
    requires ReadablePath(es)
    requires Rest(cur) == ExportElements(es) + "\"" + more
    ensures Reads(PathLoop(NextNonWhitespace(cur), []), es, cur.text, Chr('"'), more)
  {
    var t := ExportElements(es);
    HeadText(t, "\"", more);
    SkipWhitespace(cur, [], t[0], t[1..] + "\"" + more);
    PathLoopReads(NextNonWhitespace(cur), [], es, more);
    EmptyPrefix(es);
  }

  lemma DataLiterals()
    ensures "ata" + "=\"" == "ata=\"" && NoWhitespace("ata=\"") && AllWhitespace([])
  {
  }

  /** `parse_path_elements` once `ata="` and the commands are read. */
  lemma PathElementsSteps(cur: Cursor, es: seq<PathElement>, more: seq<char>)
    requires ConsumePattern(cur, "ata=\"").Ok?
    requires Reads(PathLoop(NextNonWhitespace(ConsumePattern(cur, "ata=\"").cursor), []), es, cur.text, Chr('"'), more)
    ensures Reads(ParsePathElements(cur), es, cur.text, Chr('"'), more)
  {
  }
}
