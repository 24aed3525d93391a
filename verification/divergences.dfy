/**
 * Behaviours of the reader that its callers would not expect, each shown
 * on a whole family of inputs: what the code does as written, next to the
 * value a careful reading of the format says it should give.
 */
module Divergences {
  import opened CInt
  import opened Text
  import opened Serde
  import opened Model
  import opened Parser
  import opened StyleParser
  import opened PathParser
  import opened ShapeParser
  import opened SvgParser
  import opened Export
  import opened PathExport
  import opened ValueRoundTrip
  import opened PathRoundTrip

  /**
   * `parse_int` without a seed, on a minus sign and a non-zero digit: the
   * value is 0 when the digit is added, which is larger than the 0 before
   * it, and the overflow test for negative numbers fires.  So `x="-5"` is
   * refused with an overflow error.
   */
  lemma NegativeIntegerRefused(cur: Cursor, d: char, mustConsume: bool, more: seq<char>)
    requires '1' <= d <= '9'
    requires Rest(cur) == ['-', d] + more
    ensures var r := ParseInt(cur, 0, mustConsume); r.Fail? && r.error.kind == Overflow
  {
    var c1 := NextChar(cur);
    assert Rest(c1) == [d] + more;
    var c2 := NextChar(c1);
    assert c2.last == Chr(d) && IsDigit(c2.last);
    assert ParseInt(cur, 0, mustConsume) == AccumulateDigits(c2, 0, true);
  }

  /** An integer parameter whose value starts with a minus sign and a non-zero digit is refused. */
  lemma IntParameterRefusesNegative(cur: Cursor, name: string, d: char, more: seq<char>)
    requires NoWhitespace(name) && '1' <= d <= '9'
    requires Rest(cur) == name + "=\"" + (['-', d] + more)
    ensures ParseIntParameter(cur, name).Fail?
  {
    OpenReads(cur, name, ['-', d] + more);
    NegativeIntegerRefused(OpenParameter(cur, name).cursor, d, true, more);
  }

  /**
   * A coordinate `-ab` with two digits, the first non-zero: the seed is
   * `-a`, the loop computes `-10a + b` and the final negation gives
   * `10a - b`, a positive number, where `-(10a + b)` was meant.  So the
   * point `-12 0` reads as `8 0`.
   */
  lemma NegativeCoordinateTwoDigits(cur: Cursor, a: char, b: char, c: char, more: seq<char>)
    requires '1' <= a <= '9' && IsDigitChar(b) && !IsDigitChar(c)
    requires Rest(cur) == ['-', a] + ([b, c] + more)
    ensures var r := ParseCoordinate(cur);
      && r.Ok? && r.value == 10 * DigitValue(a) - DigitValue(b)
      && r.value > 0 && r.value != -(10 * DigitValue(a) + DigitValue(b))
      && r.cursor.last == Chr(c) && Rest(r.cursor) == more
  {
    var c2 := MinusThenDigit(cur, a, [b, c] + more);
    var da: int := DigitValue(a);
    NegativeSeedSteps(c2, da, b, c, more);
    MinusCoordinate(cur, a);
  }

  /** A minus sign, then a digit, each found by skipping whitespace. */
  lemma MinusThenDigit(cur: Cursor, a: char, rest: seq<char>) returns (c2: Cursor)
    requires IsDigitChar(a) && Rest(cur) == ['-', a] + rest
    ensures NextNonWhitespace(cur).last == Chr('-')
    ensures c2 == NextNonWhitespace(NextNonWhitespace(cur))
    ensures c2.last == Chr(a) && Rest(c2) == rest
  {
    assert Rest(cur) == [] + ['-'] + ([a] + rest);
    SkipWhitespace(cur, [], '-', [a] + rest);
    var c1 := NextNonWhitespace(cur);
    assert Rest(c1) == [] + [a] + rest;
    SkipWhitespace(c1, [], a, rest);
    c2 := NextNonWhitespace(c1);
  }

  /** `parse_point`'s coordinate on a minus sign and a digit: the seed is the negated digit. */
  lemma MinusCoordinate(cur: Cursor, d: char)
    requires IsDigitChar(d) && NextNonWhitespace(cur).last == Chr('-')
    requires NextNonWhitespace(NextNonWhitespace(cur)).last == Chr(d)
    ensures ParseCoordinate(cur) == ParseInt(NextNonWhitespace(NextNonWhitespace(cur)), -(DigitValue(d) as int), false)
  {
  }

  /** `parse_int` seeded with `-da`, reading one more digit `b` and stopping on `c`. */
  lemma NegativeSeedSteps(cur: Cursor, da: int, b: char, c: char, more: seq<char>)
    requires 1 <= da <= 9 && IsDigitChar(b) && !IsDigitChar(c)
    requires Rest(cur) == [b, c] + more
    ensures var r := ParseInt(cur, -da, false);
      && r.Ok? && r.value == 10 * da - DigitValue(b)
      && r.cursor.last == Chr(c) && Rest(r.cursor) == more
  {
    var n1 := NextChar(cur);
    assert n1.last == Chr(b) && Rest(n1) == [c] + more;
    var n2 := NextChar(n1);
    assert n2.last == Chr(c) && Rest(n2) == more;
    var next := Wrap32(-da * 10 + DigitValue(b));
    assert next == -da * 10 + DigitValue(b);
    assert ParseInt(cur, -da, false) == AccumulateDigits(n1, -da, true);
    assert AccumulateDigits(n1, -da, true) == AccumulateDigits(n2, next, true);
  }

  /**
   * The overflow test compares each new value with the one before it,
   * which a wrap-around can pass: after `1000000000`, one more `0` gives
   * 10000000000, which wraps to 1410065408, larger than before, so the
   * loop goes on instead of reporting the overflow: `10000000000` reads
   * as 1410065408.
   */
  lemma OverflowNotDetected(cur: Cursor)
    requires cur.last == Chr('0') && !IsDigit(NextChar(cur).last)
    ensures 1000000000 * 10 > INT_MAX
    ensures AccumulateDigits(cur, 1000000000, false) == Ok(1410065408, NextChar(cur))
  {
    assert Wrap32(1000000000 * 10) == 1410065408;
  }

  /** `M x y` or `L x y` closed by the quote, the letter just read. */
  lemma QuotedCommandReads(cur: Cursor, e: PathElement, more: seq<char>)
    requires (e.MoveTo? || e.LineTo?) && NonNegative(e.to)
    requires cur.last == Chr(Letter(e))
    requires Rest(cur) == ExportPathElement(e)[1..] + "\"" + more
    ensures Reads(ParsePathElement(cur), e, cur.text, Chr('"'), more)
  {
    OnePointText(e);
    QuotedPointReads(cur, e.to, more);
    LineDispatch(cur, Letter(e));
  }

  lemma QuotedPointReads(cur: Cursor, p: Point, more: seq<char>)
    requires NonNegative(p)
    requires Rest(cur) == " " + ExportPoint(p) + "\"" + more
    ensures Reads(ParsePoint(cur), p, cur.text, Chr('"'), more)
  {
    assert Rest(cur) == " " + (ExportPoint(p) + ['"'] + more);
    PointReads(cur, " ", p, '"', more);
  }

  /**
   * A point command written last, as in `M 1 2"`: the quote ends the second
   * number, so the loop never sees it and reads on into whatever follows.
   */
  lemma PathQuoteSwallowed(cur: Cursor, e: PathElement, acc: seq<PathElement>, more: seq<char>)
    returns (next: Cursor)
    requires (e.MoveTo? || e.LineTo?) && NonNegative(e.to)
    requires cur.last == Chr(Letter(e))
    requires Rest(cur) == ExportPathElement(e)[1..] + "\"" + more
    ensures next.text == cur.text && next.last == Chr('"') && Rest(next) == more
    ensures PathLoop(cur, acc) == PathLoop(NextNonWhitespace(next), acc + [e])
  {
    QuotedCommandReads(cur, e, more);
    next := ParsePathElement(cur).cursor;
    PathLoopStep(cur, acc, e, next);
  }

  lemma SlashNext(cur: Cursor, more: seq<char>)
    requires Rest(cur) == "/>" + more
    ensures NextNonWhitespace(cur).last == Chr('/')
  {
    assert Rest(cur) == [] + ['/'] + (">" + more);
    SkipWhitespace(cur, [], '/', ">" + more);
  }

  /** The command loop refuses a `/`. */
  lemma SlashRefused(cur: Cursor, acc: seq<PathElement>)
    requires cur.last == Chr('/')
    ensures PathLoop(cur, acc).Fail?
  {
    assert !IsCommand(cur.last);
  }

  /**
   * So a path whose last command is `M` or `L`, followed by the `/` of the
   * shape's `/>`, is refused, although the writer writes exactly that.
   */
  lemma PathEndingInPointRefused(cur: Cursor, e: PathElement, acc: seq<PathElement>, more: seq<char>)
    requires (e.MoveTo? || e.LineTo?) && NonNegative(e.to)
    requires cur.last == Chr(Letter(e))
    requires Rest(cur) == ExportPathElement(e)[1..] + "\"" + ("/>" + more)
    ensures PathLoop(cur, acc).Fail?
  {
    var next := PathQuoteSwallowed(cur, e, acc, "/>" + more);
    SlashNext(next, more);
    SlashRefused(NextNonWhitespace(next), acc + [e]);
  }

  /**
   * The shape loop of `parse_svg` ends on any character but `<`, and the
   * closing `svg>` is then matched from the character after it: `xsvg>`
   * closes a document as well as `</svg>`.
   */
  lemma ClosingTagUnchecked(g: Cursor, acc: seq<Shape>, k: char, more: seq<char>)
    requires !IsWhitespaceChar(k) && k != '<'
    requires Rest(g) == [k] + "svg>" + more
    ensures var s := SvgShapes(g, acc);
      && s.Ok? && s.value == acc && s.cursor.last == Chr(k)
      && var e := ConsumePattern(s.cursor, "svg>");
      && e.Ok? && Rest(e.cursor) == more
  {
    CloseText(k, more);
    SkipWhitespace(g, [], k, "svg>" + more);
    var c := NextNonWhitespace(g);
    ConsumeExact(c, [], "svg>", more);
    ShapesStop(g, acc);
  }

  lemma CloseText(k: char, more: seq<char>)
    ensures [k] + "svg>" + more == [] + [k] + ("svg>" + more)
    ensures "svg>" + more == [] + "svg>" + more
    ensures NoWhitespace("svg>")
  {
  }

  /** The shape loop of `parse_svg` on a character other than `<`. */
  lemma ShapesStop(g: Cursor, acc: seq<Shape>)
    requires NextNonWhitespace(g).last != Chr('<')
    ensures SvgShapes(g, acc) == Ok(acc, NextNonWhitespace(g))
  {
  }

  /** A negative degree is refused: after `rotate="` only a flip letter or a digit is accepted. */
  lemma NegativeRotateRefused(cur: Cursor, style: Style, more: seq<char>)
    requires Rest(cur) == "otate=\"" + ("-" + more)
    ensures ParseRotate(cur, style).Fail?
  {
    assert NoWhitespace("otate=\"");
    assert Rest(cur) == [] + "otate=\"" + ("-" + more);
    ConsumeExact(cur, [], "otate=\"", "-" + more);
    var o := ConsumePattern(cur, "otate=\"").cursor;
    assert Rest(o) == [] + ['-'] + more;
    SkipWhitespace(o, [], '-', more);
    MinusRotate(cur, style);
  }

  lemma MinusRotate(cur: Cursor, style: Style)
    requires ConsumePattern(cur, "otate=\"").Ok?
    requires NextNonWhitespace(ConsumePattern(cur, "otate=\"").cursor).last == Chr('-')
    ensures ParseRotate(cur, style).Fail?
  {
    assert Chr('-') !in {Chr('x'), Chr('X'), Chr('y'), Chr('Y')};
  }

  /**
   * In a `points` value a minus sign is neither refused nor applied: the
   * loop steps over it as over any other character, so `-5 3` reads as the
   * point (5, 3).
   */
  lemma MinusIgnoredInPoints(cur: Cursor, st: PointsState, more: seq<char>)
    requires Rest(cur) == "-" + more
    ensures PointsLoop(cur, st) == PointsLoop(NextChar(cur), st)
  {
    assert NextChar(cur).last == Chr('-');
  }

  /** The operand of `H` and `V` is refused when it starts with a minus sign. */
  lemma NegativeOperandRefused(cur: Cursor, w: seq<char>, more: seq<char>)
    requires AllWhitespace(w)
    requires Rest(cur) == w + "-" + more
    ensures ParseUnsignedOperand(cur).Fail?
  {
    SkipWhitespace(cur, w, '-', more);
  }

  /**
   * The tag the writer closes a group with, `<group/>`, is read by the
   * children loop as the start of another group, whose header then meets
   * the `/`: the group is refused.
   */
  lemma GroupCloseTagRefused(cur: Cursor, style: Style, acc: seq<Shape>, more: seq<char>)
    requires Rest(cur) == "<group/>" + more
    ensures GroupChildren(cur, style, acc).Fail?
  {
    GroupTagText(more);
    SkipWhitespace(cur, [], '<', "group/>" + more);
    var c := NextNonWhitespace(cur);
    SkipWhitespace(c, [], 'g', "roup/>" + more);
    var d := NextNonWhitespace(c);
    ConsumeExact(d, [], "roup", "/>" + more);
    var p := ConsumePattern(d, "roup").cursor;
    SkipWhitespace(p, [], '/', ">" + more);
    GroupOnSlash(d, style);
    ChildrenSteps(cur, style, acc);
  }

  lemma GroupTagText(more: seq<char>)
    ensures "<group/>" + more == [] + ['<'] + ("group/>" + more)
    ensures "group/>" + more == [] + ['g'] + ("roup/>" + more)
    ensures "roup/>" + more == [] + "roup" + ("/>" + more)
    ensures "/>" + more == [] + ['/'] + (">" + more)
    ensures NoWhitespace("roup")
  {
  }

  /** A group whose header starts with `/` is refused. */
  lemma GroupOnSlash(d: Cursor, inherited: Style)
    requires d.last == Chr('g') && ConsumePattern(d, "roup").Ok?
    requires NextNonWhitespace(ConsumePattern(d, "roup").cursor).last == Chr('/')
    ensures ParseShape(d, inherited).Fail?
  {
    HeaderRefusesSlash(ConsumePattern(d, "roup").cursor, CloneStyle(inherited));
  }

  lemma HeaderRefusesSlash(cur: Cursor, style: Style)
    requires NextNonWhitespace(cur).last == Chr('/')
    ensures GroupHeader(cur, style).Fail?
  {
  }

  /** The children loop on `<` and a shape that fails. */
  lemma ChildrenSteps(cur: Cursor, style: Style, acc: seq<Shape>)
    requires NextNonWhitespace(cur).last == Chr('<')
    requires var d := NextNonWhitespace(NextNonWhitespace(cur));
      d.last == Chr('g') && ParseShape(d, style).Fail?
    ensures GroupChildren(cur, style, acc).Fail?
  {
  }
}
