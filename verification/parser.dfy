/**
 * The primitive and parameter parsers.  Each parser is a function from the
 * cursor to either the parsed value with the cursor after it, or the error
 * it reports.  Only the innermost error is kept: the C code prints it and
 * then a message per enclosing parser, at the same place or later.
 */
module Parser {
  import opened CInt
  import opened Text
  import opened Serde
  import opened Model

  /**
   * `Syntax` is any message about an unexpected character, `Overflow` the
   * integer-overflow message, `MissingParameter` the "Missing parameter"
   * message of a shape, and `UnexpectedEnd` the end of text inside a shape
   * or a path, where the C code returns NULL without a message of its own.
   */
  datatype ErrorKind = Syntax | Overflow | MissingParameter(name: string) | UnexpectedEnd

  /** An error and where it was reported, 1-based. */
  datatype Error = Error(kind: ErrorKind, line: int, position: int)

  datatype Parsed<+T> = Ok(value: T, cursor: Cursor) | Fail(error: Error)

  function FailAt<T>(cur: Cursor, kind: ErrorKind): (r: Parsed<T>)
    ensures r.Fail? && r.error.kind == kind
    ensures (r.error.line, r.error.position) == ReportedLocation(cur)
  {
    Fail(Error(kind, cur.line + 1, cur.position + 1))
  }

  predicate IsDigit(ch: Ch)
  {
    ch.Chr? && IsDigitChar(ch.c)
  }

  predicate IsHexa(ch: Ch)
  {
    ch.Chr? && IsHexChar(ch.c)
  }

  /** The non-whitespace characters of `s`, in order: what a run of `NextNonWhitespace` reads. */
  function NonWhitespace(s: seq<char>): (q: seq<char>)
    ensures |q| <= |s|
    ensures forall i | 0 <= i < |q| :: !IsWhitespaceChar(q[i])
  {
    if |s| == 0 then []
    else if IsWhitespaceChar(s[0]) then NonWhitespace(s[1..])
    else [s[0]] + NonWhitespace(s[1..])
  }

  lemma {:induction false} NonWhitespaceAllWhitespace(s: seq<char>)
    requires AllWhitespace(s)
    ensures NonWhitespace(s) == []
  {
    if |s| > 0 {
      NonWhitespaceAllWhitespace(s[1..]);
    }
  }

  /** `NextNonWhitespace` reads the first character of `NonWhitespace(Rest(cur))`, or EOF when there is none. */
  lemma {:induction false} NextNonWhitespaceReads(cur: Cursor)
    ensures var q := NonWhitespace(Rest(cur)); var r := NextNonWhitespace(cur);
      && (q == [] <==> r.last == Eof)
      && (q != [] ==> r.last == Chr(q[0]) && NonWhitespace(Rest(r)) == q[1..])
    decreases Remaining(cur)
  {
    var c := NextChar(cur);
    if Rest(cur) == [] {
    } else {
      assert Rest(cur) == [Rest(cur)[0]] + Rest(c);
      if IsWhitespace(c.last) {
        NextNonWhitespaceReads(c);
      } else {
        assert NonWhitespace(Rest(cur)) == [c.last.c] + NonWhitespace(Rest(c));
      }
    }
    var r := NextNonWhitespace(cur);
    if r.last.Eof? {
      NonWhitespaceAllWhitespace(Rest(cur));
    }
  }

  /** `consume_next_char`: the next non-whitespace character must be `c`. */
  function ConsumeNextChar(cur: Cursor, c: char): (r: Parsed<()>)
    ensures r.Ok? <==> NextNonWhitespace(cur).last == Chr(c)
    ensures r.Ok? ==> r.cursor == NextNonWhitespace(cur)
  {
    var n := NextNonWhitespace(cur);
    if n.last == Chr(c) then Ok((), n) else FailAt(n, Syntax)
  }

  /**
   * `consume_pattern`: matches `p` one non-whitespace character at a time,
   * so whitespace may separate its characters; it stops at the first
   * mismatch.
   */
  function ConsumePattern(cur: Cursor, p: seq<char>): (r: Parsed<()>)
    ensures r.Ok? <==> p <= NonWhitespace(Rest(cur))
    ensures r.Ok? ==> Advanced(cur, r.cursor) && NonWhitespace(Rest(r.cursor)) == NonWhitespace(Rest(cur))[|p|..]
    ensures r.Ok? && |p| > 0 ==> Remaining(r.cursor) < Remaining(cur) && r.cursor.last == Chr(p[|p| - 1])
    decreases |p|
  {
    if |p| == 0 then Ok((), cur)
    else
      ConsumeStep(cur, p);
      var c := ConsumeNextChar(cur, p[0]);
      if c.Fail? then Fail(c.error)
      else ConsumePattern(c.cursor, p[1..])
  }

  /** The first character of a pattern: matched against the next non-whitespace character. */
  lemma ConsumeStep(cur: Cursor, p: seq<char>)
    requires |p| > 0
    ensures var c := ConsumeNextChar(cur, p[0]); var q := NonWhitespace(Rest(cur));
      && (p <= q <==> c.Ok? && p[1..] <= NonWhitespace(Rest(c.cursor)))
      && (c.Ok? ==> && |q| > 0 && Advanced(cur, c.cursor) && Remaining(c.cursor) < Remaining(cur)
                    && c.cursor.last == Chr(p[0]) && NonWhitespace(Rest(c.cursor)) == q[1..])
      && (p <= q ==> q[1..][|p| - 1..] == q[|p|..])
  {
    NextNonWhitespaceReads(cur);
    PrefixCons(p, NonWhitespace(Rest(cur)));
  }

  lemma PrefixCons<T>(p: seq<T>, q: seq<T>)
    requires |p| > 0
    ensures p <= q <==> |q| > 0 && p[0] == q[0] && p[1..] <= q[1..]
  {
    if |q| > 0 && p[0] == q[0] && p[1..] <= q[1..] {
      assert q[..|p|] == [q[0]] + q[1..][..|p| - 1];
    }
  }

  /**
   * The digit loop of `parse_int`.  `cur.last` is the character under
   * consideration and `result` the value so far; each digit computes
   * `result * 10 + digit` in 32-bit arithmetic, and the loop reports
   * overflow when the new value moved the wrong way from the old one
   * (up for a negative number, down for a non-negative one).
   */
  function AccumulateDigits(cur: Cursor, result: Int32, negative: bool): (r: Parsed<Int32>)
    ensures r.Ok? ==> Advanced(cur, r.cursor) && !IsDigit(r.cursor.last)
    ensures !IsDigit(cur.last) ==> r == Ok(if negative then Wrap32(-(result as int)) else result, cur)
    ensures r.Ok? && !negative ==> r.value >= result
    ensures r.Ok? && negative && result == 0 ==> r.value == 0
    decreases Remaining(cur), if IsDigit(cur.last) then 1 else 0
  {
    if !IsDigit(cur.last) then Ok(if negative then Wrap32(-(result as int)) else result, cur)
    else
      var next := Wrap32(result * 10 + DigitValue(cur.last.c));
      if (negative && result < next) || (!negative && result > next) then FailAt(cur, Overflow)
      else AccumulateDigits(NextChar(cur), next, negative)
  }

  /**
   * `parse_int`: `base` is a digit the caller already read (0 when none),
   * negated when the caller read a minus sign.  A '-' here is refused after
   * such a seed; otherwise it marks the number negative.  Without a digit
   * the call fails when a digit is required and returns `base` otherwise.
   * The first non-digit read stays in `last`.
   */
  function ParseInt(cur: Cursor, base: Int32, mustConsume: bool): (r: Parsed<Int32>)
    ensures r.Ok? ==> Advanced(cur, r.cursor) && !IsDigit(r.cursor.last)
    ensures NextChar(cur).last == Chr('-') && base != 0 ==> r.Fail?
    ensures r.Ok? && base >= 0 ==> r.value >= 0
    ensures !IsDigit(NextChar(cur).last) && NextChar(cur).last != Chr('-') ==>
      (r.Ok? <==> !mustConsume) && (r.Ok? ==> r.value == base && r.cursor == NextChar(cur))
  {
    var c1 := NextChar(cur);
    if c1.last == Chr('-') && base != 0 then FailAt(c1, Syntax)
    else
      var negative := base < 0 || c1.last == Chr('-');
      var c2 := if c1.last == Chr('-') then NextChar(c1) else c1;
      if !IsDigit(c2.last) then
        if mustConsume then FailAt(c2, Syntax) else Ok(base, c2)
      else
        AccumulateDigits(c2, base, negative)
  }

  /** `parse_hexa_byte`: two hexadecimal digits, high nibble first, each found by skipping whitespace. */
  function ParseHexaByte(cur: Cursor): (r: Parsed<Byte>)
    ensures var q := NonWhitespace(Rest(cur));
      r.Ok? <==> |q| >= 2 && IsHexChar(q[0]) && IsHexChar(q[1])
    ensures var q := NonWhitespace(Rest(cur));
      r.Ok? ==> (r.value == HexPair(q[0], q[1])
        && Advanced(cur, r.cursor) && NonWhitespace(Rest(r.cursor)) == q[2..])
  {
    NextNonWhitespaceReads(cur);
    var c1 := NextNonWhitespace(cur);
    if !IsHexa(c1.last) then FailAt(c1, Syntax)
    else
      NextNonWhitespaceReads(c1);
      var c2 := NextNonWhitespace(c1);
      if !IsHexa(c2.last) then FailAt(c2, Syntax)
      else Ok(HexPair(c1.last.c, c2.last.c), c2)
  }

  /** The byte written as the two hexadecimal digits `hi`, `lo`. */
  function HexPair(hi: char, lo: char): (b: Byte)
    requires IsHexChar(hi) && IsHexChar(lo)
    ensures b / 16 == HexValue(hi) && b % 16 == HexValue(lo)
  {
    16 * HexValue(hi) + HexValue(lo)
  }

  /** `n` bytes written as pairs of hexadecimal digits at the head of `q`. */
  predicate IsHexText(q: seq<char>, n: nat)
  {
    |q| >= 2 * n && forall i | 0 <= i < 2 * n :: IsHexChar(q[i])
  }

  /** The bytes that `IsHexText(q, n)` promises, high nibble first. */
  function HexBytes(q: seq<char>, n: nat): (bs: seq<Byte>)
    requires IsHexText(q, n)
    ensures |bs| == n
  {
    if n == 0 then []
    else
      assert IsHexText(q[2..], n - 1) by {
        assert forall i | 0 <= i < 2 * (n - 1) :: q[2..][i] == q[i + 2];
      }
      [HexPair(q[0], q[1])] + HexBytes(q[2..], n - 1)
  }

  lemma HexTextStep(q: seq<char>, n: nat)
    requires n > 0
    ensures IsHexText(q, n) <==> |q| >= 2 && IsHexChar(q[0]) && IsHexChar(q[1]) && IsHexText(q[2..], n - 1)
  {
    if |q| >= 2 {
      assert forall i | 0 <= i < |q| - 2 :: q[2..][i] == q[i + 2];
    }
  }

  lemma HexBytesStep(q: seq<char>, n: nat)
    requires n > 0 && IsHexText(q, n)
    ensures IsHexText(q[2..], n - 1)
    ensures HexBytes(q, n) == [HexPair(q[0], q[1])] + HexBytes(q[2..], n - 1)
  {
    HexTextStep(q, n);
  }

  /** `n` successive calls of `parse_hexa_byte`, stopping at the first failure. */
  function ParseHexaBytes(cur: Cursor, n: nat): (r: Parsed<seq<Byte>>)
    ensures r.Ok? <==> IsHexText(NonWhitespace(Rest(cur)), n)
    ensures r.Ok? ==> r.value == HexBytes(NonWhitespace(Rest(cur)), n)
    ensures r.Ok? ==> Advanced(cur, r.cursor)
    ensures r.Ok? ==> NonWhitespace(Rest(r.cursor)) == NonWhitespace(Rest(cur))[2 * n..]
    decreases n
  {
    if n == 0 then Ok([], cur)
    else
      HexaBytesStep(cur, n);
      var b := ParseHexaByte(cur);
      if b.Fail? then Fail(b.error)
      else
        var more := ParseHexaBytes(b.cursor, n - 1);
        if more.Fail? then Fail(more.error)
        else Ok([b.value] + more.value, more.cursor)
  }

  /** The first of `n` bytes: one `parse_hexa_byte`, and the text left for the other `n - 1`. */
  lemma HexaBytesStep(cur: Cursor, n: nat)
    requires n > 0
    ensures var b := ParseHexaByte(cur); var q := NonWhitespace(Rest(cur));
      && (IsHexText(q, n) <==> b.Ok? && IsHexText(NonWhitespace(Rest(b.cursor)), n - 1))
      && (b.Ok? ==> |q| >= 2 && Advanced(cur, b.cursor) && NonWhitespace(Rest(b.cursor)) == q[2..])
      && (IsHexText(q, n) ==> q[2..][2 * (n - 1)..] == q[2 * n..]
                              && HexBytes(q, n) == [b.value] + HexBytes(q[2..], n - 1))
  {
    var q := NonWhitespace(Rest(cur));
    HexTextStep(q, n);
    if IsHexText(q, n) {
      assert q[2..][2 * (n - 1)..] == q[2 * n..];
      HexBytesStep(q, n);
    }
  }

  /** `parse_color`: '#', then the red, green, blue and alpha bytes in that order. */
  function ParseColor(cur: Cursor): (r: Parsed<Color>)
    ensures var q := NonWhitespace(Rest(cur));
      r.Ok? <==> |q| > 0 && q[0] == '#' && IsHexText(q[1..], 4)
    ensures var q := NonWhitespace(Rest(cur));
      r.Ok? ==> (var bs := HexBytes(q[1..], 4);
        r.value == Color(bs[0], bs[1], bs[2], bs[3])
        && Advanced(cur, r.cursor) && NonWhitespace(Rest(r.cursor)) == q[9..])
  {
    NextNonWhitespaceReads(cur);
    var c := NextNonWhitespace(cur);
    if c.last != Chr('#') then FailAt(c, Syntax)
    else
      var bytes := ParseHexaBytes(c, 4);
      if bytes.Fail? then Fail(bytes.error)
      else
        var q := NonWhitespace(Rest(cur));
        assert q[1..][8..] == q[9..];
        var bs := bytes.value;
        Ok(Color(bs[0], bs[1], bs[2], bs[3]), bytes.cursor)
  }

  /**
   * One coordinate of `parse_point`: an optional '-', then a digit (both
   * found by skipping whitespace) that seeds `parse_int`.
   */
  function ParseCoordinate(cur: Cursor): (r: Parsed<Int32>)
    ensures r.Ok? ==> Advanced(cur, r.cursor) && Remaining(r.cursor) < Remaining(cur) && !IsDigit(r.cursor.last)
  {
    var c1 := NextNonWhitespace(cur);
    var negative := c1.last == Chr('-');
    var c2 := if negative then NextNonWhitespace(c1) else c1;
    if !IsDigit(c2.last) then FailAt(c2, Syntax)
    else
      var d: int := DigitValue(c2.last.c);
      ParseInt(c2, if negative then -d else d, false)
  }

  /** `parse_point`: two coordinates, the first followed by whitespace. */
  function ParsePoint(cur: Cursor): (r: Parsed<Point>)
    ensures r.Ok? ==> Advanced(cur, r.cursor) && Remaining(r.cursor) < Remaining(cur) && !IsDigit(r.cursor.last)
  {
    var x := ParseCoordinate(cur);
    if x.Fail? then Fail(x.error)
    else if !IsWhitespace(x.cursor.last) then FailAt(x.cursor, Syntax)
    else
      var y := ParseCoordinate(x.cursor);
      if y.Fail? then Fail(y.error)
      else Ok(Point(x.value, y.value), y.cursor)
  }

  /**
   * The opening shared by the parameter parsers: the rest of the name
   * (when not empty), then `="`, all matched by `consume_pattern`.
   */
  function OpenParameter(cur: Cursor, name: string): (r: Parsed<()>)
    ensures r.Ok? <==> name + "=\"" <= NonWhitespace(Rest(cur))
    ensures r.Ok? ==> (Advanced(cur, r.cursor) && Remaining(r.cursor) < Remaining(cur) && r.cursor.last == Chr('"')
      && NonWhitespace(Rest(r.cursor)) == NonWhitespace(Rest(cur))[|name| + 2..])
  {
    ghost var q := NonWhitespace(Rest(cur));
    PrefixConcat(name, "=\"", q);
    var n := if |name| != 0 then ConsumePattern(cur, name) else Ok((), cur);
    if n.Fail? then Fail(n.error)
    else
      var e := ConsumePattern(n.cursor, "=\"");
      if e.Fail? then Fail(e.error)
      else
        assert q[|name|..][2..] == q[|name| + 2..];
        Ok((), e.cursor)
  }

  lemma PrefixConcat<T>(a: seq<T>, b: seq<T>, q: seq<T>)
    ensures a + b <= q <==> a <= q && b <= q[|a|..]
  {
    if a + b <= q {
      assert q[..|a|] == (a + b)[..|a|];
      assert q[|a|..][..|b|] == (a + b)[|a|..];
    }
    if a <= q && b <= q[|a|..] {
      assert q[..|a| + |b|] == q[..|a|] + q[|a|..][..|b|];
    }
  }

  /**
   * The closing shared by `parse_int_parameter` and `parse_point_parameter`:
   * the value may have stopped on the closing quote itself; otherwise it
   * must have stopped on whitespace, and the next non-whitespace character
   * must be the quote.
   */
  function CloseQuote(cur: Cursor): (r: Parsed<()>)
    ensures r.Ok? ==> Advanced(cur, r.cursor) && r.cursor.last == Chr('"')
    ensures cur.last == Chr('"') ==> r == Ok((), cur)
    ensures !IsWhitespace(cur.last) && cur.last != Chr('"') ==> r.Fail?
  {
    if cur.last == Chr('"') then Ok((), cur)
    else if !IsWhitespace(cur.last) then FailAt(cur, Syntax)
    else ConsumeNextChar(cur, '"')
  }

  /** `parse_int_parameter`: `name="<int>"`, the integer required. */
  function ParseIntParameter(cur: Cursor, name: string): (r: Parsed<Int32>)
    ensures r.Ok? ==> Advanced(cur, r.cursor) && Remaining(r.cursor) < Remaining(cur) && r.cursor.last == Chr('"')
    ensures !(name + "=\"" <= NonWhitespace(Rest(cur))) ==> r.Fail?
  {
    var o := OpenParameter(cur, name);
    if o.Fail? then Fail(o.error)
    else
      var v := ParseInt(o.cursor, 0, true);
      if v.Fail? then Fail(v.error)
      else
        var c := CloseQuote(v.cursor);
        if c.Fail? then Fail(c.error) else Ok(v.value, c.cursor)
  }

  /** `parse_point_parameter`: `name="<x> <y>"`. */
  function ParsePointParameter(cur: Cursor, name: string): (r: Parsed<Point>)
    ensures r.Ok? ==> Advanced(cur, r.cursor) && Remaining(r.cursor) < Remaining(cur) && r.cursor.last == Chr('"')
    ensures !(name + "=\"" <= NonWhitespace(Rest(cur))) ==> r.Fail?
  {
    var o := OpenParameter(cur, name);
    if o.Fail? then Fail(o.error)
    else
      var v := ParsePoint(o.cursor);
      if v.Fail? then Fail(v.error)
      else
        var c := CloseQuote(v.cursor);
        if c.Fail? then Fail(c.error) else Ok(v.value, c.cursor)
  }

  /**
   * `parse_color_parameter`: `name="#rrggbbaa"`; only whitespace may stand
   * between the colour and the closing quote.
   */
  function ParseColorParameter(cur: Cursor, name: string): (r: Parsed<Color>)
    ensures r.Ok? ==> Advanced(cur, r.cursor) && Remaining(r.cursor) < Remaining(cur) && r.cursor.last == Chr('"')
    ensures var q := NonWhitespace(Rest(cur)); var k := |name| + 2;
      r.Ok? <==> (name + "=\"" <= q && IsColorText(q[k..]) && |q| > k + 9 && q[k + 9] == '"')
    ensures var q := NonWhitespace(Rest(cur)); var k := |name| + 2;
      r.Ok? ==> r.value == ColorOf(q[k..])
  {
    var q := NonWhitespace(Rest(cur));
    var k := |name| + 2;
    var o := OpenParameter(cur, name);
    if o.Fail? then Fail(o.error)
    else
      var v := ParseColor(o.cursor);
      if v.Fail? then Fail(v.error)
      else
        NextNonWhitespaceReads(v.cursor);
        assert q[k..][9..] == q[k + 9..];
        var c := ConsumeNextChar(v.cursor, '"');
        if c.Fail? then Fail(c.error) else Ok(v.value, c.cursor)
  }

  /** `q` starts with a colour as `parse_color` reads it. */
  predicate IsColorText(q: seq<char>)
  {
    |q| > 0 && q[0] == '#' && IsHexText(q[1..], 4)
  }

  /** The colour written at the head of `q`. */
  function ColorOf(q: seq<char>): Color
    requires IsColorText(q)
  {
    var bs := HexBytes(q[1..], 4);
    Color(bs[0], bs[1], bs[2], bs[3])
  }

  /**
   * The state of the loop of `parse_points_parameter`: the points so far,
   * the two coordinates being read, and its three flags.
   */
  datatype PointsState = PointsState(points: seq<Point>, a: Int32, b: Int32, aSet: bool, writingA: bool, writingB: bool)

  const POINTS_START := PointsState([], 0, 0, false, false, false)

  /**
   * One character of the loop.  A digit extends `b` once `a` is set, `a`
   * otherwise (in 32-bit arithmetic); whitespace ends `a`, or ends `b` and
   * appends the point; every other character is ignored (the quote ends the
   * loop after this step).
   */
  function PointsStep(st: PointsState, c: char): (r: PointsState)
    ensures |st.points| <= |r.points| <= |st.points| + 1
    ensures r.points[..|st.points|] == st.points
    ensures |r.points| == |st.points| + 1 <==> IsWhitespaceChar(c) && (st.aSet || st.writingA) && st.writingB
    ensures |r.points| == |st.points| + 1 ==> r.points[|st.points|] == Point(st.a, st.b) && r == PointsState(r.points, 0, 0, false, false, false)
    ensures !IsDigitChar(c) && !IsWhitespaceChar(c) ==> r == st
  {
    if IsDigitChar(c) then
      if st.aSet then st.(writingB := true, b := Wrap32(st.b * 10 + DigitValue(c)))
      else st.(writingA := true, a := Wrap32(st.a * 10 + DigitValue(c)))
    else if IsWhitespaceChar(c) then
      if !st.aSet && !st.writingA then st
      else
        var s1 := if !st.aSet then st.(writingA := false, aSet := true) else st;
        if s1.aSet && !s1.writingB then s1
        else PointsState(st.points + [Point(st.a, st.b)], 0, 0, false, false, false)
    else st
  }

  /** The loop of `parse_points_parameter`: characters up to and including the quote, or up to the end of the text. */
  function PointsLoop(cur: Cursor, st: PointsState): (r: (Cursor, PointsState))
    ensures Advanced(cur, r.0) && (r.0.last == Eof || r.0.last == Chr('"'))
    ensures |st.points| <= |r.1.points| && r.1.points[..|st.points|] == st.points
    ensures Remaining(r.0) < Remaining(cur) || Rest(cur) == []
    decreases Remaining(cur)
  {
    var c := NextChar(cur);
    if c.last.Eof? then (c, st)
    else
      var next := PointsStep(st, c.last.c);
      if c.last.c == '"' then (c, next)
      else
        var r := PointsLoop(c, next);
        assert r.1.points[..|st.points|] == r.1.points[..|next.points|][..|st.points|];
        r
  }

  /**
   * What follows the loop: a pending point whose `b` was being written is
   * appended; a point with only `a` written is an error; so is an empty
   * list, which the C code returns as NULL.
   */
  function FinishPoints(cur: Cursor, st: PointsState): (r: Parsed<seq<Point>>)
    ensures r.Ok? ==> r.cursor == cur && |r.value| > 0
    ensures r.Ok? ==> r.value == st.points || r.value == st.points + [Point(st.a, st.b)]
    ensures st.aSet && st.writingB && r.Ok? ==> r.value == st.points + [Point(st.a, st.b)]
    ensures !st.aSet && !st.writingA ==> (r.Ok? <==> |st.points| > 0) && (r.Ok? ==> r.value == st.points)
  {
    if st.aSet && st.writingB then Ok(st.points + [Point(st.a, st.b)], cur)
    else if st.writingA || st.aSet then FailAt(cur, Syntax)
    else if |st.points| == 0 then FailAt(cur, Syntax)
    else Ok(st.points, cur)
  }

  /** `parse_points_parameter`: `name="x y x y ..."`, at least one point. */
  function ParsePointsParameter(cur: Cursor, name: string): (r: Parsed<seq<Point>>)
    ensures r.Ok? ==> Advanced(cur, r.cursor) && Remaining(r.cursor) < Remaining(cur) && |r.value| > 0
    ensures r.Ok? ==> r.cursor.last == Eof || r.cursor.last == Chr('"')
    ensures !(name + "=\"" <= NonWhitespace(Rest(cur))) ==> r.Fail?
  {
    var o := OpenParameter(cur, name);
    if o.Fail? then Fail(o.error)
    else
      var (c, st) := PointsLoop(o.cursor, POINTS_START);
      FinishPoints(c, st)
  }

  /** `parse_viewport`: `viewport="<x> <y> <x> <y>"`. */
  function ParseViewport(cur: Cursor): (r: Parsed<Viewport>)
    ensures r.Ok? ==> (Advanced(cur, r.cursor) && Remaining(r.cursor) < Remaining(cur) && r.cursor.last == Chr('"'))
    ensures var q := NonWhitespace(Rest(cur));
      r.Ok? ==> (|q| > 0 && q[0] == 'v' && "iewport=\"" <= q[1..])
  {
    NextNonWhitespaceReads(cur);
    var v := ConsumeNextChar(cur, 'v');
    if v.Fail? then Fail(v.error)
    else
      var p := ConsumePattern(v.cursor, "iewport=\"");
      if p.Fail? then Fail(p.error)
      else
        var start := ParsePoint(p.cursor);
        if start.Fail? then Fail(start.error)
        else
          var end := ParsePoint(start.cursor);
          if end.Fail? then Fail(end.error)
          else if end.cursor.last == Chr('"') then Ok(Viewport(start.value, end.value), end.cursor)
          else
            var c := NextNonWhitespace(end.cursor);
            if c.last != Chr('"') then FailAt(c, Syntax)
            else Ok(Viewport(start.value, end.value), c)
  }
}
