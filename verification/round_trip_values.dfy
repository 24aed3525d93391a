/**
 * Reading back what the value writers write.  Each lemma puts a writer's
 * text at the head of the unread input, followed by anything, and shows
 * that the matching parser returns the value written and stops exactly
 * after it.  Numbers are non-negative: a '-' is not read back the way it
 * is written (see the divergence lemmas).
 */
module ValueRoundTrip {
  import opened CInt
  import opened SeqRegroup
  import opened Text
  import opened Serde
  import opened Model
  import opened Parser
  import opened Export

  /** `r` returned `v`, and its cursor reads the same text, holds `last` and has `more` unread. */
  predicate Reads<T(==)>(r: Parsed<T>, v: T, text: seq<char>, last: Ch, more: seq<char>)
  {
    r.Ok? && r.value == v && r.cursor.text == text && r.cursor.last == last && Rest(r.cursor) == more
  }

  predicate NoWhitespace(s: seq<char>)
  {
    forall i | 0 <= i < |s| :: !IsWhitespaceChar(s[i])
  }

  /** A pattern written without whitespace is consumed exactly, after any leading whitespace. */
  lemma {:induction false} ConsumeExact(cur: Cursor, w: seq<char>, p: seq<char>, more: seq<char>)
    requires AllWhitespace(w) && |p| > 0 && NoWhitespace(p)
    requires Rest(cur) == w + p + more
    ensures Reads(ConsumePattern(cur, p), (), cur.text, Chr(p[|p| - 1]), more)
    decreases |p|
  {
    assert Rest(cur) == w + [p[0]] + (p[1..] + more);
    SkipWhitespace(cur, w, p[0], p[1..] + more);
    NextNonWhitespaceReads(cur);
    if |p| > 1 {
      ConsumeExact(NextNonWhitespace(cur), [], p[1..], more);
    }
  }

  /**
   * The digit loop over a non-negative run that fits in 32 bits: no step
   * wraps, so no overflow is reported, and the value is the run's decimal
   * value on top of `result`.
   */
  lemma {:induction false} AccumulateReads(cur: Cursor, result: Int32, ds: seq<char>, c: char, more: seq<char>)
    requires |ds| > 0 && AllDigits(ds) && !IsDigitChar(c)
    requires cur.last == Chr(ds[0]) && Rest(cur) == ds[1..] + [c] + more
    requires 0 <= result && Horner(result, ds) <= INT_MAX
    ensures Reads(AccumulateDigits(cur, result, false), Horner(result, ds), cur.text, Chr(c), more)
    decreases |ds|
  {
    var next := result * 10 + DigitValue(ds[0]);
    HornerGrows(next, ds[1..]);
    if |ds| == 1 {
      assert Rest(cur) == [c] + more;
    } else {
      assert Rest(cur) == [ds[1]] + (ds[1..][1..] + [c] + more);
      AccumulateReads(NextChar(cur), next, ds[1..], c, more);
    }
  }

  /**
   * `parse_int` seeded with a first digit the caller read: the rest of the
   * run follows, and the character after it is neither a digit nor '-'.
   */
  lemma SeededReads(cur: Cursor, s: seq<char>, c: char, more: seq<char>)
    requires |s| > 0 && AllDigits(s) && !IsDigitChar(c) && c != '-'
    requires cur.last == Chr(s[0]) && Rest(cur) == s[1..] + [c] + more
    requires Horner(0, s) <= INT_MAX
    ensures Reads(ParseInt(cur, DigitValue(s[0]), false), Horner(0, s), cur.text, Chr(c), more)
  {
    var d: Int32 := DigitValue(s[0]);
    assert Horner(0, s) == Horner(d, s[1..]);
    if |s| == 1 {
      SeededSingle(cur, d, c, more);
    } else {
      ReadFirst(cur, s[1..], c, more);
      assert ParseInt(cur, d, false) == AccumulateDigits(NextChar(cur), d, false);
      AccumulateReads(NextChar(cur), d, s[1..], c, more);
    }
  }

  /** `parse_int` seeded with a digit and followed by a non-digit returns the seed. */
  lemma SeededSingle(cur: Cursor, d: Int32, c: char, more: seq<char>)
    requires !IsDigitChar(c) && c != '-'
    requires Rest(cur) == [] + [c] + more
    ensures Reads(ParseInt(cur, d, false), d, cur.text, Chr(c), more)
  {
    assert Rest(cur) == [c] + more;
  }

  /**
   * A non-negative number whose first digit is found by skipping whitespace,
   * as the coordinate, H/V and rotate parsers find it.
   */
  lemma UnsignedReads(cur: Cursor, w: seq<char>, n: Int32, c: char, more: seq<char>)
    requires n >= 0 && AllWhitespace(w) && !IsDigitChar(c) && c != '-'
    requires Rest(cur) == w + (IntToString(n) + [c] + more)
    ensures var d := NextNonWhitespace(cur);
      && d.text == cur.text && IsDigit(d.last)
      && Reads(ParseInt(d, DigitValue(d.last.c), false), n, cur.text, Chr(c), more)
  {
    var s := IntToString(n);
    assert Rest(cur) == w + [s[0]] + (s[1..] + [c] + more) by {
      assert s == [s[0]] + s[1..];
    }
    SkipWhitespace(cur, w, s[0], s[1..] + [c] + more);
    SeededReads(NextNonWhitespace(cur), s, c, more);
  }

  /** One coordinate of `parse_point`, non-negative. */
  lemma CoordinateReads(cur: Cursor, w: seq<char>, n: Int32, c: char, more: seq<char>)
    requires n >= 0 && AllWhitespace(w) && !IsDigitChar(c) && c != '-'
    requires Rest(cur) == w + (IntToString(n) + [c] + more)
    ensures Reads(ParseCoordinate(cur), n, cur.text, Chr(c), more)
  {
    UnsignedReads(cur, w, n, c, more);
  }

  predicate NonNegative(p: Point)
  {
    p.x >= 0 && p.y >= 0
  }

  /** `parse_point` reads back `export_point`. */
  lemma PointReads(cur: Cursor, w: seq<char>, p: Point, c: char, more: seq<char>)
    requires NonNegative(p) && AllWhitespace(w) && !IsDigitChar(c) && c != '-'
    requires Rest(cur) == w + (ExportPoint(p) + [c] + more)
    ensures Reads(ParsePoint(cur), p, cur.text, Chr(c), more)
  {
    var ys := IntToString(p.y) + [c] + more;
    PointText(w, ExportPoint(p), IntToString(p.x), [' '], IntToString(p.y), [c], more);
    CoordinateReads(cur, w, p.x, ' ', ys);
    var n := ParseCoordinate(cur).cursor;
    CoordinateReads(n, [], p.y, c, more);
    PointSteps(cur, p, n, c, more);
  }

  /** `parse_point` once both coordinates are read. */
  lemma PointSteps(cur: Cursor, p: Point, n: Cursor, c: char, more: seq<char>)
    requires ParseCoordinate(cur) == Ok(p.x, n) && n.last == Chr(' ')
    requires Reads(ParseCoordinate(n), p.y, cur.text, Chr(c), more)
    ensures Reads(ParsePoint(cur), p, cur.text, Chr(c), more)
  {
  }

  /** One character read from the head of `s + [c] + more`. */
  lemma ReadFirst(cur: Cursor, s: seq<char>, c: char, more: seq<char>)
    requires |s| > 0 && Rest(cur) == s + [c] + more
    ensures NextChar(cur).last == Chr(s[0]) && NextChar(cur).text == cur.text
    ensures Rest(NextChar(cur)) == s[1..] + [c] + more
  {
    assert Rest(cur) == [s[0]] + (s[1..] + [c] + more);
  }

  /** `name="` with the name written without whitespace. */
  lemma OpenReads(cur: Cursor, name: string, more: seq<char>)
    requires NoWhitespace(name)
    requires Rest(cur) == name + "=\"" + more
    ensures Reads(OpenParameter(cur, name), (), cur.text, Chr('"'), more)
  {
    var n := if |name| != 0 then ConsumePattern(cur, name) else Ok((), cur);
    if |name| != 0 {
      ConsumeExact(cur, [], name, "=\"" + more);
    }
    ConsumeExact(n.cursor, [], "=\"", more);
  }

  /** `parse_int_parameter` reads back `export_int_parameter` for a non-negative value. */
  lemma IntParameterReads(cur: Cursor, name: string, n: Int32, more: seq<char>)
    requires n >= 0 && NoWhitespace(name)
    requires Rest(cur) == name + "=\"" + IntToString(n) + "\"" + more
    ensures Reads(ParseIntParameter(cur, name), n, cur.text, Chr('"'), more)
  {
    OpenReads(cur, name, IntToString(n) + "\"" + more);
    IntValueReads(cur, name, n, more);
  }

  /** The value and closing quote of `parse_int_parameter`, once `name="` is read. */
  lemma IntValueReads(cur: Cursor, name: string, n: Int32, more: seq<char>)
    requires n >= 0
    requires Reads(OpenParameter(cur, name), (), cur.text, Chr('"'), IntToString(n) + "\"" + more)
    ensures Reads(ParseIntParameter(cur, name), n, cur.text, Chr('"'), more)
  {
    var s := IntToString(n);
    var o := OpenParameter(cur, name);
    ReadFirst(o.cursor, s, '"', more);
    var c1 := NextChar(o.cursor);
    assert ParseInt(o.cursor, 0, true) == AccumulateDigits(c1, 0, false);
    AccumulateReads(c1, 0, s, '"', more);
    var v := ParseInt(o.cursor, 0, true);
    assert CloseQuote(v.cursor) == Ok((), v.cursor);
  }

  /** `parse_point_parameter` reads back `export_point_parameter`. */
  lemma PointParameterReads(cur: Cursor, name: string, p: Point, more: seq<char>)
    requires NonNegative(p) && NoWhitespace(name)
    requires Rest(cur) == name + "=\"" + ExportPoint(p) + "\"" + more
    ensures Reads(ParsePointParameter(cur, name), p, cur.text, Chr('"'), more)
  {
    OpenReads(cur, name, ExportPoint(p) + "\"" + more);
    PointValueReads(cur, name, p, more);
  }

  /** The value and closing quote of `parse_point_parameter`, once `name="` is read. */
  lemma PointValueReads(cur: Cursor, name: string, p: Point, more: seq<char>)
    requires NonNegative(p)
    requires Reads(OpenParameter(cur, name), (), cur.text, Chr('"'), ExportPoint(p) + "\"" + more)
    ensures Reads(ParsePointParameter(cur, name), p, cur.text, Chr('"'), more)
  {
    var o := OpenParameter(cur, name);
    PointReads(o.cursor, [], p, '"', more);
    var v := ParsePoint(o.cursor);
    assert CloseQuote(v.cursor) == Ok((), v.cursor);
  }

  /** `parse_hexa_byte` reads back `%02x`. */
  lemma HexaByteReads(cur: Cursor, b: Byte, more: seq<char>)
    requires Rest(cur) == Hex2(b) + more
    ensures Reads(ParseHexaByte(cur), b, cur.text, Chr(Hex2(b)[1]), more)
  {
    var h := Hex2(b);
    assert Rest(cur) == [] + [h[0]] + ([h[1]] + more);
    SkipWhitespace(cur, [], h[0], [h[1]] + more);
    var c1 := NextNonWhitespace(cur);
    assert Rest(c1) == [] + [h[1]] + more;
    SkipWhitespace(c1, [], h[1], more);
  }

  /** Successive calls of `parse_hexa_byte` read back the bytes written one after the other. */
  lemma {:induction false} HexaBytesReads(cur: Cursor, bs: seq<Byte>, more: seq<char>)
    requires Rest(cur) == HexString(bs) + more
    ensures var r := ParseHexaBytes(cur, |bs|);
      r.Ok? && r.value == bs && Rest(r.cursor) == more && r.cursor.text == cur.text
    decreases |bs|
  {
    if |bs| == 0 {
      assert HexString(bs) == [];
      assert ParseHexaBytes(cur, 0) == Ok([], cur);
    } else {
      var h := HexString(bs[1..]);
      assert Rest(cur) == Hex2(bs[0]) + (h + more);
      HexaByteReads(cur, bs[0], h + more);
      var b := ParseHexaByte(cur);
      HexaBytesReads(b.cursor, bs[1..], more);
      HexaBytesCons(cur, |bs|);
      var m := ParseHexaBytes(b.cursor, |bs| - 1);
      assert [b.value] + m.value == bs;
    }
  }

  /** `parse_hexa_bytes` as one byte, then the others. */
  lemma HexaBytesCons(cur: Cursor, n: nat)
    requires n > 0 && ParseHexaByte(cur).Ok? && ParseHexaBytes(ParseHexaByte(cur).cursor, n - 1).Ok?
    ensures var b := ParseHexaByte(cur); var m := ParseHexaBytes(b.cursor, n - 1);
      ParseHexaBytes(cur, n) == Ok([b.value] + m.value, m.cursor)
  {
  }

  /** `parse_color_parameter` reads back `export_color_parameter`. */
  lemma ColorParameterReads(cur: Cursor, name: string, color: Color, more: seq<char>)
    requires NoWhitespace(name)
    requires Rest(cur) == name + "=\"" + ExportColor(color) + "\"" + more
    ensures Reads(ParseColorParameter(cur, name), color, cur.text, Chr('"'), more)
  {
    OpenReads(cur, name, ExportColor(color) + "\"" + more);
    var o := OpenParameter(cur, name);
    ColorValueReads(o.cursor, color, more);
    ColorParameterSteps(cur, name, color, more);
  }

  /** `parse_color` reads back `export_color`. */
  lemma ColorReads(cur: Cursor, color: Color, more: seq<char>)
    requires Rest(cur) == ExportColor(color) + more
    ensures var r := ParseColor(cur);
      r.Ok? && r.value == color && r.cursor.text == cur.text && Rest(r.cursor) == more
  {
    var bs := [color.red, color.green, color.blue, color.alpha];
    assert Rest(cur) == [] + ['#'] + (HexString(bs) + more);
    SkipWhitespace(cur, [], '#', HexString(bs) + more);
    HexaBytesReads(NextNonWhitespace(cur), bs, more);
  }

  /** The colour and the closing quote of `parse_color_parameter`. */
  lemma ColorValueReads(cur: Cursor, color: Color, more: seq<char>)
    requires Rest(cur) == ExportColor(color) + "\"" + more
    ensures var v := ParseColor(cur);
      && v.Ok? && v.value == color
      && Reads(ConsumeNextChar(v.cursor, '"'), (), cur.text, Chr('"'), more)
  {
    ColorReads(cur, color, "\"" + more);
    QuoteReads(ParseColor(cur).cursor, more);
  }

  /** `parse_color_parameter` when its three steps succeed. */
  lemma ColorParameterSteps(cur: Cursor, name: string, color: Color, more: seq<char>)
    requires OpenParameter(cur, name).Ok?
    requires var v := ParseColor(OpenParameter(cur, name).cursor);
      v.Ok? && v.value == color && Reads(ConsumeNextChar(v.cursor, '"'), (), cur.text, Chr('"'), more)
    ensures Reads(ParseColorParameter(cur, name), color, cur.text, Chr('"'), more)
  {
  }

  /** `consume_next_char(s, '"')` on a quote written right there. */
  lemma QuoteReads(cur: Cursor, more: seq<char>)
    requires Rest(cur) == "\"" + more
    ensures Reads(ConsumeNextChar(cur, '"'), (), cur.text, Chr('"'), more)
  {
    assert Rest(cur) == [] + ['"'] + more;
    SkipWhitespace(cur, [], '"', more);
  }

  /**
   * The layout of every parameter as the reader meets it: whitespace, the
   * first letter of the name, then the rest of the name, `="`, the value,
   * the quote, and the separator in front of whatever follows.
   */
  lemma ParameterText(cfg: ExportConfig, name: string, value: string, depth: int, w: seq<char>, rest: seq<char>)
    requires |name| > 0
    ensures w + (Parameter(cfg, name, value, depth) + rest)
      == (w + Indent(cfg, depth)) + [name[0]] + (name[1..] + "=\"" + value + "\"" + (Separator(cfg) + rest))
  {
    var i := Indent(cfg, depth);
    var tail := name[1..] + "=\"" + value + "\"" + (Separator(cfg) + rest);
    assert Parameter(cfg, name, value, depth) == i + name + "=\"" + value + ("\"" + Separator(cfg));
    assert name == [name[0]] + name[1..];
    calc {
      w + (Parameter(cfg, name, value, depth) + rest);
      w + (i + ([name[0]] + name[1..]) + "=\"" + value + ("\"" + Separator(cfg)) + rest);
      { Regroup5(w, i, [name[0]], name[1..] + "=\"" + value, "\"" + Separator(cfg), rest); }
      (w + i) + [name[0]] + tail;
    }
  }

  /** Skipping to a parameter: the reader stops on the first letter of its name. */
  lemma AttributeStart(cur: Cursor, cfg: ExportConfig, name: string, value: string, depth: int, w: seq<char>, rest: seq<char>)
    requires AllWhitespace(w) && |name| > 0 && !IsWhitespaceChar(name[0])
    requires Rest(cur) == w + (Parameter(cfg, name, value, depth) + rest)
    ensures var c := NextNonWhitespace(cur);
      && c.text == cur.text && c.last == Chr(name[0])
      && Rest(c) == name[1..] + "=\"" + value + "\"" + (Separator(cfg) + rest)
  {
    ParameterText(cfg, name, value, depth, w, rest);
    SkipWhitespace(cur, w + Indent(cfg, depth), name[0], name[1..] + "=\"" + value + "\"" + (Separator(cfg) + rest));
  }
}
