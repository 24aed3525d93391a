/**
 * The reading cursor ("serdelizer") shared by every parser, and the two
 * writer primitives.  The C cursor wraps a `FILE*`; here the file is the
 * sequence `text`, `index` is how many characters were read from it, and
 * `last` is the character last consumed, which every parser uses as its
 * one-character lookahead.  Reading past the end yields `Eof`.
 */
module Serde {
  import opened Optional

  datatype Ch = Chr(c: char) | Eof

  datatype Cursor = Cursor(text: seq<char>, index: nat, line: int, position: int, last: Ch)

  /** The characters not read yet. */
  function Rest(cur: Cursor): seq<char>
  {
    if cur.index <= |cur.text| then cur.text[cur.index..] else []
  }

  /** The number of characters not read yet: the measure every parser loop decreases. */
  function Remaining(cur: Cursor): nat
  {
    if cur.index <= |cur.text| then |cur.text| - cur.index else 0
  }

  /** `to` reads the same text as `from` and has not moved backwards. */
  predicate Advanced(from: Cursor, to: Cursor)
  {
    to.text == from.text && Remaining(to) <= Remaining(from)
  }

  function NewSerdelizer(text: seq<char>): (cur: Cursor)
    ensures Rest(cur) == text && Remaining(cur) == |text|
    ensures cur.line == 0 && cur.position == 0 && cur.last == Chr('\0')
  {
    Cursor(text, 0, 0, 0, Chr('\0'))
  }

  predicate IsWhitespaceChar(c: char)
  {
    match c
    case '\n' => true
    case '\r' => true
    case '\t' => true
    case ' ' => true
    case _ => false
  }

  predicate IsWhitespace(ch: Ch)
  {
    ch.Chr? && IsWhitespaceChar(ch.c)
  }

  predicate AllWhitespace(s: seq<char>)
  {
    forall i | 0 <= i < |s| :: IsWhitespaceChar(s[i])
  }

  /** Exactly the four characters space, tab, line feed and carriage return are whitespace. */
  lemma WhitespaceIsExactlyFour(c: char)
    ensures IsWhitespaceChar(c) <==> c in {' ', '\t', '\n', '\r'}
  {
  }

  /**
   * Reads one character.  A line feed starts a new line at position 0; any
   * other read, including a read at the end of the text, advances the position.
   */
  function NextChar(cur: Cursor): (r: Cursor)
    ensures r.text == cur.text
    ensures Rest(cur) != [] ==> r.last == Chr(Rest(cur)[0]) && Rest(r) == Rest(cur)[1..] && Remaining(r) == Remaining(cur) - 1
    ensures Rest(cur) == [] ==> r.last == Eof && Rest(r) == [] && Remaining(r) == 0
    ensures r.last == Chr('\n') ==> r.line == cur.line + 1 && r.position == 0
    ensures r.last != Chr('\n') ==> r.line == cur.line && r.position == cur.position + 1
  {
    if cur.index < |cur.text| then
      var c := cur.text[cur.index];
      if c == '\n' then Cursor(cur.text, cur.index + 1, cur.line + 1, 0, Chr(c))
      else Cursor(cur.text, cur.index + 1, cur.line, cur.position + 1, Chr(c))
    else
      Cursor(cur.text, cur.index, cur.line, cur.position + 1, Eof)
  }

  /**
   * Reads characters until one is not whitespace (or the text ends) and
   * leaves it in `last`.  Everything skipped on the way was whitespace.
   */
  function NextNonWhitespace(cur: Cursor): (r: Cursor)
    ensures Advanced(cur, r)
    ensures !IsWhitespace(r.last)
    ensures r.last.Chr? ==> Remaining(r) < Remaining(cur)
    ensures r.last.Eof? ==> AllWhitespace(Rest(cur)) && Rest(r) == []
    decreases Remaining(cur)
  {
    var c := NextChar(cur);
    if IsWhitespace(c.last) then
      var r := NextNonWhitespace(c);
      assert r.last.Eof? ==> AllWhitespace(Rest(cur)) by {
        assert Rest(cur) == [c.last.c] + Rest(c);
      }
      r
    else
      c
  }

  /**
   * The first non-whitespace character is the one returned: when the unread
   * text is whitespace `w`, then `c`, then `more`, the read stops right after `c`.
   */
  lemma {:induction false} SkipWhitespace(cur: Cursor, w: seq<char>, c: char, more: seq<char>)
    requires AllWhitespace(w) && !IsWhitespaceChar(c)
    requires Rest(cur) == w + [c] + more
    ensures NextNonWhitespace(cur).last == Chr(c)
    ensures Rest(NextNonWhitespace(cur)) == more
    ensures NextNonWhitespace(cur).text == cur.text
    decreases |w|
  {
    var n := NextChar(cur);
    if |w| == 0 {
      assert Rest(cur) == [c] + more;
    } else {
      assert Rest(cur) == [w[0]] + (w[1..] + [c] + more);
      SkipWhitespace(n, w[1..], c, more);
    }
  }

  /** `write_spaces`: `n` spaces, none when `n` is not positive. */
  function WriteSpaces(n: int): (r: seq<char>)
    ensures |r| == if n > 0 then n else 0
    ensures forall i | 0 <= i < |r| :: r[i] == ' '
  {
    if n <= 0 then [] else [' '] + WriteSpaces(n - 1)
  }

  /**
   * `write_to_file`: appends the text verbatim to what was written so far.
   * The C call reports failure when the underlying write reports no
   * character written, which is always so for the empty text; `None`
   * stands for that failure.
   */
  function WriteToFile(written: seq<char>, s: seq<char>): (r: Option<seq<char>>)
    ensures r.Some? <==> |s| > 0
    ensures r.Some? ==> |r.value| == |written| + |s| && r.value[..|written|] == written && r.value[|written|..] == s
  {
    if |s| == 0 then None else Some(written + s)
  }

  /** Where an error report points: the cursor's line and position, shown 1-based. */
  function ReportedLocation(cur: Cursor): (loc: (int, int))
    ensures loc.0 - 1 == cur.line && loc.1 - 1 == cur.position
  {
    (cur.line + 1, cur.position + 1)
  }

  /** The cursor after `n` single-character reads. */
  function ReadN(cur: Cursor, n: nat): (r: Cursor)
    ensures r.text == cur.text
  {
    if n == 0 then cur else NextChar(ReadN(cur, n - 1))
  }

  /** Line feeds in `s`. */
  function NewlineCount(s: seq<char>): nat
  {
    if |s| == 0 then 0
    else NewlineCount(s[..|s| - 1]) + (if s[|s| - 1] == '\n' then 1 else 0)
  }

  /** Characters after the last line feed of `s` (all of `s` if it has none). */
  function ColumnOf(s: seq<char>): nat
  {
    if |s| == 0 then 0
    else if s[|s| - 1] == '\n' then 0
    else ColumnOf(s[..|s| - 1]) + 1
  }

  /**
   * Reading the first `n` characters of a text leaves the cursor on the line
   * numbered by the line feeds read, at the column counted since the last one.
   */
  lemma {:induction false} LineAndPositionCount(text: seq<char>, n: nat)
    requires n <= |text|
    ensures ReadN(NewSerdelizer(text), n).index == n
    ensures ReadN(NewSerdelizer(text), n).line == NewlineCount(text[..n])
    ensures ReadN(NewSerdelizer(text), n).position == ColumnOf(text[..n])
  {
    if n > 0 {
      LineAndPositionCount(text, n - 1);
      PrefixStep(text, n);
      ReadStep(ReadN(NewSerdelizer(text), n - 1), text, n);
    }
  }

  /** Errors after `n` reads report the line feeds read plus one and the column plus one. */
  lemma ReportedAfterReads(text: seq<char>, n: nat)
    requires n <= |text|
    ensures ReportedLocation(ReadN(NewSerdelizer(text), n)) == (NewlineCount(text[..n]) + 1, ColumnOf(text[..n]) + 1)
  {
    LineAndPositionCount(text, n);
  }

  /** Growing the prefix by one character updates both counts by that character. */
  lemma PrefixStep(text: seq<char>, n: nat)
    requires 0 < n <= |text|
    ensures NewlineCount(text[..n]) == NewlineCount(text[..n - 1]) + (if text[n - 1] == '\n' then 1 else 0)
    ensures ColumnOf(text[..n]) == if text[n - 1] == '\n' then 0 else ColumnOf(text[..n - 1]) + 1
  {
    assert text[..n][..n - 1] == text[..n - 1];
  }

  /** One read from index `n - 1`: the character at that index becomes `last`. */
  lemma ReadStep(prev: Cursor, text: seq<char>, n: nat)
    requires 0 < n <= |text| && prev.text == text && prev.index == n - 1
    ensures NextChar(prev).index == n && NextChar(prev).last == Chr(text[n - 1])
  {
  }
}
