/**
 * Reading back `export_points_parameter` with the character loop of
 * `parse_points_parameter`: each `x y` followed by a space appends the
 * point, and the last one, followed by the quote, is left pending for
 * the step after the loop to append.
 */
module PointsRoundTrip {
  import opened CInt
  import opened SeqRegroup
  import opened Text
  import opened Serde
  import opened Model
  import opened Parser
  import opened Export
  import opened ValueRoundTrip

  /** The loop state between two points: nothing being read, `done` collected. */
  function Fresh(done: seq<Point>): PointsState
  {
    PointsState(done, 0, 0, false, false, false)
  }

  predicate AllNonNegative(points: seq<Point>)
  {
    forall i | 0 <= i < |points| :: NonNegative(points[i])
  }

  /** One character of the loop that is not the closing quote. */
  lemma CharStep(cur: Cursor, st: PointsState, c: char, rest: seq<char>)
    requires c != '"' && Rest(cur) == [c] + rest
    ensures NextChar(cur).text == cur.text && Rest(NextChar(cur)) == rest
    ensures PointsLoop(cur, st) == PointsLoop(NextChar(cur), PointsStep(st, c))
  {
  }

  /** The states the loop steps through on `s`, one `PointsStep` per character. */
  function Run(st: PointsState, s: seq<char>): PointsState
    decreases |s|
  {
    if |s| == 0 then st else Run(PointsStep(st, s[0]), s[1..])
  }

  /** Before the quote, the loop is the fold of its step over the characters read. */
  lemma {:induction false} LoopRun(cur: Cursor, st: PointsState, s: seq<char>, rest: seq<char>) returns (next: Cursor)
    requires forall i | 0 <= i < |s| :: s[i] != '"'
    requires Rest(cur) == s + rest
    ensures next.text == cur.text && Rest(next) == rest
    ensures PointsLoop(cur, st) == PointsLoop(next, Run(st, s))
    decreases |s|
  {
    if |s| == 0 {
      next := cur;
    } else {
      ConsHead(s, rest);
      CharStep(cur, st, s[0], s[1..] + rest);
      next := LoopRun(NextChar(cur), PointsStep(st, s[0]), s[1..], rest);
    }
  }

  /** The digits of the first coordinate, which no step wraps, build it by Horner's rule. */
  lemma {:induction false} RunDigitsA(st: PointsState, ds: seq<char>)
    requires |ds| > 0 && AllDigits(ds) && !st.aSet && st.a >= 0 && 0 <= Horner(st.a, ds) <= INT_MAX
    ensures Run(st, ds) == st.(writingA := true, a := Horner(st.a, ds))
    decreases |ds|
  {
    FirstDigit(st.a, ds);
    var st1 := st.(writingA := true, a := st.a * 10 + DigitValue(ds[0]));
    DigitIntoA(st, ds[0]);
    if |ds| > 1 {
      RunDigitsA(st1, ds[1..]);
    }
  }

  /** The digits of the second coordinate, likewise. */
  lemma {:induction false} RunDigitsB(st: PointsState, ds: seq<char>)
    requires |ds| > 0 && AllDigits(ds) && st.aSet && st.b >= 0 && 0 <= Horner(st.b, ds) <= INT_MAX
    ensures Run(st, ds) == st.(writingB := true, b := Horner(st.b, ds))
    decreases |ds|
  {
    FirstDigit(st.b, ds);
    var st1 := st.(writingB := true, b := st.b * 10 + DigitValue(ds[0]));
    DigitIntoB(st, ds[0]);
    if |ds| > 1 {
      RunDigitsB(st1, ds[1..]);
    }
  }

  lemma DigitsHaveNoQuote(ds: seq<char>)
    requires AllDigits(ds)
    ensures forall i | 0 <= i < |ds| :: ds[i] != '"'
  {
  }

  /** The digits of the first coordinate, read by the loop. */
  lemma DigitsIntoA(cur: Cursor, st: PointsState, ds: seq<char>, rest: seq<char>) returns (next: Cursor)
    requires |ds| > 0 && AllDigits(ds) && !st.aSet && st.a >= 0 && 0 <= Horner(st.a, ds) <= INT_MAX
    requires Rest(cur) == ds + rest
    ensures next.text == cur.text && Rest(next) == rest
    ensures PointsLoop(cur, st) == PointsLoop(next, st.(writingA := true, a := Horner(st.a, ds)))
  {
    DigitsHaveNoQuote(ds);
    next := LoopRun(cur, st, ds, rest);
    RunDigitsA(st, ds);
  }

  /** The digits of the second coordinate, read by the loop. */
  lemma DigitsIntoB(cur: Cursor, st: PointsState, ds: seq<char>, rest: seq<char>) returns (next: Cursor)
    requires |ds| > 0 && AllDigits(ds) && st.aSet && st.b >= 0 && 0 <= Horner(st.b, ds) <= INT_MAX
    requires Rest(cur) == ds + rest
    ensures next.text == cur.text && Rest(next) == rest
    ensures PointsLoop(cur, st) == PointsLoop(next, st.(writingB := true, b := Horner(st.b, ds)))
  {
    DigitsHaveNoQuote(ds);
    next := LoopRun(cur, st, ds, rest);
    RunDigitsB(st, ds);
  }

  /** A digit of the first coordinate that does not overflow. */
  lemma DigitIntoA(st: PointsState, d: char)
    requires IsDigitChar(d) && !st.aSet && 0 <= st.a * 10 + DigitValue(d) <= INT_MAX
    ensures PointsStep(st, d) == st.(writingA := true, a := st.a * 10 + DigitValue(d))
  {
  }

  /** A digit of the second coordinate that does not overflow. */
  lemma DigitIntoB(st: PointsState, d: char)
    requires IsDigitChar(d) && st.aSet && 0 <= st.b * 10 + DigitValue(d) <= INT_MAX
    ensures PointsStep(st, d) == st.(writingB := true, b := st.b * 10 + DigitValue(d))
  {
  }

  /** The value after the first digit: no larger than the whole number, which the other digits complete. */
  lemma FirstDigit(acc: int, ds: seq<char>)
    requires acc >= 0 && |ds| > 0 && AllDigits(ds)
    ensures var n := acc * 10 + DigitValue(ds[0]);
      && 0 <= n <= Horner(acc, ds) && Horner(acc, ds) == Horner(n, ds[1..])
      && (|ds| == 1 ==> Horner(acc, ds) == n)
  {
    HornerGrows(acc * 10 + DigitValue(ds[0]), ds[1..]);
  }

  /** `x ` from a fresh state: `x` is set, and nothing of `y` is read yet. */
  lemma FirstCoordinate(cur: Cursor, done: seq<Point>, x: Int32, rest: seq<char>) returns (next: Cursor)
    requires x >= 0
    requires Rest(cur) == IntToString(x) + ([' '] + rest)
    ensures next.text == cur.text && Rest(next) == rest
    ensures PointsLoop(cur, Fresh(done)) == PointsLoop(next, PointsState(done, x, 0, true, false, false))
  {
    var n1 := DigitsIntoA(cur, Fresh(done), IntToString(x), [' '] + rest);
    var s1 := PointsState(done, x, 0, false, true, false);
    CharStep(n1, s1, ' ', rest);
    assert PointsStep(s1, ' ') == PointsState(done, x, 0, true, false, false);
    next := NextChar(n1);
  }

  /** `x y`: the loop ends up holding `x` as set and `y` as being written. */
  lemma PointDigits(cur: Cursor, done: seq<Point>, p: Point, rest: seq<char>) returns (next: Cursor)
    requires NonNegative(p)
    requires Rest(cur) == ExportPoint(p) + rest
    ensures next.text == cur.text && Rest(next) == rest
    ensures PointsLoop(cur, Fresh(done)) == PointsLoop(next, PointsState(done, p.x, p.y, true, false, true))
  {
    var ys := IntToString(p.y);
    assert Rest(cur) == IntToString(p.x) + ([' '] + (ys + rest));
    var n1 := FirstCoordinate(cur, done, p.x, ys + rest);
    next := DigitsIntoB(n1, PointsState(done, p.x, 0, true, false, false), ys, rest);
  }

  /** A point followed by a space is appended, and the loop is ready for the next one. */
  lemma PointThenSpace(cur: Cursor, done: seq<Point>, p: Point, rest: seq<char>) returns (next: Cursor)
    requires NonNegative(p)
    requires Rest(cur) == ExportPoint(p) + " " + rest
    ensures next.text == cur.text && Rest(next) == rest
    ensures PointsLoop(cur, Fresh(done)) == PointsLoop(next, Fresh(done + [p]))
  {
    var n := PointDigits(cur, done, p, [' '] + rest);
    var st := PointsState(done, p.x, p.y, true, false, true);
    CharStep(n, st, ' ', rest);
    next := NextChar(n);
  }

  /** The last point, followed by the closing quote, ends the loop with the point pending. */
  lemma PointThenQuote(cur: Cursor, done: seq<Point>, p: Point, more: seq<char>)
    requires NonNegative(p)
    requires Rest(cur) == ExportPoint(p) + "\"" + more
    ensures var r := PointsLoop(cur, Fresh(done));
      && r.0.text == cur.text && r.0.last == Chr('"') && Rest(r.0) == more
      && r.1 == PointsState(done, p.x, p.y, true, false, true)
  {
    var n := PointDigits(cur, done, p, ['"'] + more);
    var c := NextChar(n);
    assert c.last == Chr('"') && Rest(c) == more;
  }

  /** The text of a list of more than one point: the first, a space, then the others. */
  lemma ExportPointsCons(points: seq<Point>, more: seq<char>)
    requires |points| > 1
    ensures ExportPoints(points) + "\"" + more == ExportPoint(points[0]) + " " + (ExportPoints(points[1..]) + "\"" + more)
  {
    var t := ExportPoints(points[1..]);
    assert ExportPoints(points) == ExportPoint(points[0]) + " " + t;
    Regroup(ExportPoint(points[0]) + " ", t, "\"", more);
  }

  lemma AllNonNegativeTail(points: seq<Point>)
    requires |points| > 0 && AllNonNegative(points)
    ensures NonNegative(points[0]) && AllNonNegative(points[1..])
  {
    assert forall i | 0 <= i < |points| - 1 :: points[1..][i] == points[i + 1];
  }

  /** The whole list: every point but the last appended, the last one pending. */
  lemma {:induction false} PointsLoopReads(cur: Cursor, done: seq<Point>, points: seq<Point>, more: seq<char>)
    requires |points| > 0 && AllNonNegative(points)
    requires Rest(cur) == ExportPoints(points) + "\"" + more
    ensures var r := PointsLoop(cur, Fresh(done)); var last := points[|points| - 1];
      && r.0.text == cur.text && r.0.last == Chr('"') && Rest(r.0) == more
      && r.1 == PointsState(done + points[..|points| - 1], last.x, last.y, true, false, true)
    decreases |points|
  {
    AllNonNegativeTail(points);
    if |points| == 1 {
      PointThenQuote(cur, done, points[0], more);
    } else {
      var tail := points[1..];
      ExportPointsCons(points, more);
      var next := PointThenSpace(cur, done, points[0], ExportPoints(tail) + "\"" + more);
      PointsLoopReads(next, done + [points[0]], tail, more);
      AllButLast(done, points);
    }
  }

  /** After the loop, the pending point is appended: the list read is the list written. */
  lemma FinishReads(cur: Cursor, points: seq<Point>)
    requires |points| > 0
    ensures var last := points[|points| - 1];
      FinishPoints(cur, PointsState(points[..|points| - 1], last.x, last.y, true, false, true)) == Ok(points, cur)
  {
    assert points[..|points| - 1] + [points[|points| - 1]] == points;
  }

  /** `parse_points_parameter` reads back `export_points_parameter`. */
  lemma PointsParameterReads(cur: Cursor, name: string, points: seq<Point>, more: seq<char>)
    requires |points| > 0 && AllNonNegative(points) && NoWhitespace(name)
    requires Rest(cur) == name + "=\"" + ExportPoints(points) + "\"" + more
    ensures Reads(ParsePointsParameter(cur, name), points, cur.text, Chr('"'), more)
  {
    RegroupValue(name, "=\"", ExportPoints(points), "\"", more);
    OpenReads(cur, name, ExportPoints(points) + "\"" + more);
    var o := OpenParameter(cur, name);
    PointsLoopReads(o.cursor, [], points, more);
    PointsParameterSteps(cur, name, points, more);
  }

  /** `parse_points_parameter` once the loop has read the list up to the closing quote. */
  lemma PointsParameterSteps(cur: Cursor, name: string, points: seq<Point>, more: seq<char>)
    requires |points| > 0 && OpenParameter(cur, name).Ok?
    requires var r := PointsLoop(OpenParameter(cur, name).cursor, Fresh([])); var last := points[|points| - 1];
      && r.0.text == cur.text && r.0.last == Chr('"') && Rest(r.0) == more
      && r.1 == PointsState([] + points[..|points| - 1], last.x, last.y, true, false, true)
    ensures Reads(ParsePointsParameter(cur, name), points, cur.text, Chr('"'), more)
  {
    assert POINTS_START == Fresh([]);
    var r := PointsLoop(OpenParameter(cur, name).cursor, POINTS_START);
    assert [] + points[..|points| - 1] == points[..|points| - 1];
    FinishReads(r.0, points);
  }
}
