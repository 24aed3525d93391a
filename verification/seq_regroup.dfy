/**
 * Regroupings of sequence concatenations that the round-trip proofs use to
 * put a written text into the shape a reader step expects.
 */
module SeqRegroup {
  /** Regrouping a concatenation, for the unread text after each step. */
  lemma Regroup<T>(a: seq<T>, b: seq<T>, c: seq<T>, d: seq<T>)
    ensures a + b + c + d == a + b + (c + d)
    ensures a + b + c + d == a + (b + c + d)
  {
  }

  /** A parameter's value and what follows it, taken apart from `name="`. */
  lemma RegroupValue<T>(a: seq<T>, b: seq<T>, c: seq<T>, d: seq<T>, e: seq<T>)
    ensures a + b + c + d + e == a + b + (c + d + e)
  {
  }

  lemma PointText<T>(w: seq<T>, e: seq<T>, a: seq<T>, sp: seq<T>, b: seq<T>, c: seq<T>, more: seq<T>)
    requires e == a + sp + b
    ensures w + (e + c + more) == w + (a + sp + (b + c + more))
  {
  }

  lemma Regroup5<T>(w: seq<T>, i: seq<T>, n: seq<T>, v: seq<T>, q: seq<T>, rest: seq<T>)
    ensures w + (i + n + v + q + rest) == (w + i) + n + (v + q + rest)
  {
  }

  lemma ConsHead<T>(ds: seq<T>, rest: seq<T>)
    requires |ds| > 0
    ensures ds + rest == [ds[0]] + (ds[1..] + rest)
  {
  }

  lemma AllButLast<T>(done: seq<T>, xs: seq<T>)
    requires |xs| > 1
    ensures done + [xs[0]] + xs[1..][..|xs| - 2] == done + xs[..|xs| - 1]
  {
    assert xs[..|xs| - 1] == [xs[0]] + xs[1..][..|xs| - 2];
  }

  lemma DropLetter1<T>(x: T, y: T, a: seq<T>)
    ensures ([x, y] + a)[1..] == [y] + a
  {
    assert [x, y] + a == [x] + ([y] + a);
  }

  lemma DropLetter3<T>(x: T, y: T, a: seq<T>, b: seq<T>, c: seq<T>)
    ensures ([x, y] + a + b + c)[1..] == [y] + a + b + c
  {
    assert [x, y] + a + b + c == [x] + ([y] + a + b + c);
  }

  lemma DropLetter5<T>(x: T, y: T, a: seq<T>, b: seq<T>, c: seq<T>, d: seq<T>, e: seq<T>)
    ensures ([x, y] + a + b + c + d + e)[1..] == [y] + a + b + c + d + e
  {
    assert [x, y] + a + b + c + d + e == [x] + ([y] + a + b + c + d + e);
  }

  /** The last point and what follows it, regrouped as one tail. */
  lemma RegroupLast3<T>(a: seq<T>, b: seq<T>, c: seq<T>, d: seq<T>, e: seq<T>, f: seq<T>, g: seq<T>, h: seq<T>)
    ensures a + b + c + d + e + f + g + h == a + b + c + d + e + (f + g + h)
  {
  }

  lemma DropHead<T>(h: seq<T>, sp: seq<T>, t: seq<T>, q: seq<T>, more: seq<T>)
    requires |h| > 0 && |t| > 0
    ensures (h + sp + t)[1..] + q + more == h[1..] + sp + ([t[0]] + (t[1..] + q + more))
  {
    assert (h + sp + t)[1..] == h[1..] + sp + t;
    assert t == [t[0]] + t[1..];
  }

  lemma DropEmpty<T>(e: seq<T>, sp: seq<T>, a: seq<T>, b: seq<T>)
    requires e == []
    ensures e + sp + (a + b) == sp + a + b
  {
  }

  lemma EmptyFront<T>(a: seq<T>, b: seq<T>)
    ensures a + b == [] + a + b
  {
  }

  lemma ConsTail<T>(acc: seq<T>, xs: seq<T>)
    requires |xs| > 0
    ensures acc + [xs[0]] + xs[1..] == acc + xs
  {
    assert xs == [xs[0]] + xs[1..];
  }

  lemma OpenText<T>(a: seq<T>, b: seq<T>, t: seq<T>, q: seq<T>, more: seq<T>)
    ensures a + b + t + q + more == [] + (a + b) + (t + q + more)
  {
  }

  lemma HeadText<T>(t: seq<T>, q: seq<T>, more: seq<T>)
    requires |t| > 0
    ensures t + q + more == [] + [t[0]] + (t[1..] + q + more)
  {
    assert t == [t[0]] + t[1..];
  }

  lemma EmptyPrefix<T>(xs: seq<T>)
    ensures [] + xs == xs
  {
  }

  lemma Nest4<T>(a: seq<T>, b: seq<T>, c: seq<T>, d: seq<T>, rest: seq<T>)
    ensures a + b + c + d + rest == a + (b + (c + (d + rest)))
  {
  }

  lemma SplitClose<T>(w: seq<T>, i: seq<T>, a: T, b: T, more: seq<T>)
    ensures w + (i + [a, b] + more) == (w + i) + [a] + ([b] + more)
    ensures [b] + more == [] + [b] + more
  {
  }

  lemma Nest6<T>(s: seq<T>, x: seq<T>, y: seq<T>, w: seq<T>, h: seq<T>, c: seq<T>, more: seq<T>)
    ensures s + x + y + w + h + c + more == s + (x + (y + (w + (h + (c + more)))))
  {
  }

  lemma Nest3<T>(s: seq<T>, a: seq<T>, c: seq<T>, more: seq<T>)
    ensures s + a + c + more == s + (a + (c + more))
  {
  }

  lemma Assoc7<T>(n: seq<T>, a: seq<T>, b: seq<T>, c: seq<T>, d: seq<T>, e: seq<T>, f: seq<T>)
    ensures n + a + b + c + d + e + f == n + (a + b + c + d + e + f)
  {
  }

  lemma Assoc5<T>(n: seq<T>, a: seq<T>, b: seq<T>, c: seq<T>, d: seq<T>)
    ensures n + a + b + c + d == n + (a + b + c + d)
  {
  }

  lemma Assoc4<T>(n: seq<T>, a: seq<T>, b: seq<T>, c: seq<T>)
    ensures n + a + b + c == n + (a + b + c)
  {
  }

  lemma ShapeText<T>(w: seq<T>, sp: seq<T>, open: seq<T>, name: seq<T>, sep: seq<T>, body: seq<T>, nl: seq<T>, more: seq<T>)
    requires |name| > 0
    ensures w + (sp + open + name + sep + body + nl + more)
      == (w + sp) + open + ([] + [name[0]] + (name[1..] + (sep + (body + (nl + more)))))
  {
    assert name == [name[0]] + name[1..];
  }

  lemma Nest2<T>(a: seq<T>, b: seq<T>, more: seq<T>)
    ensures a + b + more == a + (b + more)
  {
  }

  lemma AppendOne<T>(acc: seq<T>, x: T, xs: seq<T>, all: seq<T>)
    requires all == [x] + xs
    ensures acc + [x] + xs == acc + all
  {
  }

  lemma ViewportText4<T>(v: T, iew: seq<T>, ps: seq<T>, sp: T, pe: seq<T>, q: T, w: seq<T>, more: seq<T>)
    ensures w + (([v] + iew) + ps + [sp] + pe + [q] + more) == w + [v] + ([] + iew + (ps + [sp] + (pe + [q] + more)))
    ensures pe + [q] + more == [] + (pe + [q] + more)
    ensures ps + [sp] + (pe + [q] + more) == [] + (ps + [sp] + (pe + [q] + more))
  {
  }

  lemma SvgText<T>(open: seq<T>, hd: seq<T>, a: seq<T>, b: seq<T>, c: seq<T>, d: seq<T>, e: seq<T>,
                   g: T, n: seq<T>, sh: seq<T>, c1: seq<T>, c2: seq<T>, x: seq<T>)
    ensures open + hd + a + b + c + d + e + ([g] + n) + sh + (c1 + c2) + x
      == [] + open + (hd + ((a + b + c + d + e) + ([] + [g] + (n + (sh + (c1 + (c2 + x)))))))
  {
  }

  /** A text whose last part is `b` ends in `b`, whatever precedes it. */
  lemma EndsWith<T>(a: seq<T>, w: seq<T>, b: seq<T>)
    ensures var t := a + (w + b); |t| >= |b| && t[|t| - |b|..] == b
  {
    var t := a + (w + b);
    assert t == (a + w) + b;
  }
}
