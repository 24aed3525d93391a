/** The small integer helpers of the program's utilities file. */
module Utils {
  function Min(a: int, b: int): (r: int)
    ensures r == a || r == b
    ensures r <= a && r <= b
  {
    if a < b then a else b
  }

  function Max(a: int, b: int): (r: int)
    ensures r == a || r == b
    ensures r >= a && r >= b
  {
    if a > b then a else b
  }

  /** Min and Max of a pair are that pair again, smaller one first. */
  lemma MinMaxSplit(a: int, b: int)
    ensures Min(a, b) <= Max(a, b)
    ensures multiset{Min(a, b), Max(a, b)} == multiset{a, b}
  {
  }

  /**
   * The guard the program uses for "strictly positive" quantities.  As written
   * it accepts zero: the test is `n >= 0`, not `n > 0`.
   */
  predicate MustBeStrictPositive(n: int)
  {
    n >= 0
  }

  /**
   * The guard lets zero through although its name promises strict
   * positivity, and zero is the only input on which it disagrees with `n > 0`.
   */
  lemma StrictPositiveAcceptsZero()
    ensures MustBeStrictPositive(0)
    ensures forall n: int :: MustBeStrictPositive(n) != (n > 0) <==> n == 0
  {
  }
}
