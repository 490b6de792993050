/** Python's built-in `round` applied to a number: the nearest integer, with
    ties going to the even neighbour ("banker's rounding"). */
module Rounding {

  /** Distance between a real and an integer. */
  function Gap(x: real, n: int): real
  {
    if n as real <= x then x - n as real else n as real - x
  }

  /** `n` is an integer nearest to `x`, and when `x` lies exactly halfway
      between two integers, `n` is the even one. */
  ghost predicate NearestHalfEven(x: real, n: int)
  {
    Gap(x, n) < 0.5 || (Gap(x, n) == 0.5 && n % 2 == 0)
  }

  /** Round half to even, as Python 3's `round(x)` does. */
  function Round(x: real): (n: int)
    ensures NearestHalfEven(x, n)
  {
    var f := x.Floor;
    var frac := x - f as real;
    if frac < 0.5 then f
    else if frac > 0.5 then f + 1
    else if f % 2 == 0 then f
    else f + 1
  }

  /** The half-to-even rule picks exactly one integer. */
  lemma NearestHalfEvenUnique(x: real, n: int, m: int)
    requires NearestHalfEven(x, n) && NearestHalfEven(x, m)
    ensures n == m
  {
  }

  /** Any integer meeting the rounding rule is what `Round` returns. */
  lemma RoundUnique(x: real, n: int)
    requires NearestHalfEven(x, n)
    ensures Round(x) == n
  {
    NearestHalfEvenUnique(x, Round(x), n);
  }

  /** Rounding never reverses the order of two numbers. */
  lemma RoundMonotone(x: real, y: real)
    requires x <= y
    ensures Round(x) <= Round(y)
  {
  }

  /** A number between two integers rounds to an integer between them. */
  lemma RoundBetween(x: real, lo: int, hi: int)
    requires lo as real <= x <= hi as real
    ensures lo <= Round(x) <= hi
  {
    var n := Round(x);
    assert x - 0.5 <= n as real <= x + 0.5;
  }

  /** A whole number rounds to itself. */
  lemma RoundInteger(k: int)
    ensures Round(k as real) == k
  {
    RoundUnique(k as real, k);
  }
}
