/** Money is an integer number of cents; amounts before rounding are reals, in cents too. */
module Cents {

  /** JavaScript's Math.round: the nearest integer, halves upward. */
  function Round(x: real): (r: int)
    ensures r as real - 0.5 <= x < r as real + 0.5
  {
    (x + 0.5).Floor
  }

  /** A price or cost in dollars, rounded to cents. */
  function FromDollars(x: real): int {
    Round(x * 100.0)
  }

  function ToDollars(cents: int): real {
    cents as real / 100.0
  }

  lemma RoundInt(n: int)
    ensures Round(n as real) == n
  {
  }

  lemma RoundTripDollars(cents: int)
    ensures FromDollars(ToDollars(cents)) == cents
  {
    assert ToDollars(cents) * 100.0 == cents as real;
  }

  lemma RoundMonotone(x: real, y: real)
    requires x <= y
    ensures Round(x) <= Round(y)
  {
  }

  /** Rounding a sum with an integer moves the integer out. */
  lemma RoundShift(n: int, x: real)
    ensures Round(n as real + x) == n + Round(x)
  {
    assert (n as real + x + 0.5).Floor == n + (x + 0.5).Floor;
  }
}
