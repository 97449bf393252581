/** The little real arithmetic that budgets and prices share. */
module Reals {

  lemma ProductIsNonNegative(x: real, y: real)
    requires x >= 0.0 && y >= 0.0
    ensures x * y >= 0.0
  {
  }

  /** A product of non-negative reals vanishes only with a factor. */
  lemma ProductVanishes(x: real, y: real)
    requires x >= 0.0 && y >= 0.0
    ensures x * y == 0.0 <==> x == 0.0 || y == 0.0
  {
    if x > 0.0 && y > 0.0 {
      assert x * y > 0.0;
    }
  }

  lemma ScaleIsMonotone(a: int, b: int, x: real)
    requires a <= b && x >= 0.0
    ensures a as real * x <= b as real * x
  {
    ProductIsNonNegative((b - a) as real, x);
    assert b as real * x == a as real * x + (b - a) as real * x;
  }
}
