/** Scaling a coordinate by a ratio of two sizes and dropping the fraction, as the C++ code does it everywhere. */
module Scaling {
  import opened Prelude

  function TruncatedProduct(a: real, b: real): int {
    Truncate(a * b)
  }

  lemma ProductMonotone(a: real, b: real, c: real)
    requires a <= b && 0.0 <= c
    ensures a * c <= b * c
  {
  }

  lemma ProductBelowStrictly(a: real, b: real, c: real)
    requires a < b && 0.0 < c
    ensures a * c < b * c
  {
  }

  lemma RatioPositive(a: real, b: real)
    requires a > 0.0 && b > 0.0
    ensures a / b > 0.0
  {
  }

  lemma TruncatedProductMonotone(a: real, b: real, c: real)
    requires a <= b && 0.0 < c
    ensures TruncatedProduct(a, c) <= TruncatedProduct(b, c)
  {
    ProductMonotone(a, b, c);
    TruncateMonotone(a * c, b * c);
  }

  lemma ProductsInOrder(j: int, k: int, t: int)
    requires j <= k && 0 <= t
    ensures j * t <= k * t
  {
  }

  lemma QuotientBounds(a: int, m: int)
    requires m > 0
    ensures a / m * m <= a < a / m * m + m
  {
  }

  lemma NotNegativeQuotient(a: int, m: int)
    requires m > 0 && 0 <= a
    ensures 0 <= a / m
  {
  }

  lemma ProductsAsReals(a: int, b: int)
    ensures (a * b) as real == a as real * b as real
  {
  }

  lemma BetweenWholes(p: real, s: real, m: real, q: int)
    requires m > 0.0 && q as real * m <= p * s < q as real * m + m
    ensures q as real <= p * (s / m) < q as real + 1.0
  {
    var x := p * (s / m);
    assert x * m == p * s by {
      assert (s / m) * m == s;
    }
    if x < q as real {
      ProductBelowStrictly(x, q as real, m);
    } else if x >= q as real + 1.0 {
      ProductMonotone(q as real + 1.0, x, m);
    }
  }

  lemma WholePartIs(a: real, b: real, q: int)
    requires 0 <= q && q as real <= a * b < q as real + 1.0
    ensures TruncatedProduct(a, b) == q
  {
  }

  /** In whole numbers: a coordinate is scaled by multiplying first and dividing afterwards. */
  lemma ScaledIsQuotient(coordinate: nat, to: nat, from: nat)
    requires to > 0 && from > 0
    ensures TruncatedProduct(coordinate as real, to as real / from as real) == coordinate * to / from
  {
    var q := coordinate * to / from;
    QuotientBounds(coordinate * to, from);
    ProductsAsReals(coordinate, to);
    ProductsAsReals(q, from);
    BetweenWholes(coordinate as real, to as real, from as real, q);
    ProductsInOrder(0, coordinate, to);
    NotNegativeQuotient(coordinate * to, from);
    WholePartIs(coordinate as real, to as real / from as real, q);
  }
}
