/** The overlap score of two pixel boxes; pixel boxes are one wider and higher than their corner distance. */
module BoxOverlap {
  import opened Prelude

  datatype Corners = Corners(xmin: real, ymin: real, xmax: real, ymax: real)

  function Shared(low0: real, high0: real, low1: real, high1: real): real {
    MaxReal(0.0, MinReal(high0, high1) - MaxReal(low0, low1) + 1.0)
  }

  function Extent(low: real, high: real): real {
    high - low + 1.0
  }

  function Area(a: Corners): real {
    Extent(a.xmin, a.xmax) * Extent(a.ymin, a.ymax)
  }

  function Intersection(a: Corners, b: Corners): real {
    Shared(a.xmin, a.xmax, b.xmin, b.xmax) * Shared(a.ymin, a.ymax, b.ymin, b.ymax)
  }

  /** The quotient of intersection and union; a union that is not positive scores 0. */
  function Score(intersection: real, areaA: real, areaB: real): real {
    var union := areaA + areaB - intersection;
    if union <= 0.0 then 0.0 else intersection / union
  }

  function Overlap(a: Corners, b: Corners): real {
    Score(Intersection(a, b), Area(a), Area(b))
  }

  ghost predicate Proper(a: Corners) {
    a.xmin <= a.xmax && a.ymin <= a.ymax
  }

  lemma IntersectionSymmetric(a: Corners, b: Corners)
    ensures Intersection(a, b) == Intersection(b, a)
  {
    assert Shared(a.xmin, a.xmax, b.xmin, b.xmax) == Shared(b.xmin, b.xmax, a.xmin, a.xmax);
    assert Shared(a.ymin, a.ymax, b.ymin, b.ymax) == Shared(b.ymin, b.ymax, a.ymin, a.ymax);
  }

  lemma ScoreSymmetric(n: real, areaA: real, areaB: real)
    ensures Score(n, areaA, areaB) == Score(n, areaB, areaA)
  {
  }

  lemma OverlapSymmetric(a: Corners, b: Corners)
    ensures Overlap(a, b) == Overlap(b, a)
  {
    IntersectionSymmetric(a, b);
    ScoreSymmetric(Intersection(a, b), Area(a), Area(b));
  }

  lemma ProductBound(u: real, v: real, p: real, q: real)
    requires 0.0 <= u <= p && 0.0 <= v <= q
    ensures 0.0 <= u * v <= p * q
  {
    assert 0.0 <= u * v;
    assert u * v <= p * v;
    assert p * v <= p * q;
  }

  lemma ProductBelow(u: real, v: real, p: real, q: real)
    requires 0.0 <= u < p && 0.0 <= v <= q && 0.0 < q
    ensures u * v < p * q
  {
    assert u * v <= u * q;
    assert u * q < p * q;
  }

  lemma ProductReached(u: real, v: real, p: real, q: real)
    requires 0.0 <= u <= p && 0.0 <= v <= q && 1.0 <= p && 1.0 <= q && u * v == p * q
    ensures u == p && v == q
  {
    if u < p {
      ProductBelow(u, v, p, q);
    } else if v < q {
      ProductBelow(v, u, q, p);
    }
  }

  lemma AreaAtLeastOne(a: Corners)
    requires Proper(a)
    ensures 1.0 <= Area(a)
  {
    var w, h := a.xmax - a.xmin + 1.0, a.ymax - a.ymin + 1.0;
    assert w <= w * h;
  }

  lemma IntersectionWithinArea(a: Corners, b: Corners)
    requires Proper(a) && Proper(b)
    ensures 0.0 <= Intersection(a, b) <= Area(a)
  {
    var w, h := Shared(a.xmin, a.xmax, b.xmin, b.xmax), Shared(a.ymin, a.ymax, b.ymin, b.ymax);
    ProductBound(w, h, a.xmax - a.xmin + 1.0, a.ymax - a.ymin + 1.0);
  }

  lemma QuotientBound(n: real, d: real)
    requires 0.0 <= n <= d && 0.0 < d
    ensures 0.0 <= n / d <= 1.0 && (n / d == 1.0 <==> n == d)
  {
  }

  /** The intersection is the whole of `a` only when `a` lies inside `b`. */
  lemma IntersectionIsArea(a: Corners, b: Corners)
    requires Proper(a) && Proper(b) && Intersection(a, b) == Area(a)
    ensures b.xmin <= a.xmin && a.xmax <= b.xmax && b.ymin <= a.ymin && a.ymax <= b.ymax
  {
    var w, h := Shared(a.xmin, a.xmax, b.xmin, b.xmax), Shared(a.ymin, a.ymax, b.ymin, b.ymax);
    ProductReached(w, h, a.xmax - a.xmin + 1.0, a.ymax - a.ymin + 1.0);
  }

  lemma IntersectionOfSame(a: Corners)
    requires Proper(a)
    ensures Intersection(a, a) == Area(a)
  {
  }

  lemma ScoreRange(n: real, areaA: real, areaB: real)
    requires 0.0 <= n <= areaA && n <= areaB && 1.0 <= areaA && 1.0 <= areaB
    ensures 0.0 <= Score(n, areaA, areaB) <= 1.0
    ensures Score(n, areaA, areaB) == 1.0 <==> n == areaA == areaB
    ensures Score(n, areaA, areaB) == 0.0 <==> n == 0.0
  {
    QuotientBound(n, areaA + areaB - n);
  }

  /** For boxes of nonnegative size the score is that of a possible intersection. */
  lemma OverlapIsInRange(a: Corners, b: Corners)
    requires Proper(a) && Proper(b)
    ensures 0.0 <= Overlap(a, b) <= 1.0
    ensures Overlap(a, b) == 1.0 <==> Intersection(a, b) == Area(a) == Area(b)
    ensures Overlap(a, b) == 0.0 <==> Intersection(a, b) == 0.0
  {
    IntersectionWithinArea(a, b);
    IntersectionWithinArea(b, a);
    IntersectionSymmetric(a, b);
    AreaAtLeastOne(a);
    AreaAtLeastOne(b);
    ScoreRange(Intersection(a, b), Area(a), Area(b));
  }

  lemma FullIntersectionMeansSame(a: Corners, b: Corners)
    requires Proper(a) && Proper(b)
    ensures Intersection(a, b) == Area(a) == Area(b) <==> a == b
  {
    if Intersection(a, b) == Area(a) == Area(b) {
      IntersectionSymmetric(a, b);
      IntersectionIsArea(a, b);
      IntersectionIsArea(b, a);
    }
    if a == b {
      IntersectionOfSame(a);
    }
  }

  /** For boxes of nonnegative size the score lies in [0, 1], and is 1 for identical boxes only. */
  lemma OverlapRange(a: Corners, b: Corners)
    requires Proper(a) && Proper(b)
    ensures 0.0 <= Overlap(a, b) <= 1.0
    ensures Overlap(a, b) == 1.0 <==> a == b
  {
    OverlapIsInRange(a, b);
    FullIntersectionMeansSame(a, b);
  }

  lemma QuotientTimes(n: real, d: real)
    requires d > 0.0
    ensures n / d * d == n
  {
  }

  /** The score is the share of the union that the intersection makes up; a union without area scores 0. */
  lemma OverlapOfUnion(a: Corners, b: Corners)
    ensures var union := Area(a) + Area(b) - Intersection(a, b);
            if union > 0.0 then Overlap(a, b) * union == Intersection(a, b) else Overlap(a, b) == 0.0
  {
    var union := Area(a) + Area(b) - Intersection(a, b);
    if union > 0.0 {
      QuotientTimes(Intersection(a, b), union);
    }
  }

  /** The whole columns, or rows, from `low` to `high`, both included. */
  ghost function Span(low: int, high: int): (s: set<int>)
    ensures forall p: int :: p in s <==> low <= p <= high
    ensures |s| == if low <= high then high - low + 1 else 0
    decreases high - low
  {
    if low > high then {} else Span(low, high - 1) + {high}
  }

  /** For whole corners, a side is as long as its pixels are many, and boxes share as much as they have in common. */
  lemma SidesInPixels(low0: int, high0: int, low1: int, high1: int)
    ensures low0 <= high0 ==> Extent(low0 as real, high0 as real) == |Span(low0, high0)| as real
    ensures Shared(low0 as real, high0 as real, low1 as real, high1 as real)
            == |Span(low0, high0) * Span(low1, high1)| as real
  {
    var low, high := if low0 < low1 then low1 else low0, if high1 < high0 then high1 else high0;
    assert Span(low0, high0) * Span(low1, high1) == Span(low, high);
  }

  lemma ProductIsZero(u: real, v: real)
    ensures u * v == 0.0 <==> u == 0.0 || v == 0.0
  {
  }

  /** The score is 0 exactly when the boxes are at least one pixel apart in some direction. */
  lemma OverlapZero(a: Corners, b: Corners)
    requires Proper(a) && Proper(b)
    ensures Overlap(a, b) == 0.0 <==>
              || MinReal(a.xmax, b.xmax) + 1.0 <= MaxReal(a.xmin, b.xmin)
              || MinReal(a.ymax, b.ymax) + 1.0 <= MaxReal(a.ymin, b.ymin)
  {
    OverlapIsInRange(a, b);
    ProductIsZero(Shared(a.xmin, a.xmax, b.xmin, b.xmax), Shared(a.ymin, a.ymax, b.ymin, b.ymax));
  }
}
