/**
 The columns of a model image, scaled to a source width and stored in 16 bits: when are they in order? Dividing
 first and cutting to 16 bits afterwards goes round once for every 65536 source pixels.
 */
module CornerColumns {
  import opened Scaling

  const USHORT_VALUES: int := 65536

  /** Model column `k` of `m`, in source pixels of a source `s` wide, as 16 bits hold it. */
  function Column(k: int, m: int, s: int): (c: int)
    requires 0 <= k && m > 0 && s >= 0
  {
    (k * s / m) % USHORT_VALUES
  }

  ghost predicate ColumnsOrdered(m: int, s: int)
    requires m > 0 && s >= 0
  {
    forall j, k :: 0 <= j <= k < m ==> Column(j, m, s) <= Column(k, m, s)
  }

  /**
   What a caller can compare beforehand: leaving out whole turns per column, the last column stays below the
   first turn, or every column but the first falls short of a turn by at most one pixel.
   */
  predicate KeepsOrder(m: int, s: int)
    requires m > 0 && s >= 0
  {
    var rest := s % (USHORT_VALUES * m);
    (m - 1) * rest < USHORT_VALUES * m || (m - 1) * (USHORT_VALUES * m - rest) <= m
  }

  lemma QuotientIs(a: int, m: int, q: int)
    requires m > 0 && q * m <= a < q * m + m
    ensures a / m == q
  {
    var r := a / m;
    assert r * m <= a < r * m + m;
    if r < q {
      ProductsInOrder(r + 1, q, m);
    } else if q < r {
      ProductsInOrder(q + 1, r, m);
    }
  }

  lemma RemainderIs(a: int, n: int, q: int, r: int)
    requires n > 0 && a == q * n + r && 0 <= r < n
    ensures a % n == r
  {
    QuotientIs(a, n, q);
  }

  lemma ColumnIs(k: int, m: int, s: int, q: int, turns: int)
    requires 0 <= k && m > 0 && s >= 0 && q * m <= k * s < q * m + m && 0 <= q - turns * USHORT_VALUES < USHORT_VALUES
    ensures Column(k, m, s) == q - turns * USHORT_VALUES
  {
    QuotientIs(k * s, m, q);
    RemainderIs(q, USHORT_VALUES, turns, q - turns * USHORT_VALUES);
  }

  lemma ColumnOfRest(k: int, m: int, s: int)
    requires 0 <= k && m > 0 && s >= 0
    ensures 0 <= s % (USHORT_VALUES * m) < USHORT_VALUES * m && Column(k, m, s) == Column(k, m, s % (USHORT_VALUES * m))
  {
    var whole, rest := s / (USHORT_VALUES * m), s % (USHORT_VALUES * m);
    var q := k * rest / m;
    assert s == whole * (USHORT_VALUES * m) + rest;
    calc {
      k * s;
      k * (whole * (USHORT_VALUES * m) + rest);
      (k * whole * USHORT_VALUES) * m + k * rest;
    }
    assert q * m <= k * rest < q * m + m;
    var lift := k * whole;
    assert (lift * USHORT_VALUES + q) * m == (k * whole * USHORT_VALUES) * m + q * m;
    QuotientIs(k * s, m, lift * USHORT_VALUES + q);
    RemainderIs(lift * USHORT_VALUES + q, USHORT_VALUES, lift + q / USHORT_VALUES, q % USHORT_VALUES);
  }

  /** The first column at which a growing product passes a limit. */
  lemma FirstPassing(step: int, limit: int, last: int) returns (k: int)
    requires 0 <= limit < last * step && 0 < last
    ensures 1 <= k <= last && (k - 1) * step <= limit < k * step
  {
    k := 1;
    while k * step <= limit
      invariant 1 <= k <= last && (k - 1) * step <= limit
      decreases last - k
    {
      k := k + 1;
    }
  }

  lemma QuotientBelow(a: int, m: int, bound: int)
    requires m > 0
    ensures a / m < bound <==> a < bound * m
  {
    var q := a / m;
    QuotientBounds(a, m);
    if q < bound {
      ProductsInOrder(q + 1, bound, m);
    } else {
      ProductsInOrder(bound, q, m);
    }
  }

  lemma QuotientsInOrder(a: int, b: int, m: int)
    requires m > 0 && a <= b
    ensures a / m <= b / m
  {
    var p, q := a / m, b / m;
    if q < p {
      ProductsInOrder(q + 1, p, m);
    }
  }

  lemma BelowFirstTurn(k: int, m: int, t: int)
    requires 0 <= k && m > 0 && 0 <= t && k * t < USHORT_VALUES * m
    ensures 0 <= k * t / m < USHORT_VALUES && Column(k, m, t) == k * t / m
  {
    ProductsInOrder(0, k, t);
    var q := k * t / m;
    if q >= USHORT_VALUES {
      ProductsInOrder(USHORT_VALUES, q, m);
    }
    ColumnIs(k, m, t, q, 0);
  }

  lemma SmallPairInOrder(j: int, k: int, m: int, t: int)
    requires m > 0 && 0 <= t && (m - 1) * t < USHORT_VALUES * m && 0 <= j <= k < m
    ensures Column(j, m, t) <= Column(k, m, t)
  {
    ProductsInOrder(j, k, t);
    ProductsInOrder(k, m - 1, t);
    BelowFirstTurn(j, m, t);
    BelowFirstTurn(k, m, t);
    QuotientsInOrder(j * t, k * t, m);
  }

  lemma SmallStaysOrdered(m: int, t: int)
    requires m > 0 && 0 <= t && (m - 1) * t < USHORT_VALUES * m
    ensures ColumnsOrdered(m, t)
  {
    forall j, k | 0 <= j <= k < m
      ensures Column(j, m, t) <= Column(k, m, t)
    {
      SmallPairInOrder(j, k, m, t);
    }
  }

  /** One more step of at most 65535 pixels per column moves the quotient by no more than that. */
  lemma NextQuotient(a: int, m: int, t: int)
    requires m > 0 && t <= (USHORT_VALUES - 1) * m
    ensures (a + t) / m <= a / m + USHORT_VALUES - 1
  {
    var q := a / m;
    QuotientBounds(a, m);
    QuotientBelow(a + t, m, q + USHORT_VALUES);
  }

  /** A column that passes the first turn comes out behind its left neighbour. */
  lemma NextColumnFallsBack(k: int, m: int, t: int)
    requires 1 <= k && m > 0 && 0 <= t <= (USHORT_VALUES - 1) * m && (k - 1) * t < USHORT_VALUES * m <= k * t
    ensures Column(k, m, t) < Column(k - 1, m, t)
  {
    BelowFirstTurn(k - 1, m, t);
    assert k * t == (k - 1) * t + t;
    NextQuotient((k - 1) * t, m, t);
    QuotientBelow(k * t, m, USHORT_VALUES);
    QuotientBounds(k * t, m);
    ColumnIs(k, m, t, k * t / m, 1);
  }

  lemma FirstTurnSwaps(m: int, t: int)
    requires m > 0 && 0 <= t <= (USHORT_VALUES - 1) * m && (m - 1) * t >= USHORT_VALUES * m
    ensures !ColumnsOrdered(m, t)
  {
    var k := FirstPassing(t, USHORT_VALUES * m - 1, m - 1);
    NextColumnFallsBack(k, m, t);
  }

  /** Just short of a full turn a column, the quotient falls behind by one for every `m` of the shortfall. */
  lemma ColumnBehind(k: int, m: int, t: int, behind: int)
    requires 1 <= k && m > 0 && 0 <= t && 1 <= behind <= USHORT_VALUES
    requires (behind - 1) * m < k * (USHORT_VALUES * m - t) <= behind * m
    ensures Column(k, m, t) == USHORT_VALUES - behind
  {
    var q := k * USHORT_VALUES - behind;
    calc {
      k * t;
      k * (USHORT_VALUES * m) - k * (USHORT_VALUES * m - t);
      (k * USHORT_VALUES) * m - k * (USHORT_VALUES * m - t);
    }
    assert q * m == (k * USHORT_VALUES) * m - behind * m;
    assert (behind - 1) * m == behind * m - m;
    ProductsInOrder(1, k, USHORT_VALUES);
    ColumnIs(k, m, t, q, k - 1);
  }

  lemma NearTurnColumn(k: int, m: int, t: int)
    requires 1 <= k < m && 0 <= t < USHORT_VALUES * m && (m - 1) * (USHORT_VALUES * m - t) <= m
    ensures Column(k, m, t) == USHORT_VALUES - 1
  {
    ProductsInOrder(k, m - 1, USHORT_VALUES * m - t);
    ProductsInOrder(1, k, USHORT_VALUES * m - t);
    ColumnBehind(k, m, t, 1);
  }

  lemma NearTurnStaysOrdered(m: int, t: int)
    requires m > 0 && 0 <= t < USHORT_VALUES * m && (m - 1) * (USHORT_VALUES * m - t) <= m
    ensures ColumnsOrdered(m, t)
  {
    forall j, k | 0 <= j <= k < m
      ensures Column(j, m, t) <= Column(k, m, t)
    {
      if j > 0 {
        NearTurnColumn(j, m, t);
      }
      if k > 0 {
        NearTurnColumn(k, m, t);
      }
    }
  }

  lemma NearTurnSwaps(m: int, t: int)
    requires m > 0 && (USHORT_VALUES - 1) * m < t < USHORT_VALUES * m && (m - 1) * (USHORT_VALUES * m - t) > m
    ensures !ColumnsOrdered(m, t)
  {
    var e := USHORT_VALUES * m - t;
    var k := FirstPassing(e, m, m - 1);
    assert k * e == (k - 1) * e + e;
    assert 2 <= k;
    ProductsInOrder(1, k - 1, e);
    ColumnBehind(k - 1, m, t, 1);
    ColumnBehind(k, m, t, 2);
    assert Column(k - 1, m, t) > Column(k, m, t);
  }

  /** For all sizes: the 16-bit columns are in order exactly under the stated comparison. */
  lemma ColumnsOrderedIff(m: int, s: int)
    requires m > 0 && s >= 0
    ensures ColumnsOrdered(m, s) <==> KeepsOrder(m, s)
  {
    var t := s % (USHORT_VALUES * m);
    forall k | 0 <= k < m
      ensures Column(k, m, s) == Column(k, m, t)
    {
      ColumnOfRest(k, m, s);
    }
    ColumnOfRest(0, m, s);
    assert ColumnsOrdered(m, s) <==> ColumnsOrdered(m, t);
    if (m - 1) * t < USHORT_VALUES * m {
      SmallStaysOrdered(m, t);
    } else if (m - 1) * (USHORT_VALUES * m - t) <= m {
      NearTurnStaysOrdered(m, t);
    } else if t <= (USHORT_VALUES - 1) * m {
      FirstTurnSwaps(m, t);
    } else {
      NearTurnSwaps(m, t);
    }
  }
}
