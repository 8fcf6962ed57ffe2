/** The hole-style quicksort that ranks scores downwards and carries the candidate indices along. */
module RankSort {

  type Entry = (real, int)

  ghost function Entries(scores: seq<real>, indices: seq<int>): (es: seq<Entry>)
    requires |scores| == |indices|
    ensures |es| == |scores| && forall k :: 0 <= k < |es| ==> es[k] == (scores[k], indices[k])
  {
    seq(|scores|, k requires 0 <= k < |scores| && |scores| == |indices| => (scores[k], indices[k]))
  }

  /** `q` is `p` with the entries of [left, right] in some order, and nothing else touched. */
  ghost predicate Rearranged(p: seq<Entry>, q: seq<Entry>, left: int, right: int)
    requires 0 <= left <= right + 1 <= |p|
  {
    && |p| == |q|
    && p[..left] == q[..left] && p[right + 1..] == q[right + 1..]
    && multiset(p[left..right + 1]) == multiset(q[left..right + 1])
  }

  ghost predicate Descending(es: seq<Entry>, left: int, right: int)
    requires 0 <= left <= right + 1 <= |es|
  {
    forall i, j :: left <= i < j <= right ==> es[i].0 >= es[j].0
  }

  /** Nothing left of the pivot is smaller than it, and nothing right of it is greater. */
  ghost predicate AroundPivot(es: seq<Entry>, left: int, low: int, right: int)
    requires 0 <= left <= low <= right < |es|
  {
    && (forall k :: left <= k < low ==> es[k].0 >= es[low].0)
    && (forall k :: low < k <= right ==> es[k].0 <= es[low].0)
  }

  // ---------------------------------------------------------------- rearrangement

  ghost function Swapped(p: seq<Entry>, i: int, j: int): seq<Entry>
    requires 0 <= i < |p| && 0 <= j < |p|
  {
    p[i := p[j]][j := p[i]]
  }

  lemma SwapUpward(p: seq<Entry>, left: int, right: int, i: int, j: int)
    requires 0 <= left <= i < j <= right < |p|
    ensures Rearranged(p, Swapped(p, i, j), left, right)
  {
    var q := Swapped(p, i, j);
    var a, b, c := p[left..i], p[i + 1..j], p[j + 1..right + 1];
    assert p[left..right + 1] == a + [p[i]] + b + [p[j]] + c;
    assert q[left..right + 1] == a + [p[j]] + b + [p[i]] + c;
  }

  lemma SwapCommutes(p: seq<Entry>, i: int, j: int)
    requires 0 <= i < |p| && 0 <= j < |p|
    ensures Swapped(p, i, j) == Swapped(p, j, i)
    ensures i == j ==> Swapped(p, i, j) == p
  {
  }

  lemma SwapInRange(p: seq<Entry>, left: int, right: int, i: int, j: int)
    requires 0 <= left <= i <= right < |p| && left <= j <= right
    ensures Rearranged(p, Swapped(p, i, j), left, right)
  {
    SwapCommutes(p, i, j);
    if i < j {
      SwapUpward(p, left, right, i, j);
    } else if j < i {
      SwapUpward(p, left, right, j, i);
    }
  }

  lemma RearrangedTwice(p: seq<Entry>, q: seq<Entry>, r: seq<Entry>, left: int, right: int)
    requires 0 <= left <= right + 1 <= |p|
    requires Rearranged(p, q, left, right) && Rearranged(q, r, left, right)
    ensures Rearranged(p, r, left, right)
  {
  }

  lemma RearrangedWider(p: seq<Entry>, q: seq<Entry>, l: int, r: int, left: int, right: int)
    requires 0 <= left <= l <= r + 1 <= right + 1 <= |p|
    requires Rearranged(p, q, l, r)
    ensures Rearranged(p, q, left, right)
  {
    assert p[left..right + 1] == p[..l][left..] + p[l..r + 1] + p[r + 1..][..right - r];
    assert q[left..right + 1] == q[..l][left..] + q[l..r + 1] + q[r + 1..][..right - r];
    assert p[..left] == p[..l][..left] && q[..left] == q[..l][..left];
    assert p[right + 1..] == p[r + 1..][right - r..] && q[right + 1..] == q[r + 1..][right - r..];
  }

  /** Every entry of the rearranged range was already in it. */
  lemma EntryCameFrom(p: seq<Entry>, q: seq<Entry>, left: int, right: int, k: int) returns (i: int)
    requires 0 <= left <= right + 1 <= |p| && Rearranged(p, q, left, right)
    requires left <= k <= right
    ensures left <= i <= right && p[i] == q[k]
  {
    assert q[k] == q[left..right + 1][k - left];
    assert q[k] in multiset(q[left..right + 1]);
    assert q[k] in p[left..right + 1];
    var m :| 0 <= m < right + 1 - left && p[left..right + 1][m] == q[k];
    i := left + m;
  }

  /** Bounds on the scores of a range survive its rearrangement. */
  lemma BoundsSurvive(p: seq<Entry>, q: seq<Entry>, left: int, right: int, x: real)
    requires 0 <= left <= right + 1 <= |p| && Rearranged(p, q, left, right)
    ensures (forall k :: left <= k <= right ==> p[k].0 >= x) ==> (forall k :: left <= k <= right ==> q[k].0 >= x)
    ensures (forall k :: left <= k <= right ==> p[k].0 <= x) ==> (forall k :: left <= k <= right ==> q[k].0 <= x)
  {
    forall k | left <= k <= right
      ensures exists i :: left <= i <= right && p[i] == q[k]
    {
      var i := EntryCameFrom(p, q, left, right, k);
    }
  }

  // ---------------------------------------------------------------- partition and sort

  /** Copying an entry into the hole moves the hole; with the key filled in, that is a swap. */
  lemma HoleMoves(es: seq<Entry>, key: Entry, hole: int, source: int)
    requires 0 <= hole < |es| && 0 <= source < |es|
    ensures es[hole := es[source]][source := key] == Swapped(es[hole := key], hole, source)
  {
  }

  /** `scores[hole] = scores[source]; indices[hole] = indices[source];` */
  method FillHole(scores: array<real>, indices: array<int>, hole: int, source: int,
                  ghost was: seq<Entry>, ghost key: Entry, ghost left: int, ghost right: int)
    requires scores.Length == indices.Length == |was|
    requires 0 <= left <= hole <= right < |was| && left <= source <= right
    requires Rearranged(was, Entries(scores[..], indices[..])[hole := key], left, right)
    modifies scores, indices
    ensures scores[hole] == old(scores[source])
    ensures forall k :: 0 <= k < scores.Length && k != hole ==> scores[k] == old(scores[k])
    ensures Rearranged(was, Entries(scores[..], indices[..])[source := key], left, right)
  {
    ghost var es := Entries(scores[..], indices[..]);
    scores[hole], indices[hole] := scores[source], indices[source];
    assert Entries(scores[..], indices[..]) == es[hole := es[source]];
    HoleMoves(es, key, hole, source);
    SwapInRange(es[hole := key], left, right, hole, source);
    RearrangedTwice(was, es[hole := key], Swapped(es[hole := key], hole, source), left, right);
  }

  /** From the right end down to an entry that belongs left of the key. */
  method ScanDown(scores: array<real>, low: int, high: int, key: real) returns (at: int)
    requires 0 <= low <= high < scores.Length
    ensures low <= at <= high
    ensures forall k :: at < k <= high ==> scores[k] <= key
    ensures at == low || scores[at] > key
  {
    at := high;
    while low < at && scores[at] <= key
      invariant low <= at <= high
      invariant forall k :: at < k <= high ==> scores[k] <= key
    {
      at := at - 1;
    }
  }

  /** From the left end up to an entry that belongs right of the key. */
  method ScanUp(scores: array<real>, low: int, high: int, key: real) returns (at: int)
    requires 0 <= low <= high < scores.Length
    ensures low <= at <= high
    ensures forall k :: low <= k < at ==> scores[k] >= key
    ensures at == high || scores[at] < key
  {
    at := low;
    while at < high && scores[at] >= key
      invariant low <= at <= high
      invariant forall k :: low <= k < at ==> scores[k] >= key
    {
      at := at + 1;
    }
  }

  method Partition(scores: array<real>, left: int, right: int, indices: array<int>) returns (low: int)
    requires 0 <= left < right < scores.Length == indices.Length
    modifies scores, indices
    ensures left <= low <= right
    ensures AroundPivot(Entries(scores[..], indices[..]), left, low, right)
    ensures Rearranged(old(Entries(scores[..], indices[..])), Entries(scores[..], indices[..]), left, right)
  {
    low := left;
    var high := right;
    var keyIndex, key := indices[left], scores[left];
    ghost var was := Entries(scores[..], indices[..]);
    ghost var pivot := (key, keyIndex);
    assert was[low := pivot] == was;
    while low < high
      invariant left <= low <= high <= right
      invariant forall k :: left <= k < low ==> scores[k] >= key
      invariant forall k :: high < k <= right ==> scores[k] <= key
      invariant Rearranged(was, Entries(scores[..], indices[..])[low := pivot], left, right)
      decreases high - low
    {
      high := ScanDown(scores, low, high, key);
      FillHole(scores, indices, low, high, was, pivot, left, right);
      var up := ScanUp(scores, low, high, key);
      FillHole(scores, indices, high, up, was, pivot, left, right);
      low := up;
    }
    ghost var es := Entries(scores[..], indices[..]);
    scores[low], indices[low] := key, keyIndex;
    assert Entries(scores[..], indices[..]) == es[low := pivot];
  }

  method QuickSortIndiceInverse(scores: array<real>, left: int, right: int, indices: array<int>)
    requires 0 <= left <= right + 1 <= scores.Length == indices.Length
    modifies scores, indices
    ensures Descending(Entries(scores[..], indices[..]), left, right)
    ensures Rearranged(old(Entries(scores[..], indices[..])), Entries(scores[..], indices[..]), left, right)
    decreases right - left + 1
  {
    if left >= right {
      return;
    }
    ghost var p := Entries(scores[..], indices[..]);
    var low := Partition(scores, left, right, indices);
    ghost var q := Entries(scores[..], indices[..]);
    QuickSortIndiceInverse(scores, left, low - 1, indices);
    ghost var r := Entries(scores[..], indices[..]);
    QuickSortIndiceInverse(scores, low + 1, right, indices);
    ghost var s := Entries(scores[..], indices[..]);
    SortedAroundPivot(q, r, s, left, low, right);
    RearrangedInParts(p, q, r, s, left, low, right);
  }

  /** Rearranging a range, then the part before a pivot, then the part after it, rearranges the range. */
  lemma RearrangedInParts(p: seq<Entry>, q: seq<Entry>, r: seq<Entry>, s: seq<Entry>, left: int, low: int, right: int)
    requires 0 <= left <= low <= right < |p|
    requires Rearranged(p, q, left, right) && Rearranged(q, r, left, low - 1) && Rearranged(r, s, low + 1, right)
    ensures Rearranged(p, s, left, right)
  {
    RearrangedWider(q, r, left, low - 1, left, right);
    RearrangedWider(r, s, low + 1, right, left, right);
    RearrangedTwice(p, q, r, left, right);
    RearrangedTwice(p, r, s, left, right);
  }

  /** Sorting both sides of a pivot sorts the whole range. */
  lemma SortedAroundPivot(q: seq<Entry>, r: seq<Entry>, s: seq<Entry>, left: int, low: int, right: int)
    requires 0 <= left <= low <= right < |q|
    requires AroundPivot(q, left, low, right)
    requires Rearranged(q, r, left, low - 1) && Descending(r, left, low - 1)
    requires Rearranged(r, s, low + 1, right) && Descending(s, low + 1, right)
    ensures Descending(s, left, right)
  {
    BoundsSurvive(q, r, left, low - 1, q[low].0);
    forall k | low <= k < |q|
      ensures r[k] == q[k]
    {
      assert q[low..][k - low] == r[low..][k - low];
    }
    BoundsSurvive(r, s, low + 1, right, q[low].0);
    forall k | 0 <= k <= low
      ensures s[k] == r[k]
    {
      assert r[..low + 1][k] == s[..low + 1][k];
    }
  }

  // ---------------------------------------------------------------- what ranking all candidates means

  /** Distinct entries stay distinct under rearrangement. */
  lemma DistinctStayDistinct(p: seq<Entry>, q: seq<Entry>, i: int, j: int)
    requires |p| == |q| && multiset(p) == multiset(q)
    requires forall a, b :: 0 <= a < b < |p| ==> p[a] != p[b]
    requires 0 <= i < j < |q|
    ensures q[i] != q[j]
  {
    if q[i] == q[j] {
      assert q == q[..i] + [q[i]] + q[i + 1..j] + [q[j]] + q[j + 1..];
      assert multiset(q)[q[i]] >= 2;
      OnceOnly(p, q[i]);
    }
  }

  lemma {:induction false} OnceOnly(p: seq<Entry>, e: Entry)
    requires forall a, b :: 0 <= a < b < |p| ==> p[a] != p[b]
    ensures multiset(p)[e] <= 1
  {
    if p != [] {
      var init := p[..|p| - 1];
      assert p == init + [p[|p| - 1]];
      OnceOnly(init, e);
      if e == p[|p| - 1] {
        assert e !in init;
      }
    }
  }

  /**
   Sorting everything, starting from the identity order: rank k holds the original score of the candidate it
   names, and every candidate is named exactly once.
   */
  lemma RankingNamesCandidates(scores0: seq<real>, order0: seq<int>, scores: seq<real>, order: seq<int>)
    requires |scores0| == |order0| == |scores| == |order|
    requires forall k :: 0 <= k < |order0| ==> order0[k] == k
    requires Rearranged(Entries(scores0, order0), Entries(scores, order), 0, |scores0| - 1)
    ensures forall k :: 0 <= k < |order| ==> 0 <= order[k] < |order| && scores[k] == scores0[order[k]]
    ensures forall i, j :: 0 <= i < j < |order| ==> order[i] != order[j]
    ensures forall c :: 0 <= c < |order| ==> c in order
  {
    var n := |order|;
    var p, q := Entries(scores0, order0), Entries(scores, order);
    assert p[0..n] == p && q[0..n] == q;
    forall k | 0 <= k < n
      ensures 0 <= order[k] < n && scores[k] == scores0[order[k]]
    {
      var i := EntryCameFrom(p, q, 0, n - 1, k);
      assert q[k] == (scores[k], order[k]);
    }
    forall i, j | 0 <= i < j < n
      ensures order[i] != order[j]
    {
      DistinctStayDistinct(p, q, i, j);
      assert q[i] == (scores[i], order[i]) && q[j] == (scores[j], order[j]);
    }
    forall c | 0 <= c < n
      ensures c in order
    {
      assert Rearranged(q, p, 0, n - 1);
      var k := EntryCameFrom(q, p, 0, n - 1, c);
      assert order[k] == c;
    }
  }
}
