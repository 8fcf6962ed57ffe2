/** Greedy non-maximum suppression over a ranking, marking the suppressed entries of `order` with -1. */
module Suppression {
  import opened BoxOverlap

  const SUPPRESSED := -1

  predicate Holds(locations: seq<real>, index: int) {
    0 <= index && 4 * index + 3 < |locations|
  }

  function BoxAt(locations: seq<real>, index: int): Corners
    requires Holds(locations, index)
  {
    var x, y := locations[index * 4], locations[index * 4 + 1];
    Corners(x, y, x + locations[index * 4 + 2], y + locations[index * 4 + 3])
  }

  predicate Clash(locations: seq<real>, threshold: real, i: int, j: int)
    requires Holds(locations, i) && Holds(locations, j)
  {
    Overlap(BoxAt(locations, i), BoxAt(locations, j)) > threshold
  }

  ghost predicate ValidOrder(locations: seq<real>, order: seq<int>) {
    forall k :: 0 <= k < |order| ==> order[k] == SUPPRESSED || Holds(locations, order[k])
  }

  /** Entry `k` is taken when it clashes with no entry taken before it. */
  ghost predicate Survives(locations: seq<real>, threshold: real, order: seq<int>, k: nat)
    requires ValidOrder(locations, order) && k < |order|
    decreases k, 1
  {
    order[k] != SUPPRESSED && Unclashed(locations, threshold, order, k, k)
  }

  /** No entry taken among the first `i` (and before `k`) clashes with entry `k`. */
  ghost predicate Unclashed(locations: seq<real>, threshold: real, order: seq<int>, k: nat, i: nat)
    requires ValidOrder(locations, order) && i <= k < |order| && order[k] != SUPPRESSED
    decreases i, 0
  {
    forall j: nat :: j < i && Survives(locations, threshold, order, j) ==> !Clash(locations, threshold, order[j], order[k])
  }

  /** The mark entry `k` carries once the first `i` entries have been processed. */
  ghost function Marked(locations: seq<real>, threshold: real, order: seq<int>, k: nat, i: nat): int
    requires ValidOrder(locations, order) && k < |order|
  {
    if order[k] != SUPPRESSED && Unclashed(locations, threshold, order, k, if i < k then i else k)
    then order[k] else SUPPRESSED
  }

  method Nms(validCount: nat, locations: seq<real>, order: array<int>, threshold: real)
    requires validCount <= order.Length && ValidOrder(locations, order[..validCount])
    modifies order
    ensures ValidOrder(locations, old(order[..validCount]))
    ensures forall k: nat :: k < validCount ==>
              order[k] == if Survives(locations, threshold, old(order[..validCount]), k) then old(order[k]) else SUPPRESSED
    ensures forall k :: validCount <= k < order.Length ==> order[k] == old(order[k])
  {
    ghost var was := order[..validCount];
    for i := 0 to validCount
      invariant forall k: nat :: k < validCount ==> order[k] == Marked(locations, threshold, was, k, i)
      invariant forall k :: validCount <= k < order.Length ==> order[k] == old(order[k])
    {
      assert order[i] == Marked(locations, threshold, was, i, i);
      if order[i] == SUPPRESSED {
        assert !Survives(locations, threshold, was, i);
        assert forall k: nat :: k < validCount ==>
                 Marked(locations, threshold, was, k, i) == Marked(locations, threshold, was, k, i + 1);
        continue;
      }
      var current := order[i];
      assert Survives(locations, threshold, was, i) && current == was[i];
      for j := i + 1 to validCount
        invariant forall k: nat :: k <= i || j <= k < validCount ==> k < validCount && order[k] == Marked(locations, threshold, was, k, i)
        invariant forall k: nat :: i < k < j ==> order[k] == Marked(locations, threshold, was, k, i + 1)
        invariant forall k :: validCount <= k < order.Length ==> order[k] == old(order[k])
      {
        var candidate := order[j];
        if candidate == SUPPRESSED {
          continue;
        }
        if Clash(locations, threshold, current, candidate) {
          order[j] := SUPPRESSED;
        }
      }
    }
  }

  /** Two survivors overlap at most the threshold. */
  lemma SurvivorsKeepApart(locations: seq<real>, threshold: real, order: seq<int>, i: nat, j: nat)
    requires ValidOrder(locations, order) && i < |order| && j < |order| && i != j
    requires Survives(locations, threshold, order, i) && Survives(locations, threshold, order, j)
    ensures Overlap(BoxAt(locations, order[i]), BoxAt(locations, order[j])) <= threshold
  {
    OverlapSymmetric(BoxAt(locations, order[i]), BoxAt(locations, order[j]));
    if i < j {
      assert !Clash(locations, threshold, order[i], order[j]);
    } else {
      assert !Clash(locations, threshold, order[j], order[i]);
    }
  }

  /** A suppressed entry has a survivor ranked before it that overlaps it above the threshold. */
  lemma SuppressorSurvives(locations: seq<real>, threshold: real, order: seq<int>, k: nat) returns (i: nat)
    requires ValidOrder(locations, order) && k < |order| && order[k] != SUPPRESSED
    requires !Survives(locations, threshold, order, k)
    ensures i < k && Survives(locations, threshold, order, i)
    ensures Overlap(BoxAt(locations, order[i]), BoxAt(locations, order[k])) > threshold
  {
    i :| i < k && Survives(locations, threshold, order, i) && Clash(locations, threshold, order[i], order[k]);
  }

  /** The greedy rule has one solution: any selection that obeys it is the set of survivors. */
  lemma {:induction false} GreedySelectionIsUnique(
    locations: seq<real>, threshold: real, order: seq<int>, taken: set<nat>, k: nat)
    requires ValidOrder(locations, order) && k < |order|
    requires forall m: nat :: m < |order| ==>
               (m in taken <==> order[m] != SUPPRESSED
                                && forall j: nat :: j < m && j in taken ==>
                                     order[j] != SUPPRESSED && !Clash(locations, threshold, order[j], order[m]))
    ensures k in taken <==> Survives(locations, threshold, order, k)
    decreases k
  {
    forall j: nat | j < k
      ensures j in taken <==> Survives(locations, threshold, order, j)
    {
      GreedySelectionIsUnique(locations, threshold, order, taken, j);
    }
  }
}
