/**
 Decoding one YOLOv6 output head: planes of one value per grid cell; planes 0 to 3 are the distances from
 the cell centre to the four edges, plane 4 the objectness, planes 5 and up the class scores.
 */
module Decoding {
  import opened Scaling

  datatype Grid = Grid(height: nat, width: nat, stride: nat)

  function Cells(grid: Grid): nat {
    grid.height * grid.width
  }

  ghost predicate Fits(input: seq<real>, grid: Grid, classCount: nat) {
    |input| >= (5 + classCount) * Cells(grid)
  }

  lemma PlaneIndex(plane: nat, planes: nat, cells: nat, cell: nat)
    requires plane < planes && cell < cells
    ensures 0 <= plane * cells + cell < planes * cells
  {
    assert (plane + 1) * cells <= planes * cells;
  }

  function Value(input: seq<real>, grid: Grid, classCount: nat, plane: nat, cell: nat): real
    requires Fits(input, grid, classCount) && plane < 5 + classCount && cell < Cells(grid)
  {
    PlaneIndex(plane, 5 + classCount, Cells(grid), cell);
    input[plane * Cells(grid) + cell]
  }

  function ClassScore(input: seq<real>, grid: Grid, classCount: nat, cell: nat, c: nat): real
    requires Fits(input, grid, classCount) && c < classCount && cell < Cells(grid)
  {
    Value(input, grid, classCount, 5 + c, cell)
  }

  /** The first of the best classes among the first `n`. */
  function BestClass(input: seq<real>, grid: Grid, classCount: nat, cell: nat, n: nat): (best: nat)
    requires Fits(input, grid, classCount) && cell < Cells(grid) && 1 <= n <= classCount
    ensures best < n
  {
    if n == 1 then 0
    else
      var before := BestClass(input, grid, classCount, cell, n - 1);
      if ClassScore(input, grid, classCount, cell, n - 1) > ClassScore(input, grid, classCount, cell, before)
      then n - 1 else before
  }

  /** No class scores higher, and every earlier class scores lower. */
  lemma {:induction false} BestClassIsFirstBest(
    input: seq<real>, grid: Grid, classCount: nat, cell: nat, n: nat, c: nat)
    requires Fits(input, grid, classCount) && cell < Cells(grid) && 1 <= n <= classCount && c < n
    ensures var best := BestClass(input, grid, classCount, cell, n);
            var score := ClassScore(input, grid, classCount, cell, c);
            && score <= ClassScore(input, grid, classCount, cell, best)
            && (c < best ==> score < ClassScore(input, grid, classCount, cell, best))
  {
    if n > 1 {
      var before := BestClass(input, grid, classCount, cell, n - 1);
      if c < n - 1 {
        BestClassIsFirstBest(input, grid, classCount, cell, n - 1, c);
      }
    }
  }

  datatype Candidate = Candidate(x: real, y: real, width: real, height: real, score: real, classId: nat)

  ghost predicate Kept(input: seq<real>, grid: Grid, classCount: nat, threshold: real, cell: nat)
    requires Fits(input, grid, classCount) && cell < Cells(grid) && classCount > 0
  {
    && Value(input, grid, classCount, 4, cell) >= threshold
    && ClassScore(input, grid, classCount, cell, BestClass(input, grid, classCount, cell, classCount)) >= threshold
  }

  /** Where a box begins and how far it reaches along one axis, in model pixels. */
  function Side(index: nat, before: real, after: real, stride: nat): (real, real) {
    var low, high := index as real + 0.5 - before, index as real + 0.5 + after;
    (low * stride as real, (high - low) * stride as real)
  }

  /** The box of the cell in row `row`, column `column`, in model pixels. */
  ghost function Decoded(input: seq<real>, grid: Grid, classCount: nat, row: nat, column: nat): Candidate
    requires Fits(input, grid, classCount) && row < grid.height && column < grid.width && classCount > 0
    requires row * grid.width + column < Cells(grid)
  {
    var cell := row * grid.width + column;
    var best := BestClass(input, grid, classCount, cell, classCount);
    var (x, width) := Side(column, Value(input, grid, classCount, 0, cell), Value(input, grid, classCount, 2, cell), grid.stride);
    var (y, height) := Side(row, Value(input, grid, classCount, 1, cell), Value(input, grid, classCount, 3, cell), grid.stride);
    Candidate(x, y, width, height, ClassScore(input, grid, classCount, cell, best), best)
  }

  /** A candidate together with the cell it was decoded from. */
  datatype Found = Found(candidate: Candidate, row: nat, column: nat)

  function CellOf(grid: Grid, f: Found): nat {
    f.row * grid.width + f.column
  }

  /** The candidates of the cells before (row, column) in row-major order, with the cells they come from. */
  ghost function Head(input: seq<real>, grid: Grid, classCount: nat, threshold: real, row: nat, column: nat)
    : (found: seq<Found>)
    requires Fits(input, grid, classCount) && classCount > 0
    requires row <= grid.height && column <= grid.width && (row == grid.height ==> column == 0)
    decreases row, column
  {
    if column > 0 then
      RowInside(grid, row, column - 1);
      var cell := row * grid.width + column - 1;
      var before := Head(input, grid, classCount, threshold, row, column - 1);
      if Kept(input, grid, classCount, threshold, cell)
      then before + [Found(Decoded(input, grid, classCount, row, column - 1), row, column - 1)] else before
    else if row > 0 then Head(input, grid, classCount, threshold, row - 1, grid.width)
    else []
  }

  lemma RowInside(grid: Grid, row: nat, column: nat)
    requires row < grid.height && column < grid.width
    ensures row * grid.width + column < Cells(grid)
  {
    assert (row + 1) * grid.width <= grid.height * grid.width;
  }

  ghost function WholeHead(input: seq<real>, grid: Grid, classCount: nat, threshold: real): seq<Found>
    requires Fits(input, grid, classCount) && classCount > 0
  {
    Head(input, grid, classCount, threshold, grid.height, 0)
  }

  lemma NextRow(width: nat, row: nat)
    requires row > 0
    ensures (row - 1) * width + width == row * width
  {
  }

  /** The cell passes both thresholds, and the candidate is its decoded box with its best class. */
  ghost predicate ComesFromItsCell(input: seq<real>, grid: Grid, classCount: nat, threshold: real, f: Found)
    requires Fits(input, grid, classCount) && classCount > 0
  {
    && f.row < grid.height && f.column < grid.width && CellOf(grid, f) < Cells(grid)
    && Kept(input, grid, classCount, threshold, CellOf(grid, f))
    && f.candidate == Decoded(input, grid, classCount, f.row, f.column)
  }

  /** Everything found comes from its own cell, and the cells increase and lie before `limit`. */
  ghost predicate SoundUpTo(
    input: seq<real>, grid: Grid, classCount: nat, threshold: real, found: seq<Found>, limit: nat)
    requires Fits(input, grid, classCount) && classCount > 0
  {
    && (forall k :: 0 <= k < |found| ==>
          ComesFromItsCell(input, grid, classCount, threshold, found[k]) && CellOf(grid, found[k]) < limit)
    && (forall i, j :: 0 <= i < j < |found| ==> CellOf(grid, found[i]) < CellOf(grid, found[j]))
  }

  lemma OneMoreFound(
    input: seq<real>, grid: Grid, classCount: nat, threshold: real, found: seq<Found>, limit: nat, f: Found)
    requires Fits(input, grid, classCount) && classCount > 0
    requires SoundUpTo(input, grid, classCount, threshold, found, limit)
    requires ComesFromItsCell(input, grid, classCount, threshold, f) && CellOf(grid, f) == limit
    ensures SoundUpTo(input, grid, classCount, threshold, found + [f], limit + 1)
  {
  }

  lemma FoundBelowMore(
    input: seq<real>, grid: Grid, classCount: nat, threshold: real, found: seq<Found>, limit: nat)
    requires Fits(input, grid, classCount) && classCount > 0
    requires SoundUpTo(input, grid, classCount, threshold, found, limit)
    ensures SoundUpTo(input, grid, classCount, threshold, found, limit + 1)
  {
  }

  lemma {:induction false} HeadIsSound(
    input: seq<real>, grid: Grid, classCount: nat, threshold: real, row: nat, column: nat, limit: nat)
    requires Fits(input, grid, classCount) && classCount > 0
    requires row <= grid.height && column <= grid.width && (row == grid.height ==> column == 0)
    requires limit == row * grid.width + column
    ensures SoundUpTo(input, grid, classCount, threshold,
                      Head(input, grid, classCount, threshold, row, column), limit)
    decreases row, column
  {
    if column > 0 {
      RowInside(grid, row, column - 1);
      HeadIsSound(input, grid, classCount, threshold, row, column - 1, limit - 1);
      var before := Head(input, grid, classCount, threshold, row, column - 1);
      FoundBelowMore(input, grid, classCount, threshold, before, limit - 1);
      if Kept(input, grid, classCount, threshold, limit - 1) {
        OneMoreFound(input, grid, classCount, threshold, before, limit - 1,
                     Found(Decoded(input, grid, classCount, row, column - 1), row, column - 1));
      }
    } else if row > 0 {
      NextRow(grid.width, row);
      HeadIsSound(input, grid, classCount, threshold, row - 1, grid.width, limit);
    }
  }

  /** Every kept cell before the scan position has its candidate. */
  lemma {:induction false} HeadIsComplete(
    input: seq<real>, grid: Grid, classCount: nat, threshold: real, row: nat, column: nat, r: nat, c: nat)
    requires Fits(input, grid, classCount) && classCount > 0
    requires row <= grid.height && column <= grid.width && (row == grid.height ==> column == 0)
    requires r < grid.height && c < grid.width && r * grid.width + c < Cells(grid)
    requires r < row || (r == row && c < column)
    requires Kept(input, grid, classCount, threshold, r * grid.width + c)
    ensures Found(Decoded(input, grid, classCount, r, c), r, c)
              in Head(input, grid, classCount, threshold, row, column)
    decreases row, column
  {
    if column > 0 {
      RowInside(grid, row, column - 1);
      if r != row || c != column - 1 {
        HeadIsComplete(input, grid, classCount, threshold, row, column - 1, r, c);
      }
    } else {
      HeadIsComplete(input, grid, classCount, threshold, row - 1, grid.width, r, c);
    }
  }

  // ---------------------------------------------------------------- what the planes of the buffer mean

  /** The point `offset` cells away from the centre of a column or row, in model pixels. */
  ghost function Pixels(index: nat, offset: real, stride: nat): real {
    (index as real + 0.5 + offset) * stride as real
  }

  lemma PixelsInOrder(index: nat, low: real, high: real, stride: nat)
    requires low <= high
    ensures Pixels(index, low, stride) <= Pixels(index, high, stride)
  {
    ProductMonotone(index as real + 0.5 + low, index as real + 0.5 + high, stride as real);
  }

  /** The four edges of the box at a cell: planes 0 to 3 hold the distances to the left, top, right and bottom. */
  ghost function Left(input: seq<real>, grid: Grid, f: Found): real
    requires CellOf(grid, f) < Cells(grid) && 5 * Cells(grid) <= |input|
  {
    Pixels(f.column, -input[CellOf(grid, f)], grid.stride)
  }

  ghost function Top(input: seq<real>, grid: Grid, f: Found): real
    requires CellOf(grid, f) < Cells(grid) && 5 * Cells(grid) <= |input|
  {
    Pixels(f.row, -input[Cells(grid) + CellOf(grid, f)], grid.stride)
  }

  ghost function Right(input: seq<real>, grid: Grid, f: Found): real
    requires CellOf(grid, f) < Cells(grid) && 5 * Cells(grid) <= |input|
  {
    Pixels(f.column, input[2 * Cells(grid) + CellOf(grid, f)], grid.stride)
  }

  ghost function Bottom(input: seq<real>, grid: Grid, f: Found): real
    requires CellOf(grid, f) < Cells(grid) && 5 * Cells(grid) <= |input|
  {
    Pixels(f.row, input[3 * Cells(grid) + CellOf(grid, f)], grid.stride)
  }

  /** Opposite edges, seen from the centre of the cell, lie on the right sides of each other. */
  ghost predicate EdgesSpread(input: seq<real>, grid: Grid, f: Found)
    requires CellOf(grid, f) < Cells(grid) && 5 * Cells(grid) <= |input|
  {
    var cells, cell := Cells(grid), CellOf(grid, f);
    input[cell] + input[2 * cells + cell] >= 0.0 && input[cells + cell] + input[3 * cells + cell] >= 0.0
  }

  lemma SpreadEdgesInOrder(input: seq<real>, grid: Grid, f: Found)
    requires CellOf(grid, f) < Cells(grid) && 5 * Cells(grid) <= |input| && EdgesSpread(input, grid, f)
    ensures Left(input, grid, f) <= Right(input, grid, f) && Top(input, grid, f) <= Bottom(input, grid, f)
  {
    var cells, cell := Cells(grid), CellOf(grid, f);
    PixelsInOrder(f.column, -input[cell], input[2 * cells + cell], grid.stride);
    PixelsInOrder(f.row, -input[cells + cell], input[3 * cells + cell], grid.stride);
  }

  ghost predicate HasItsBox(input: seq<real>, grid: Grid, f: Found)
    requires CellOf(grid, f) < Cells(grid) && 5 * Cells(grid) <= |input|
  {
    var c := f.candidate;
    && c.x == Left(input, grid, f) && c.x + c.width == Right(input, grid, f)
    && c.y == Top(input, grid, f) && c.y + c.height == Bottom(input, grid, f)
  }

  /** The class of highest score, the first if there are several, and its score, in plane 5 plus the class. */
  ghost predicate IsBestClass(input: seq<real>, grid: Grid, classCount: nat, cell: nat, c: nat, score: real)
    requires Fits(input, grid, classCount) && cell < Cells(grid)
  {
    && c < classCount && (5 + c) * Cells(grid) + cell < |input| && score == input[(5 + c) * Cells(grid) + cell]
    && forall k: nat :: k < classCount ==>
         && ClassScore(input, grid, classCount, cell, k) <= score
         && (k < c ==> ClassScore(input, grid, classCount, cell, k) < score)
  }

  /**
   A cell of the grid whose objectness and whose best class reach the threshold; the candidate has the edges, the
   class and the score that the buffer holds for this cell.
   */
  ghost predicate IsFound(input: seq<real>, grid: Grid, classCount: nat, threshold: real, f: Found)
    requires Fits(input, grid, classCount)
  {
    && f.row < grid.height && f.column < grid.width && CellOf(grid, f) < Cells(grid) && 5 * Cells(grid) <= |input|
    && HasItsBox(input, grid, f)
    && input[4 * Cells(grid) + CellOf(grid, f)] >= threshold
    && IsBestClass(input, grid, classCount, CellOf(grid, f), f.candidate.classId, f.candidate.score)
    && f.candidate.score >= threshold
  }

  lemma SidesAreEdges(index: nat, before: real, after: real, stride: nat)
    ensures var (start, length) := Side(index, before, after, stride);
            start == Pixels(index, -before, stride) && start + length == Pixels(index, after, stride)
  {
  }

  lemma FixedPlanesFit(input: seq<real>, grid: Grid, classCount: nat)
    requires Fits(input, grid, classCount)
    ensures 5 * Cells(grid) <= |input|
  {
    assert (5 + classCount) * Cells(grid) == 5 * Cells(grid) + classCount * Cells(grid);
  }

  lemma DecodedEdges(input: seq<real>, grid: Grid, classCount: nat, row: nat, column: nat)
    requires Fits(input, grid, classCount) && row < grid.height && column < grid.width && classCount > 0
    requires row * grid.width + column < Cells(grid)
    ensures var d, cell := Decoded(input, grid, classCount, row, column), row * grid.width + column;
            && (d.x, d.width)
               == Side(column, Value(input, grid, classCount, 0, cell), Value(input, grid, classCount, 2, cell), grid.stride)
            && (d.y, d.height)
               == Side(row, Value(input, grid, classCount, 1, cell), Value(input, grid, classCount, 3, cell), grid.stride)
  {
  }

  lemma FixedPlanes(input: seq<real>, grid: Grid, classCount: nat, cell: nat)
    requires Fits(input, grid, classCount) && cell < Cells(grid) && 5 * Cells(grid) <= |input|
    ensures Value(input, grid, classCount, 0, cell) == input[cell]
    ensures Value(input, grid, classCount, 1, cell) == input[Cells(grid) + cell]
    ensures Value(input, grid, classCount, 2, cell) == input[2 * Cells(grid) + cell]
    ensures Value(input, grid, classCount, 3, cell) == input[3 * Cells(grid) + cell]
    ensures Value(input, grid, classCount, 4, cell) == input[4 * Cells(grid) + cell]
  {
  }

  lemma DecodedIsBetweenEdges(input: seq<real>, grid: Grid, classCount: nat, f: Found)
    requires Fits(input, grid, classCount) && f.row < grid.height && f.column < grid.width && classCount > 0
    requires CellOf(grid, f) < Cells(grid) && 5 * Cells(grid) <= |input|
    ensures var d := Decoded(input, grid, classCount, f.row, f.column);
            && d.x == Left(input, grid, f) && d.x + d.width == Right(input, grid, f)
            && d.y == Top(input, grid, f) && d.y + d.height == Bottom(input, grid, f)
  {
    FixedPlanes(input, grid, classCount, CellOf(grid, f));
    DecodedEdges(input, grid, classCount, f.row, f.column);
    var cells, cell := Cells(grid), CellOf(grid, f);
    SidesAreEdges(f.column, input[cell], input[2 * cells + cell], grid.stride);
    SidesAreEdges(f.row, input[cells + cell], input[3 * cells + cell], grid.stride);
  }

  lemma BestIsBest(input: seq<real>, grid: Grid, classCount: nat, cell: nat)
    requires Fits(input, grid, classCount) && cell < Cells(grid) && classCount > 0
    ensures var best := BestClass(input, grid, classCount, cell, classCount);
            IsBestClass(input, grid, classCount, cell, best, ClassScore(input, grid, classCount, cell, best))
  {
    var best := BestClass(input, grid, classCount, cell, classCount);
    PlaneIndex(5 + best, 5 + classCount, Cells(grid), cell);
    forall k: nat | k < classCount
      ensures && ClassScore(input, grid, classCount, cell, k) <= ClassScore(input, grid, classCount, cell, best)
              && (k < best ==> ClassScore(input, grid, classCount, cell, k) < ClassScore(input, grid, classCount, cell, best))
    {
      BestClassIsFirstBest(input, grid, classCount, cell, classCount, k);
    }
  }

  lemma ScoreOfClass(input: seq<real>, grid: Grid, classCount: nat, cell: nat, c: nat, score: real)
    requires Fits(input, grid, classCount) && cell < Cells(grid)
    requires IsBestClass(input, grid, classCount, cell, c, score)
    ensures score == ClassScore(input, grid, classCount, cell, c)
  {
  }

  lemma BestIsUnique(input: seq<real>, grid: Grid, classCount: nat, cell: nat, c: nat, score: real, d: nat, other: real)
    requires Fits(input, grid, classCount) && cell < Cells(grid)
    requires IsBestClass(input, grid, classCount, cell, c, score)
    requires IsBestClass(input, grid, classCount, cell, d, other)
    ensures c == d && score == other
  {
    ScoreOfClass(input, grid, classCount, cell, c, score);
    ScoreOfClass(input, grid, classCount, cell, d, other);
  }

  lemma ItsCellIsFound(input: seq<real>, grid: Grid, classCount: nat, threshold: real, f: Found)
    requires Fits(input, grid, classCount) && classCount > 0
    requires ComesFromItsCell(input, grid, classCount, threshold, f)
    ensures IsFound(input, grid, classCount, threshold, f)
  {
    FixedPlanesFit(input, grid, classCount);
    DecodedIsBetweenEdges(input, grid, classCount, f);
    FixedPlanes(input, grid, classCount, CellOf(grid, f));
    BestIsBest(input, grid, classCount, CellOf(grid, f));
  }

  lemma SameBox(c: Candidate, d: Candidate)
    requires c.x == d.x && c.y == d.y && c.x + c.width == d.x + d.width && c.y + c.height == d.y + d.height
    requires c.score == d.score && c.classId == d.classId
    ensures c == d
  {
  }

  lemma FoundComesFromItsCell(input: seq<real>, grid: Grid, classCount: nat, threshold: real, f: Found)
    requires Fits(input, grid, classCount) && classCount > 0
    requires IsFound(input, grid, classCount, threshold, f)
    ensures ComesFromItsCell(input, grid, classCount, threshold, f)
  {
    var cell := CellOf(grid, f);
    var best := BestClass(input, grid, classCount, cell, classCount);
    DecodedIsBetweenEdges(input, grid, classCount, f);
    FixedPlanes(input, grid, classCount, cell);
    BestIsBest(input, grid, classCount, cell);
    BestIsUnique(input, grid, classCount, cell, f.candidate.classId, f.candidate.score,
                 best, ClassScore(input, grid, classCount, cell, best));
    SameBox(f.candidate, Decoded(input, grid, classCount, f.row, f.column));
  }

  /** The scan finds exactly the cells that pass both thresholds, each with the box its planes describe. */
  lemma HeadIsExact(input: seq<real>, grid: Grid, classCount: nat, threshold: real, f: Found)
    requires Fits(input, grid, classCount) && classCount > 0
    ensures f in WholeHead(input, grid, classCount, threshold) <==> IsFound(input, grid, classCount, threshold, f)
  {
    if f in WholeHead(input, grid, classCount, threshold) {
      HeadIsSound(input, grid, classCount, threshold, grid.height, 0, Cells(grid));
      ItsCellIsFound(input, grid, classCount, threshold, f);
    } else if IsFound(input, grid, classCount, threshold, f) {
      FoundComesFromItsCell(input, grid, classCount, threshold, f);
      HeadIsComplete(input, grid, classCount, threshold, grid.height, 0, f.row, f.column);
    }
  }

  // ---------------------------------------------------------------- the parallel vectors

  class Candidates {
    var boxes: seq<real>
    var scores: seq<real>
    var classIds: seq<nat>

    ghost predicate Holds(cs: seq<Candidate>)
      reads this
    {
      && |scores| == |classIds| == |cs| && |boxes| == 4 * |cs|
      && (forall k :: 0 <= k < |cs| ==>
            && boxes[4 * k] == cs[k].x && boxes[4 * k + 1] == cs[k].y
            && boxes[4 * k + 2] == cs[k].width && boxes[4 * k + 3] == cs[k].height
            && scores[k] == cs[k].score && classIds[k] == cs[k].classId)
    }

    constructor ()
      ensures Holds([])
    {
      boxes, scores, classIds := [], [], [];
    }

    method Push(x: real, y: real, width: real, height: real, score: real, classId: nat, ghost cs: seq<Candidate>)
      requires Holds(cs)
      modifies this
      ensures Holds(cs + [Candidate(x, y, width, height, score, classId)])
    {
      scores := scores + [score];
      classIds := classIds + [classId];
      boxes := boxes + [x, y, width, height];
    }
  }

  ghost function CandidatesIn(found: seq<Found>): (cs: seq<Candidate>)
    ensures |cs| == |found| && forall k :: 0 <= k < |cs| ==> cs[k] == found[k].candidate
  {
    seq(|found|, k requires 0 <= k < |found| => found[k].candidate)
  }

  lemma CandidatesInAppend(found: seq<Found>, f: Found)
    ensures CandidatesIn(found + [f]) == CandidatesIn(found) + [f.candidate]
  {
  }

  method PickClass(input: seq<real>, grid: Grid, classCount: nat, cell: nat) returns (bestId: nat, bestScore: real)
    requires Fits(input, grid, classCount) && cell < Cells(grid) && classCount > 0
    ensures bestId == BestClass(input, grid, classCount, cell, classCount)
    ensures bestScore == ClassScore(input, grid, classCount, cell, bestId)
  {
    bestId, bestScore := 0, ClassScore(input, grid, classCount, cell, 0);
    for classIndex := 1 to classCount
      invariant bestId == BestClass(input, grid, classCount, cell, classIndex)
      invariant bestScore == ClassScore(input, grid, classCount, cell, bestId)
    {
      var classScore := ClassScore(input, grid, classCount, cell, classIndex);
      if classScore > bestScore {
        bestId, bestScore := classIndex, classScore;
      }
    }
  }

  method DecodeBox(input: seq<real>, grid: Grid, classCount: nat, row: nat, column: nat)
    returns (x: real, y: real, width: real, height: real)
    requires Fits(input, grid, classCount) && classCount > 0 && row < grid.height && column < grid.width
    requires row * grid.width + column < Cells(grid)
    ensures var c := Decoded(input, grid, classCount, row, column);
            x == c.x && y == c.y && width == c.width && height == c.height
  {
    var cell := row * grid.width + column;
    var x1 := column as real + 0.5 - Value(input, grid, classCount, 0, cell);
    var y1 := row as real + 0.5 - Value(input, grid, classCount, 1, cell);
    var x2 := column as real + 0.5 + Value(input, grid, classCount, 2, cell);
    var y2 := row as real + 0.5 + Value(input, grid, classCount, 3, cell);
    var stride := grid.stride as real;
    x, y, width, height := x1 * stride, y1 * stride, (x2 - x1) * stride, (y2 - y1) * stride;
  }

  /** One cell of the scan. */
  method ProcessCell(input: seq<real>, grid: Grid, classCount: nat, threshold: real, row: nat, column: nat,
                     out: Candidates, ghost before: seq<Candidate>) returns (added: nat)
    requires Fits(input, grid, classCount) && classCount > 0 && row < grid.height && column < grid.width
    requires out.Holds(before + CandidatesIn(Head(input, grid, classCount, threshold, row, column)))
    modifies out
    ensures out.Holds(before + CandidatesIn(Head(input, grid, classCount, threshold, row, column + 1)))
    ensures |Head(input, grid, classCount, threshold, row, column + 1)|
         == |Head(input, grid, classCount, threshold, row, column)| + added
  {
    RowInside(grid, row, column);
    var cell := row * grid.width + column;
    ghost var found := Head(input, grid, classCount, threshold, row, column);
    if Value(input, grid, classCount, 4, cell) < threshold {
      return 0;
    }
    var bestId, bestScore := PickClass(input, grid, classCount, cell);
    if bestScore < threshold {
      return 0;
    }
    var x, y, width, height := DecodeBox(input, grid, classCount, row, column);
    out.Push(x, y, width, height, bestScore, bestId, before + CandidatesIn(found));
    ghost var f := Found(Decoded(input, grid, classCount, row, column), row, column);
    CandidatesInAppend(found, f);
    assert before + CandidatesIn(found) + [f.candidate] == before + CandidatesIn(found + [f]);
    return 1;
  }

  method ProcessFloat(input: seq<real>, grid: Grid, out: Candidates, threshold: real, classCount: nat,
                      ghost before: seq<Candidate>) returns (validCount: nat)
    requires Fits(input, grid, classCount) && classCount > 0
    requires out.Holds(before)
    modifies out
    ensures out.Holds(before + CandidatesIn(WholeHead(input, grid, classCount, threshold)))
    ensures validCount == |WholeHead(input, grid, classCount, threshold)|
  {
    validCount := 0;
    assert before + CandidatesIn(Head(input, grid, classCount, threshold, 0, 0)) == before;
    for row := 0 to grid.height
      invariant out.Holds(before + CandidatesIn(Head(input, grid, classCount, threshold, row, 0)))
      invariant validCount == |Head(input, grid, classCount, threshold, row, 0)|
    {
      for column := 0 to grid.width
        invariant out.Holds(before + CandidatesIn(Head(input, grid, classCount, threshold, row, column)))
        invariant validCount == |Head(input, grid, classCount, threshold, row, column)|
      {
        var added := ProcessCell(input, grid, classCount, threshold, row, column, out, before);
        validCount := validCount + added;
      }
    }
  }
}
