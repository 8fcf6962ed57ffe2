/** From three output heads to the reported detections: decode, rank, suppress, cut at 100, clamp and scale. */
module Postprocess {
  import opened Prelude
  import opened BoxOverlap
  import opened CornerColumns
  import opened Decoding
  import opened Scaling
  import Suppression
  import RankSort

  const REPORT_LIMIT := 100

  datatype Config = Config(
    modelWidth: int,
    modelHeight: int,
    confidenceThreshold: real,
    nmsThreshold: real,
    labels: seq<string>)

  predicate ValidConfig(cfg: Config) {
    cfg.modelWidth > 0 && cfg.modelHeight > 0 && cfg.labels != []
  }

  datatype Det = Det(x1: nat, y1: nat, x2: nat, y2: nat, conf: real, clsName: string, clsId: nat)

  datatype Reply = Detections(dets: seq<Det>) | InvalidArgument

  // ---------------------------------------------------------------- corners

  function Clamp(value: real, minimum: int, maximum: int): (c: int)
    requires minimum <= maximum
    ensures minimum <= c <= maximum
    ensures minimum as real <= value <= maximum as real ==> c == Truncate(value)
    ensures value <= minimum as real ==> c == minimum
    ensures value >= maximum as real ==> c == maximum
  {
    Truncate(if value > minimum as real
             then (if value < maximum as real then value else maximum as real)
             else minimum as real)
  }

  function ScaledPixel(pixel: int, modelSize: int, sourceSize: int): (p: int)
    requires 0 <= pixel < modelSize && sourceSize > 0
    ensures 0 <= p < sourceSize
  {
    ScaledBounds(pixel, modelSize, sourceSize);
    TruncatedProduct(pixel as real, sourceSize as real / modelSize as real)
  }

  /** The clamped corner in source pixels, before it is stored in 16 bits. */
  function Scaled(value: real, modelSize: int, sourceSize: int): (p: int)
    requires modelSize > 0 && sourceSize > 0
    ensures 0 <= p < sourceSize
  {
    ScaledPixel(Clamp(value, 0, modelSize - 1), modelSize, sourceSize)
  }

  /** The reported corner: the scaled pixel modulo 2^16. */
  function Corner(value: real, modelSize: int, sourceSize: int): (p: int)
    requires modelSize > 0 && sourceSize > 0
    ensures 0 <= p < sourceSize && p < USHORT_VALUES
  {
    Scaled(value, modelSize, sourceSize) % USHORT_VALUES
  }

  lemma ScaledBounds(pixel: int, modelSize: int, sourceSize: int)
    requires 0 <= pixel < modelSize && sourceSize > 0
    ensures 0.0 <= pixel as real * (sourceSize as real / modelSize as real) < sourceSize as real
  {
    var p, m, s := pixel as real, modelSize as real, sourceSize as real;
    assert s / m > 0.0;
    assert p * (s / m) < m * (s / m);
    assert m * (s / m) == s;
  }

  lemma ClampMonotone(v: real, w: real, maximum: int)
    requires 0 <= maximum && v <= w
    ensures Clamp(v, 0, maximum) <= Clamp(w, 0, maximum)
  {
    var top := maximum as real;
    TruncateMonotone(if v > 0.0 then (if v < top then v else top) else 0.0,
                     if w > 0.0 then (if w < top then w else top) else 0.0);
  }

  lemma ScaledPixelMonotone(p: int, q: int, modelSize: int, sourceSize: int)
    requires 0 <= p <= q < modelSize && sourceSize > 0
    ensures ScaledPixel(p, modelSize, sourceSize) <= ScaledPixel(q, modelSize, sourceSize)
  {
    RatioPositive(sourceSize as real, modelSize as real);
    TruncatedProductMonotone(p as real, q as real, sourceSize as real / modelSize as real);
  }

  /**
   Sixteen bits hold every corner of an image exactly when the rightmost model column maps below 65536; the
   caller can compare the two sizes before the call.
   */
  lemma CornersExactIff(modelSize: int, sourceSize: int)
    requires modelSize > 0 && sourceSize > 0
    ensures (forall v: real :: Corner(v, modelSize, sourceSize) == Scaled(v, modelSize, sourceSize))
            <==> (modelSize - 1) * sourceSize < USHORT_VALUES * modelSize
  {
    LastColumn(modelSize, sourceSize);
    if ScaledPixel(modelSize - 1, modelSize, sourceSize) < USHORT_VALUES {
      forall v: real
        ensures Corner(v, modelSize, sourceSize) == Scaled(v, modelSize, sourceSize)
      {
        CornerFits(v, modelSize, sourceSize);
      }
    } else {
      LastCornerDoesNotFit(modelSize, sourceSize);
    }
  }

  lemma CornerFits(v: real, modelSize: int, sourceSize: int)
    requires modelSize > 0 && sourceSize > 0
    requires ScaledPixel(modelSize - 1, modelSize, sourceSize) < USHORT_VALUES
    ensures Corner(v, modelSize, sourceSize) == Scaled(v, modelSize, sourceSize)
  {
    ScaledPixelMonotone(Clamp(v, 0, modelSize - 1), modelSize - 1, modelSize, sourceSize);
  }

  lemma LastCornerDoesNotFit(modelSize: int, sourceSize: int)
    requires modelSize > 0 && sourceSize > 0
    requires ScaledPixel(modelSize - 1, modelSize, sourceSize) >= USHORT_VALUES
    ensures var v := (modelSize - 1) as real; Corner(v, modelSize, sourceSize) != Scaled(v, modelSize, sourceSize)
  {
    assert Clamp((modelSize - 1) as real, 0, modelSize - 1) == modelSize - 1;
  }

  lemma LastColumn(modelSize: int, sourceSize: int)
    requires modelSize > 0 && sourceSize > 0
    ensures ScaledPixel(modelSize - 1, modelSize, sourceSize) < USHORT_VALUES
            <==> (modelSize - 1) * sourceSize < USHORT_VALUES * modelSize
  {
    var n := (modelSize - 1) * sourceSize;
    ScaledPixelIsQuotient(modelSize - 1, modelSize, sourceSize);
    QuotientBelow(n, modelSize, USHORT_VALUES);
  }

  /** In whole numbers: a pixel is scaled by multiplying first and dividing afterwards. */
  lemma ScaledPixelIsQuotient(pixel: int, modelSize: int, sourceSize: int)
    requires 0 <= pixel < modelSize && sourceSize > 0
    ensures ScaledPixel(pixel, modelSize, sourceSize) == pixel * sourceSize / modelSize
  {
    ScaledIsQuotient(pixel, sourceSize, modelSize);
  }

  lemma CornerOfPixel(pixel: int, modelSize: int, sourceSize: int)
    requires 0 <= pixel < modelSize && sourceSize > 0
    ensures Clamp(pixel as real, 0, modelSize - 1) == pixel
    ensures Corner(pixel as real, modelSize, sourceSize) == Column(pixel, modelSize, sourceSize)
  {
    ScaledPixelIsQuotient(pixel, modelSize, sourceSize);
  }

  lemma CornerIsColumn(value: real, modelSize: int, sourceSize: int)
    requires modelSize > 0 && sourceSize > 0
    ensures Corner(value, modelSize, sourceSize) == Column(Clamp(value, 0, modelSize - 1), modelSize, sourceSize)
  {
    ScaledPixelIsQuotient(Clamp(value, 0, modelSize - 1), modelSize, sourceSize);
  }

  ghost predicate EdgesKeepOrder(modelSize: int, sourceSize: int)
    requires modelSize > 0 && sourceSize > 0
  {
    forall low: real, high: real :: low <= high ==>
      Corner(low, modelSize, sourceSize) <= Corner(high, modelSize, sourceSize)
  }

  /** Edges in order are reported in order, for all edges, exactly under the comparison of the two sizes. */
  lemma CornersOrderedIff(modelSize: int, sourceSize: int)
    requires modelSize > 0 && sourceSize > 0
    ensures EdgesKeepOrder(modelSize, sourceSize) <==> KeepsOrder(modelSize, sourceSize)
  {
    ColumnsOrderedIff(modelSize, sourceSize);
    if KeepsOrder(modelSize, sourceSize) {
      forall low: real, high: real | low <= high
        ensures Corner(low, modelSize, sourceSize) <= Corner(high, modelSize, sourceSize)
      {
        CornersOrdered(low, high, modelSize, sourceSize);
      }
    } else {
      var j, k :| 0 <= j <= k < modelSize && Column(j, modelSize, sourceSize) > Column(k, modelSize, sourceSize);
      CornerOfPixel(j, modelSize, sourceSize);
      CornerOfPixel(k, modelSize, sourceSize);
      assert Corner(j as real, modelSize, sourceSize) > Corner(k as real, modelSize, sourceSize);
    }
  }

  lemma CornersOrdered(low: real, high: real, modelSize: int, sourceSize: int)
    requires modelSize > 0 && sourceSize > 0 && low <= high && KeepsOrder(modelSize, sourceSize)
    ensures Corner(low, modelSize, sourceSize) <= Corner(high, modelSize, sourceSize)
  {
    ColumnsOrderedIff(modelSize, sourceSize);
    ClampMonotone(low, high, modelSize - 1);
    CornerIsColumn(low, modelSize, sourceSize);
    CornerIsColumn(high, modelSize, sourceSize);
  }

  /** Corners that 16 bits hold exactly keep their order, so the simpler comparison is enough for both. */
  lemma ExactCornersKeepOrder(modelSize: int, sourceSize: int)
    requires modelSize > 0 && sourceSize > 0 && (modelSize - 1) * sourceSize < USHORT_VALUES * modelSize
    ensures KeepsOrder(modelSize, sourceSize)
  {
    if modelSize > 1 {
      ProductsInOrder(1, modelSize - 1, sourceSize);
      RemainderIs(sourceSize, USHORT_VALUES * modelSize, 0, sourceSize);
    }
  }

  /** An illustration: columns 1 and 2 of 4, on a source 262140 wide, come out as 65535 and 65534. */
  lemma WideSourceSwapsCorners()
    ensures Corner(1.0, 4, 262140) == 65535 && Corner(2.0, 4, 262140) == 65534
  {
    assert Clamp(1.0, 0, 3) == 1 && Clamp(2.0, 0, 3) == 2;
    assert 262140 as real / 4 as real == 65535.0;
  }

  // ---------------------------------------------------------------- ranking and selection

  ghost predicate IsRanking(cs: seq<Candidate>, rank: seq<int>) {
    && |rank| == |cs|
    && (forall k :: 0 <= k < |rank| ==> 0 <= rank[k] < |cs|)
    && (forall i, j :: 0 <= i < j < |rank| ==> rank[i] != rank[j])
    && (forall c :: 0 <= c < |cs| ==> c in rank)
    && (forall i, j :: 0 <= i < j < |rank| ==> cs[rank[i]].score >= cs[rank[j]].score)
  }

  ghost function BoxOf(c: Candidate): Corners {
    Corners(c.x, c.y, c.x + c.width, c.y + c.height)
  }

  /** The greedy selection, said on candidates: rank `k` is taken when it overlaps nothing taken before it. */
  ghost predicate Taken(cs: seq<Candidate>, threshold: real, rank: seq<int>, k: nat)
    requires IsRanking(cs, rank) && k < |rank|
  {
    forall j: nat :: j < k && Taken(cs, threshold, rank, j) ==>
      Overlap(BoxOf(cs[rank[j]]), BoxOf(cs[rank[k]])) <= threshold
  }

  /** The ranks among the first `n` that carry a flag, in order. */
  ghost function Picked(flags: seq<bool>, n: nat): seq<nat>
    requires n <= |flags|
  {
    if n == 0 then []
    else if flags[n - 1] then Picked(flags, n - 1) + [n - 1]
    else Picked(flags, n - 1)
  }

  lemma {:induction false} PickedExact(flags: seq<bool>, n: nat)
    requires n <= |flags|
    ensures forall k: nat :: k in Picked(flags, n) <==> k < n && flags[k]
    ensures forall i, j :: 0 <= i < j < |Picked(flags, n)| ==> Picked(flags, n)[i] < Picked(flags, n)[j]
  {
    if n > 0 {
      PickedExact(flags, n - 1);
      LargerLast(Picked(flags, n - 1), n - 1);
    }
  }

  ghost function TakenFlags(cs: seq<Candidate>, threshold: real, rank: seq<int>): (flags: seq<bool>)
    requires IsRanking(cs, rank)
    ensures |flags| == |rank| && forall k: nat :: k < |rank| ==> flags[k] == Taken(cs, threshold, rank, k)
  {
    seq(|rank|, k requires 0 <= k < |rank| && IsRanking(cs, rank) => Taken(cs, threshold, rank, k))
  }

  ghost function TakenRanks(cs: seq<Candidate>, threshold: real, rank: seq<int>, n: nat): seq<nat>
    requires IsRanking(cs, rank) && n <= |rank|
  {
    Picked(TakenFlags(cs, threshold, rank), n)
  }

  lemma TakenRanksExact(cs: seq<Candidate>, threshold: real, rank: seq<int>, n: nat)
    requires IsRanking(cs, rank) && n <= |rank|
    ensures var t := TakenRanks(cs, threshold, rank, n);
            && (forall k: nat :: k in t <==> k < n && Taken(cs, threshold, rank, k))
            && (forall i, j :: 0 <= i < j < |t| ==> t[i] < t[j])
  {
    PickedExact(TakenFlags(cs, threshold, rank), n);
  }

  lemma LargerLast(t: seq<nat>, n: nat)
    requires forall i, j :: 0 <= i < j < |t| ==> t[i] < t[j]
    requires forall k: nat :: k in t ==> k < n
    ensures forall i, j :: 0 <= i < j < |t + [n]| ==> (t + [n])[i] < (t + [n])[j]
    ensures forall k: nat :: k in t + [n] <==> k in t || k == n
  {
    forall i | 0 <= i < |t|
      ensures t[i] < n
    {
      assert t[i] in t;
    }
  }

  ghost function ReportOf(cfg: Config, sourceWidth: int, sourceHeight: int, c: Candidate): Det
    requires ValidConfig(cfg) && sourceWidth > 0 && sourceHeight > 0 && c.classId < |cfg.labels|
  {
    Det(Corner(c.x, cfg.modelWidth, sourceWidth), Corner(c.y, cfg.modelHeight, sourceHeight),
        Corner(c.x + c.width, cfg.modelWidth, sourceWidth), Corner(c.y + c.height, cfg.modelHeight, sourceHeight),
        c.score, cfg.labels[c.classId], c.classId % USHORT_VALUES)
  }

  /** The reported detections are those of the taken ranks among the first `n`, in rank order. */
  ghost predicate Reports(cfg: Config, sourceWidth: int, sourceHeight: int,
                          cs: seq<Candidate>, rank: seq<int>, n: nat, dets: seq<Det>)
    requires ValidConfig(cfg) && sourceWidth > 0 && sourceHeight > 0
    requires IsRanking(cs, rank) && n <= |rank| && Labelled(cfg, cs)
  {
    var t := TakenRanks(cs, cfg.nmsThreshold, rank, n);
    TakenRanksExact(cs, cfg.nmsThreshold, rank, n);
    && |dets| == |t|
    && (forall i :: 0 <= i < |t| ==> t[i] in t && dets[i] == ReportOf(cfg, sourceWidth, sourceHeight, cs[rank[t[i]]]))
  }

  ghost predicate Labelled(cfg: Config, cs: seq<Candidate>) {
    forall k :: 0 <= k < |cs| ==> cs[k].classId < |cfg.labels| && cs[k].score >= cfg.confidenceThreshold
  }

  function Cut(n: nat): nat {
    if n < REPORT_LIMIT then n else REPORT_LIMIT
  }

  lemma TakenKeepApart(cs: seq<Candidate>, threshold: real, rank: seq<int>, n: nat)
    requires IsRanking(cs, rank) && n <= |rank|
    ensures var t := TakenRanks(cs, threshold, rank, n);
            forall i, j :: 0 <= i < j < |t| ==>
              t[i] < t[j] < |rank| && Overlap(BoxOf(cs[rank[t[i]]]), BoxOf(cs[rank[t[j]]])) <= threshold
  {
    var t := TakenRanks(cs, threshold, rank, n);
    TakenRanksExact(cs, threshold, rank, n);
    forall i, j | 0 <= i < j < |t|
      ensures t[i] < t[j] < |rank| && Overlap(BoxOf(cs[rank[t[i]]]), BoxOf(cs[rank[t[j]]])) <= threshold
    {
      assert t[i] in t && t[j] in t;
      assert t[i] < t[j] < n;
      assert Taken(cs, threshold, rank, t[i]) && Taken(cs, threshold, rank, t[j]);
    }
  }

  /**
   What a reported list promises: at most 100 detections of nonincreasing confidence, none below the
   threshold, every corner inside the source image, and no two taken boxes overlapping above the threshold.
   */
  lemma ReportedFacts(cfg: Config, sourceWidth: int, sourceHeight: int, cs: seq<Candidate>, rank: seq<int>, dets: seq<Det>)
    requires ValidConfig(cfg) && sourceWidth > 0 && sourceHeight > 0 && IsRanking(cs, rank) && Labelled(cfg, cs)
    requires Reports(cfg, sourceWidth, sourceHeight, cs, rank, Cut(|rank|), dets)
    ensures |dets| <= REPORT_LIMIT
    ensures forall i, j :: 0 <= i < j < |dets| ==> dets[i].conf >= dets[j].conf
    ensures forall i :: 0 <= i < |dets| ==>
              && dets[i].conf >= cfg.confidenceThreshold
              && dets[i].x1 < sourceWidth && dets[i].x2 < sourceWidth
              && dets[i].y1 < sourceHeight && dets[i].y2 < sourceHeight
    ensures var t := TakenRanks(cs, cfg.nmsThreshold, rank, Cut(|rank|));
            forall i, j :: 0 <= i < j < |t| ==>
              t[i] < t[j] < |rank| && Overlap(BoxOf(cs[rank[t[i]]]), BoxOf(cs[rank[t[j]]])) <= cfg.nmsThreshold
  {
    TakenRanksExact(cs, cfg.nmsThreshold, rank, Cut(|rank|));
    IncreasingIsShort(TakenRanks(cs, cfg.nmsThreshold, rank, Cut(|rank|)), Cut(|rank|));
    TakenKeepApart(cs, cfg.nmsThreshold, rank, Cut(|rank|));
  }

  lemma {:induction false} IncreasingIsShort(t: seq<nat>, n: nat)
    requires forall i, j :: 0 <= i < j < |t| ==> t[i] < t[j]
    requires forall k :: k in t ==> k < n
    ensures |t| <= n
  {
    if t != [] {
      var last := t[|t| - 1];
      assert last in t;
      IncreasingIsShort(t[..|t| - 1], last);
    }
  }

  /** A rank left out has a taken rank before it, of at least its score, that overlaps it above the threshold. */
  lemma SuppressorScoresHigher(cs: seq<Candidate>, threshold: real, rank: seq<int>, k: nat) returns (j: nat)
    requires IsRanking(cs, rank) && k < |rank| && !Taken(cs, threshold, rank, k)
    ensures j < k && Taken(cs, threshold, rank, j) && cs[rank[j]].score >= cs[rank[k]].score
    ensures Overlap(BoxOf(cs[rank[j]]), BoxOf(cs[rank[k]])) > threshold
  {
    j :| j < k && Taken(cs, threshold, rank, j) && Overlap(BoxOf(cs[rank[j]]), BoxOf(cs[rank[k]])) > threshold;
  }

  // ---------------------------------------------------------------- the stages on the flat vectors

  /** The boxes vector holds the four box values of each candidate in turn. */
  ghost predicate FlatBoxes(locations: seq<real>, cs: seq<Candidate>) {
    && |locations| == 4 * |cs|
    && (forall k :: 0 <= k < |cs| ==>
          && locations[4 * k] == cs[k].x && locations[4 * k + 1] == cs[k].y
          && locations[4 * k + 2] == cs[k].width && locations[4 * k + 3] == cs[k].height)
  }

  lemma FlatBox(locations: seq<real>, cs: seq<Candidate>, k: int)
    requires FlatBoxes(locations, cs) && 0 <= k < |cs|
    ensures Suppression.Holds(locations, k) && Suppression.BoxAt(locations, k) == BoxOf(cs[k])
  {
  }

  lemma RankingIsValidOrder(locations: seq<real>, cs: seq<Candidate>, rank: seq<int>)
    requires FlatBoxes(locations, cs) && IsRanking(cs, rank)
    ensures Suppression.ValidOrder(locations, rank)
  {
  }

  /** Suppression on the flat vector takes exactly the greedy selection. */
  lemma {:induction false} SurvivesIsTaken(locations: seq<real>, cs: seq<Candidate>, threshold: real, rank: seq<int>, k: nat)
    requires FlatBoxes(locations, cs) && IsRanking(cs, rank) && k < |rank|
    requires Suppression.ValidOrder(locations, rank)
    ensures Suppression.Survives(locations, threshold, rank, k) <==> Taken(cs, threshold, rank, k)
    decreases k
  {
    FlatBox(locations, cs, rank[k]);
    forall j: nat | j < k
      ensures Suppression.Survives(locations, threshold, rank, j) <==> Taken(cs, threshold, rank, j)
      ensures Suppression.Clash(locations, threshold, rank[j], rank[k])
              <==> Overlap(BoxOf(cs[rank[j]]), BoxOf(cs[rank[k]])) > threshold
    {
      SurvivesIsTaken(locations, cs, threshold, rank, j);
      FlatBox(locations, cs, rank[j]);
    }
  }

  lemma AllSurviveIffTaken(locations: seq<real>, cs: seq<Candidate>, threshold: real, rank: seq<int>)
    requires FlatBoxes(locations, cs) && IsRanking(cs, rank) && Suppression.ValidOrder(locations, rank)
    ensures forall k: nat :: k < |rank| ==>
              (Suppression.Survives(locations, threshold, rank, k) <==> Taken(cs, threshold, rank, k))
  {
    forall k: nat | k < |rank|
      ensures Suppression.Survives(locations, threshold, rank, k) <==> Taken(cs, threshold, rank, k)
    {
      SurvivesIsTaken(locations, cs, threshold, rank, k);
    }
  }

  ghost function HeadCandidates(cfg: Config, head: seq<real>, stride: nat): seq<Candidate>
    requires ValidConfig(cfg) && stride > 0 && Fits(head, HeadGrid(cfg, stride), |cfg.labels|)
  {
    CandidatesIn(WholeHead(head, HeadGrid(cfg, stride), |cfg.labels|, cfg.confidenceThreshold))
  }

  function HeadGrid(cfg: Config, stride: nat): Grid
    requires ValidConfig(cfg) && stride > 0
  {
    Grid(cfg.modelHeight / stride, cfg.modelWidth / stride, stride)
  }

  predicate AllPresent(heads: seq<Option<seq<real>>>)
    requires |heads| == 3
  {
    heads[0].Some? && heads[1].Some? && heads[2].Some?
  }

  ghost predicate HeadsFit(cfg: Config, heads: seq<seq<real>>) {
    && ValidConfig(cfg) && |heads| == 3
    && Fits(heads[0], HeadGrid(cfg, 8), |cfg.labels|)
    && Fits(heads[1], HeadGrid(cfg, 16), |cfg.labels|)
    && Fits(heads[2], HeadGrid(cfg, 32), |cfg.labels|)
  }

  /** The candidates of the three heads, strides 8, 16 and 32 in turn. */
  ghost function AllCandidates(cfg: Config, heads: seq<seq<real>>): seq<Candidate>
    requires HeadsFit(cfg, heads)
  {
    HeadCandidates(cfg, heads[0], 8) + HeadCandidates(cfg, heads[1], 16) + HeadCandidates(cfg, heads[2], 32)
  }

  function Stride(h: nat): nat {
    if h == 0 then 8 else if h == 1 then 16 else 32
  }

  lemma HeadCandidatesHaveCells(cfg: Config, head: seq<real>, stride: nat)
    requires ValidConfig(cfg) && stride > 0 && Fits(head, HeadGrid(cfg, stride), |cfg.labels|)
    ensures var found := WholeHead(head, HeadGrid(cfg, stride), |cfg.labels|, cfg.confidenceThreshold);
            && |HeadCandidates(cfg, head, stride)| == |found|
            && forall k :: 0 <= k < |found| ==>
                 && HeadCandidates(cfg, head, stride)[k] == found[k].candidate
                 && IsFound(head, HeadGrid(cfg, stride), |cfg.labels|, cfg.confidenceThreshold, found[k])
  {
    var found := WholeHead(head, HeadGrid(cfg, stride), |cfg.labels|, cfg.confidenceThreshold);
    forall k | 0 <= k < |found|
      ensures IsFound(head, HeadGrid(cfg, stride), |cfg.labels|, cfg.confidenceThreshold, found[k])
    {
      HeadIsExact(head, HeadGrid(cfg, stride), |cfg.labels|, cfg.confidenceThreshold, found[k]);
    }
  }

  lemma HeadIsLabelled(cfg: Config, head: seq<real>, stride: nat)
    requires ValidConfig(cfg) && stride > 0 && Fits(head, HeadGrid(cfg, stride), |cfg.labels|)
    ensures Labelled(cfg, HeadCandidates(cfg, head, stride))
  {
    HeadCandidatesHaveCells(cfg, head, stride);
  }

  lemma LabelledTogether(cfg: Config, cs: seq<Candidate>, more: seq<Candidate>)
    requires Labelled(cfg, cs) && Labelled(cfg, more)
    ensures Labelled(cfg, cs + more)
  {
  }

  lemma CandidatesAreLabelled(cfg: Config, heads: seq<seq<real>>)
    requires HeadsFit(cfg, heads)
    ensures Labelled(cfg, AllCandidates(cfg, heads))
  {
    HeadIsLabelled(cfg, heads[0], 8);
    HeadIsLabelled(cfg, heads[1], 16);
    HeadIsLabelled(cfg, heads[2], 32);
    LabelledTogether(cfg, HeadCandidates(cfg, heads[0], 8), HeadCandidates(cfg, heads[1], 16));
    LabelledTogether(cfg, HeadCandidates(cfg, heads[0], 8) + HeadCandidates(cfg, heads[1], 16),
                     HeadCandidates(cfg, heads[2], 32));
  }

  // ---------------------------------------------------------------- from a detection back to its cell

  /** Head `h` holds this candidate in its cell, which passes both thresholds. */
  ghost predicate IsIn(cfg: Config, heads: seq<seq<real>>, h: nat, f: Found)
    requires HeadsFit(cfg, heads)
  {
    && h < 3
    && var grid := Grid(cfg.modelHeight / Stride(h), cfg.modelWidth / Stride(h), Stride(h));
       IsFound(heads[h], grid, |cfg.labels|, cfg.confidenceThreshold, f)
  }

  lemma CandidateOfHead(cfg: Config, heads: seq<seq<real>>, h: nat, k: nat) returns (f: Found)
    requires HeadsFit(cfg, heads) && h < 3 && k < |HeadCandidates(cfg, heads[h], Stride(h))|
    ensures IsIn(cfg, heads, h, f) && f.candidate == HeadCandidates(cfg, heads[h], Stride(h))[k]
  {
    HeadCandidatesHaveCells(cfg, heads[h], Stride(h));
    f := WholeHead(heads[h], HeadGrid(cfg, Stride(h)), |cfg.labels|, cfg.confidenceThreshold)[k];
  }

  lemma CandidateHasCell(cfg: Config, heads: seq<seq<real>>, k: nat) returns (h: nat, f: Found)
    requires HeadsFit(cfg, heads) && k < |AllCandidates(cfg, heads)|
    ensures IsIn(cfg, heads, h, f) && f.candidate == AllCandidates(cfg, heads)[k]
  {
    var first, second := |HeadCandidates(cfg, heads[0], 8)|, |HeadCandidates(cfg, heads[1], 16)|;
    if k < first {
      h := 0;
      f := CandidateOfHead(cfg, heads, 0, k);
    } else if k < first + second {
      h := 1;
      f := CandidateOfHead(cfg, heads, 1, k - first);
    } else {
      h := 2;
      f := CandidateOfHead(cfg, heads, 2, k - first - second);
    }
  }

  lemma ElementOfJoin<T>(a: seq<T>, b: seq<T>, c: seq<T>, x: T)
    requires x in a || x in b || x in c
    ensures x in a + b + c
  {
  }

  /** Every cell of a head that passes both thresholds is among the candidates that are ranked. */
  lemma EveryCellIsACandidate(cfg: Config, heads: seq<seq<real>>, h: nat, f: Found)
    requires HeadsFit(cfg, heads) && IsIn(cfg, heads, h, f)
    ensures f.candidate in AllCandidates(cfg, heads)
  {
    HeadIsExact(heads[h], HeadGrid(cfg, Stride(h)), |cfg.labels|, cfg.confidenceThreshold, f);
    var found := WholeHead(heads[h], HeadGrid(cfg, Stride(h)), |cfg.labels|, cfg.confidenceThreshold);
    var k :| 0 <= k < |found| && found[k] == f;
    assert CandidatesIn(found)[k] == f.candidate;
    ElementOfJoin(HeadCandidates(cfg, heads[0], 8), HeadCandidates(cfg, heads[1], 16), HeadCandidates(cfg, heads[2], 32),
                  f.candidate);
  }

  /**
   The detection reports one cell of one head: its corners are the edges of that cell's box in source pixels, in
   order if the edges are spread, and its confidence, label and number are those of the cell's class.
   */
  ghost predicate ReportsCell(cfg: Config, heads: seq<seq<real>>, sourceWidth: int, sourceHeight: int, det: Det,
                              h: nat, f: Found)
    requires HeadsFit(cfg, heads) && sourceWidth > 0 && sourceHeight > 0
  {
    && IsIn(cfg, heads, h, f)
    && var grid := Grid(cfg.modelHeight / Stride(h), cfg.modelWidth / Stride(h), Stride(h));
       && det.x1 == Corner(Left(heads[h], grid, f), cfg.modelWidth, sourceWidth)
       && det.y1 == Corner(Top(heads[h], grid, f), cfg.modelHeight, sourceHeight)
       && det.x2 == Corner(Right(heads[h], grid, f), cfg.modelWidth, sourceWidth)
       && det.y2 == Corner(Bottom(heads[h], grid, f), cfg.modelHeight, sourceHeight)
       && det.conf == f.candidate.score
       && det.clsName == cfg.labels[f.candidate.classId] && det.clsId == f.candidate.classId % USHORT_VALUES
       && (EdgesSpread(heads[h], grid, f) && KeepsOrder(cfg.modelWidth, sourceWidth)
           && KeepsOrder(cfg.modelHeight, sourceHeight) ==>
             det.x1 <= det.x2 && det.y1 <= det.y2)
  }

  lemma CellReportInOrder(cfg: Config, heads: seq<seq<real>>, sourceWidth: int, sourceHeight: int, h: nat, f: Found)
    requires HeadsFit(cfg, heads) && sourceWidth > 0 && sourceHeight > 0 && IsIn(cfg, heads, h, f)
    ensures ReportsCell(cfg, heads, sourceWidth, sourceHeight, ReportOf(cfg, sourceWidth, sourceHeight, f.candidate), h, f)
  {
    var grid := HeadGrid(cfg, Stride(h));
    if EdgesSpread(heads[h], grid, f)
       && KeepsOrder(cfg.modelWidth, sourceWidth) && KeepsOrder(cfg.modelHeight, sourceHeight) {
      SpreadEdgesInOrder(heads[h], grid, f);
      CornersOrdered(Left(heads[h], grid, f), Right(heads[h], grid, f), cfg.modelWidth, sourceWidth);
      CornersOrdered(Top(heads[h], grid, f), Bottom(heads[h], grid, f), cfg.modelHeight, sourceHeight);
    }
  }

  ghost predicate HasCell(cfg: Config, heads: seq<seq<real>>, sourceWidth: int, sourceHeight: int, det: Det)
    requires HeadsFit(cfg, heads) && sourceWidth > 0 && sourceHeight > 0
  {
    exists h: nat, f :: ReportsCell(cfg, heads, sourceWidth, sourceHeight, det, h, f)
  }

  lemma CandidateReportHasCell(cfg: Config, heads: seq<seq<real>>, sourceWidth: int, sourceHeight: int, k: nat)
    requires HeadsFit(cfg, heads) && sourceWidth > 0 && sourceHeight > 0 && k < |AllCandidates(cfg, heads)|
    requires Labelled(cfg, AllCandidates(cfg, heads))
    ensures HasCell(cfg, heads, sourceWidth, sourceHeight,
                    ReportOf(cfg, sourceWidth, sourceHeight, AllCandidates(cfg, heads)[k]))
  {
    var h, f := CandidateHasCell(cfg, heads, k);
    CellReportInOrder(cfg, heads, sourceWidth, sourceHeight, h, f);
  }

  lemma ReportedCandidate(cfg: Config, sourceWidth: int, sourceHeight: int, cs: seq<Candidate>, rank: seq<int>, n: nat,
                          dets: seq<Det>, i: nat) returns (k: nat)
    requires ValidConfig(cfg) && sourceWidth > 0 && sourceHeight > 0
    requires IsRanking(cs, rank) && n <= |rank| && Labelled(cfg, cs)
    requires Reports(cfg, sourceWidth, sourceHeight, cs, rank, n, dets) && i < |dets|
    ensures k < |cs| && dets[i] == ReportOf(cfg, sourceWidth, sourceHeight, cs[k])
  {
    var t := TakenRanks(cs, cfg.nmsThreshold, rank, n);
    TakenRanksExact(cs, cfg.nmsThreshold, rank, n);
    assert t[i] in t;
    k := rank[t[i]];
  }

  /** Every reported detection leads back to a cell that passes both thresholds, and is in order if its edges are. */
  lemma ReportedEdgesInOrder(cfg: Config, heads: seq<seq<real>>, sourceWidth: int, sourceHeight: int,
                             cs: seq<Candidate>, rank: seq<int>, n: nat, dets: seq<Det>)
    requires HeadsFit(cfg, heads) && sourceWidth > 0 && sourceHeight > 0 && cs == AllCandidates(cfg, heads)
    requires IsRanking(cs, rank) && n <= |rank| && Labelled(cfg, cs)
    requires Reports(cfg, sourceWidth, sourceHeight, cs, rank, n, dets)
    ensures forall i :: 0 <= i < |dets| ==> HasCell(cfg, heads, sourceWidth, sourceHeight, dets[i])
  {
    forall i | 0 <= i < |dets|
      ensures HasCell(cfg, heads, sourceWidth, sourceHeight, dets[i])
    {
      var k := ReportedCandidate(cfg, sourceWidth, sourceHeight, cs, rank, n, dets, i);
      CandidateReportHasCell(cfg, heads, sourceWidth, sourceHeight, k);
    }
  }

  /** A sorted list of entries that name every candidate once is a ranking. */
  lemma RankingFromEntries(cs: seq<Candidate>, scores0: seq<real>, scores: seq<real>, order: seq<int>)
    requires |scores0| == |scores| == |order| == |cs|
    requires forall k :: 0 <= k < |cs| ==> scores0[k] == cs[k].score
    requires forall k :: 0 <= k < |order| ==> 0 <= order[k] < |order| && scores[k] == scores0[order[k]]
    requires forall i, j :: 0 <= i < j < |order| ==> order[i] != order[j]
    requires forall c :: 0 <= c < |order| ==> c in order
    requires RankSort.Descending(RankSort.Entries(scores, order), 0, |order| - 1)
    ensures IsRanking(cs, order)
  {
    var es := RankSort.Entries(scores, order);
    forall i, j | 0 <= i < j < |order|
      ensures cs[order[i]].score >= cs[order[j]].score
    {
      assert es[i].0 >= es[j].0;
    }
  }

  lemma RankLeftOut(cfg: Config, sourceWidth: int, sourceHeight: int, cs: seq<Candidate>, rank: seq<int>, n: nat,
                    dets: seq<Det>)
    requires ValidConfig(cfg) && sourceWidth > 0 && sourceHeight > 0
    requires IsRanking(cs, rank) && n < |rank| && Labelled(cfg, cs)
    requires Reports(cfg, sourceWidth, sourceHeight, cs, rank, n, dets) && !Taken(cs, cfg.nmsThreshold, rank, n)
    ensures Reports(cfg, sourceWidth, sourceHeight, cs, rank, n + 1, dets)
  {
  }

  lemma RankReported(cfg: Config, sourceWidth: int, sourceHeight: int, cs: seq<Candidate>, rank: seq<int>, n: nat,
                     dets: seq<Det>)
    requires ValidConfig(cfg) && sourceWidth > 0 && sourceHeight > 0
    requires IsRanking(cs, rank) && n < |rank| && Labelled(cfg, cs)
    requires Reports(cfg, sourceWidth, sourceHeight, cs, rank, n, dets) && Taken(cs, cfg.nmsThreshold, rank, n)
    ensures Reports(cfg, sourceWidth, sourceHeight, cs, rank, n + 1,
                    dets + [ReportOf(cfg, sourceWidth, sourceHeight, cs[rank[n]])])
  {
    var t := TakenRanks(cs, cfg.nmsThreshold, rank, n);
    assert TakenRanks(cs, cfg.nmsThreshold, rank, n + 1) == t + [n];
    assert forall i :: 0 <= i < |t| ==> (t + [n])[i] == t[i];
  }

  lemma NothingToReport(cfg: Config, sourceWidth: int, sourceHeight: int, cs: seq<Candidate>)
    requires ValidConfig(cfg) && sourceWidth > 0 && sourceHeight > 0 && cs == []
    ensures Labelled(cfg, cs) && IsRanking(cs, []) && Reports(cfg, sourceWidth, sourceHeight, cs, [], Cut(|cs|), [])
  {
  }

  class YoloV6Postprocessor {
    const cfg: Config

    constructor (cfg: Config)
      requires ValidConfig(cfg)
      ensures this.cfg == cfg
    {
      this.cfg := cfg;
    }

    /** The constructor's own checks, with its exception as `None`. */
    static method Create(cfg: Config) returns (p: Option<YoloV6Postprocessor>)
      ensures p.Some? <==> ValidConfig(cfg)
      ensures p.Some? ==> p.value.cfg == cfg
    {
      if cfg.modelWidth <= 0 || cfg.modelHeight <= 0 || cfg.labels == [] {
        return None;
      }
      var created := new YoloV6Postprocessor(cfg);
      return Some(created);
    }

    method Decode(heads: seq<seq<real>>) returns (out: Candidates, validCount: nat)
      requires HeadsFit(cfg, heads)
      ensures fresh(out) && out.Holds(AllCandidates(cfg, heads)) && validCount == |AllCandidates(cfg, heads)|
    {
      out := new Candidates();
      var first := ProcessFloat(heads[0], HeadGrid(cfg, 8), out, cfg.confidenceThreshold, |cfg.labels|, []);
      ghost var one := HeadCandidates(cfg, heads[0], 8);
      assert [] + one == one;
      var second := ProcessFloat(heads[1], HeadGrid(cfg, 16), out, cfg.confidenceThreshold, |cfg.labels|, one);
      ghost var two := one + HeadCandidates(cfg, heads[1], 16);
      var third := ProcessFloat(heads[2], HeadGrid(cfg, 32), out, cfg.confidenceThreshold, |cfg.labels|, two);
      validCount := first + second + third;
    }

    method Rank(out: Candidates, ghost cs: seq<Candidate>) returns (scores: array<real>, order: array<int>)
      requires out.Holds(cs)
      ensures fresh(scores) && fresh(order) && scores.Length == order.Length == |cs|
      ensures IsRanking(cs, order[..])
      ensures forall k :: 0 <= k < |cs| ==> scores[k] == cs[order[k]].score
    {
      var n := |out.scores|;
      scores := new real[n](k requires 0 <= k < n reads out => if k < |out.scores| then out.scores[k] else 0.0);
      order := new int[n](k => k);
      ghost var scores0, order0 := scores[..], order[..];
      RankSort.QuickSortIndiceInverse(scores, 0, n - 1, order);
      RankSort.RankingNamesCandidates(scores0, order0, scores[..], order[..]);
      RankingFromEntries(cs, scores0, scores[..], order[..]);
    }

    method Report(sourceWidth: int, sourceHeight: int, out: Candidates, scores: array<real>, order: array<int>,
                  ghost cs: seq<Candidate>, ghost rank: seq<int>) returns (dets: seq<Det>)
      requires ValidConfig(cfg) && sourceWidth > 0 && sourceHeight > 0
      requires out.Holds(cs) && Labelled(cfg, cs) && IsRanking(cs, rank)
      requires scores.Length == order.Length == |cs|
      requires forall k :: 0 <= k < |cs| ==> scores[k] == cs[rank[k]].score
      requires forall k: nat :: k < |cs| ==>
                 order[k] == if Taken(cs, cfg.nmsThreshold, rank, k) then rank[k] else Suppression.SUPPRESSED
      ensures Reports(cfg, sourceWidth, sourceHeight, cs, rank, Cut(|cs|), dets)
    {
      dets := [];
      for index := 0 to Cut(order.Length)
        invariant Reports(cfg, sourceWidth, sourceHeight, cs, rank, index, dets)
      {
        var boxIndex := order[index];
        if boxIndex == Suppression.SUPPRESSED || scores[index] < cfg.confidenceThreshold {
          assert cs[rank[index]].score >= cfg.confidenceThreshold;
          RankLeftOut(cfg, sourceWidth, sourceHeight, cs, rank, index, dets);
          continue;
        }
        var det := Describe(sourceWidth, sourceHeight, out, boxIndex, scores[index], cs);
        RankReported(cfg, sourceWidth, sourceHeight, cs, rank, index, dets);
        dets := dets + [det];
      }
    }

    method Describe(sourceWidth: int, sourceHeight: int, out: Candidates, boxIndex: int, score: real,
                    ghost cs: seq<Candidate>) returns (det: Det)
      requires ValidConfig(cfg) && sourceWidth > 0 && sourceHeight > 0
      requires out.Holds(cs) && Labelled(cfg, cs) && 0 <= boxIndex < |cs| && score == cs[boxIndex].score
      ensures det == ReportOf(cfg, sourceWidth, sourceHeight, cs[boxIndex])
    {
      var x1, y1 := out.boxes[boxIndex * 4], out.boxes[boxIndex * 4 + 1];
      var x2, y2 := x1 + out.boxes[boxIndex * 4 + 2], y1 + out.boxes[boxIndex * 4 + 3];
      var classId := out.classIds[boxIndex];
      det := Det(Corner(x1, cfg.modelWidth, sourceWidth), Corner(y1, cfg.modelHeight, sourceHeight),
                 Corner(x2, cfg.modelWidth, sourceWidth), Corner(y2, cfg.modelHeight, sourceHeight),
                 score, cfg.labels[classId], classId % USHORT_VALUES);
    }

    /**
     The detections are the greedy selection among the 100 best ranked candidates of the three heads, for a
     ranking of all candidates by score, and each leads back to its cell. A missing head or an empty source image
     is refused.
     */
    method Process(heads: seq<Option<seq<real>>>, sourceWidth: int, sourceHeight: int)
      returns (reply: Reply, ghost rank: seq<int>)
      requires ValidConfig(cfg) && |heads| == 3
      requires AllPresent(heads) ==> HeadsFit(cfg, [heads[0].value, heads[1].value, heads[2].value])
      ensures reply.Detections? <==> sourceWidth > 0 && sourceHeight > 0 && AllPresent(heads)
      ensures reply.Detections? ==>
                var buffers := [heads[0].value, heads[1].value, heads[2].value];
                var cs := AllCandidates(cfg, buffers);
                && Labelled(cfg, cs) && IsRanking(cs, rank)
                && Reports(cfg, sourceWidth, sourceHeight, cs, rank, if |cs| < 100 then |cs| else 100, reply.dets)
                && forall i :: 0 <= i < |reply.dets| ==> HasCell(cfg, buffers, sourceWidth, sourceHeight, reply.dets[i])
    {
      rank := [];
      if sourceWidth <= 0 || sourceHeight <= 0 {
        return InvalidArgument, rank;
      }
      if heads[0].None? || heads[1].None? || heads[2].None? {
        return InvalidArgument, rank;
      }
      var dets;
      dets, rank := Detect([heads[0].value, heads[1].value, heads[2].value], sourceWidth, sourceHeight);
      reply := Detections(dets);
    }

    method Detect(heads: seq<seq<real>>, sourceWidth: int, sourceHeight: int)
      returns (dets: seq<Det>, ghost rank: seq<int>)
      requires HeadsFit(cfg, heads) && sourceWidth > 0 && sourceHeight > 0
      ensures var cs := AllCandidates(cfg, heads);
              && Labelled(cfg, cs) && IsRanking(cs, rank)
              && Reports(cfg, sourceWidth, sourceHeight, cs, rank, Cut(|cs|), dets)
              && forall i :: 0 <= i < |dets| ==> HasCell(cfg, heads, sourceWidth, sourceHeight, dets[i])
    {
      ghost var cs := AllCandidates(cfg, heads);
      CandidatesAreLabelled(cfg, heads);
      var out, validCount := Decode(heads);
      if validCount == 0 {
        NothingToReport(cfg, sourceWidth, sourceHeight, cs);
        return [], [];
      }
      dets, rank := Select(sourceWidth, sourceHeight, out, validCount, cs);
      ReportedEdgesInOrder(cfg, heads, sourceWidth, sourceHeight, cs, rank, Cut(|cs|), dets);
    }

    /** Ranking, suppression and report, one after the other on the same two arrays. */
    method Select(sourceWidth: int, sourceHeight: int, out: Candidates, validCount: nat, ghost cs: seq<Candidate>)
      returns (dets: seq<Det>, ghost rank: seq<int>)
      requires ValidConfig(cfg) && sourceWidth > 0 && sourceHeight > 0
      requires out.Holds(cs) && Labelled(cfg, cs) && validCount == |cs|
      ensures IsRanking(cs, rank) && Reports(cfg, sourceWidth, sourceHeight, cs, rank, Cut(|cs|), dets)
    {
      var scores, order := Rank(out, cs);
      rank := order[..];
      RankingIsValidOrder(out.boxes, cs, rank);
      assert order[..validCount] == rank;
      Suppression.Nms(validCount, out.boxes, order, cfg.nmsThreshold);
      AllSurviveIffTaken(out.boxes, cs, cfg.nmsThreshold, rank);
      dets := Report(sourceWidth, sourceHeight, out, scores, order, cs, rank);
    }
  }
}
