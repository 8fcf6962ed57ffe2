/**
 The control arithmetic of `tracking_math.hpp` and the target choice of `object_track_node.cpp`.
 Floats are reals; an infinite range is the value `Unavailable`.
 */
module TrackingMath {
  import opened Prelude
  import opened Scaling

  const LOGICAL_WIDTH: nat := 640
  const LOGICAL_HEIGHT: nat := 360

  datatype Range = Unavailable | Finite(metres: real)

  /** A projected scan point; its height and depth only serve the drawing and are not kept. */
  datatype ScanPoint = ScanPoint(x: real, range: real)

  datatype LinearControl = LinearControl(
    enabled: bool,
    gain: real,
    keepDistance: real,
    minimumRange: real,
    maximumRange: real,
    maximumSpeed: real)

  datatype Detection = Detection(x1: nat, y1: nat, x2: nat, y2: nat, className: string)

  datatype Box = Box(x: int, y: int, width: int, height: int)

  // ---------------------------------------------------------------- control laws

  function Limit(value: real, maximum: real): real {
    MaxReal(-maximum, MinReal(maximum, value))
  }

  /** The answer to an error, before it is limited. */
  function Response(gain: real, error: real): real {
    gain * error
  }

  /** Turns towards the target: positive when the target is left of the image centre. */
  function AngularCommand(centerX: real, imageWidth: real, gain: real, maximum: real): (w: real)
    ensures -MaxReal(0.0, maximum) <= w <= MaxReal(0.0, maximum)
    ensures gain > 0.0 && imageWidth > 0.0 && maximum > 0.0 ==>
              (w > 0.0 <==> centerX < imageWidth / 2.0) && (w < 0.0 <==> centerX > imageWidth / 2.0)
  {
    if imageWidth <= 0.0 || maximum < 0.0 then 0.0
    else
      var raw := Response(gain, imageWidth * 0.5 - centerX);
      ResponseSide(gain, imageWidth * 0.5 - centerX);
      Limit(raw, maximum)
  }

  lemma ResponseSide(gain: real, error: real)
    ensures gain > 0.0 ==> (Response(gain, error) > 0.0 <==> error > 0.0) && (Response(gain, error) < 0.0 <==> error < 0.0)
  {
    SignOfProduct(gain, error);
  }

  lemma SignOfProduct(a: real, b: real)
    ensures a > 0.0 ==> (a * b > 0.0 <==> b > 0.0) && (a * b < 0.0 <==> b < 0.0)
  {
    if a > 0.0 {
      if b > 0.0 { assert a * b > 0.0; }
      if b < 0.0 { assert a * (-b) > 0.0; }
    }
  }

  /** Drives to the keep distance, and only inside the closed range window. */
  function LinearCommand(range: Range, control: LinearControl): (v: real)
    ensures -MaxReal(0.0, control.maximumSpeed) <= v <= MaxReal(0.0, control.maximumSpeed)
    ensures v != 0.0 ==>
              control.enabled && range.Finite? && control.minimumRange <= range.metres <= control.maximumRange
    ensures v > 0.0 && control.gain > 0.0 ==> range.metres > control.keepDistance
    ensures v < 0.0 && control.gain > 0.0 ==> range.metres < control.keepDistance
  {
    if range.Unavailable? then 0.0 else Drive(range.metres, control)
  }

  function Drive(metres: real, control: LinearControl): (v: real)
    ensures -MaxReal(0.0, control.maximumSpeed) <= v <= MaxReal(0.0, control.maximumSpeed)
    ensures v != 0.0 ==> control.enabled && control.minimumRange <= metres <= control.maximumRange
    ensures v > 0.0 && control.gain > 0.0 ==> metres > control.keepDistance
    ensures v < 0.0 && control.gain > 0.0 ==> metres < control.keepDistance
  {
    if !control.enabled || metres < control.minimumRange || metres > control.maximumRange || control.maximumSpeed < 0.0
    then 0.0
    else
      var raw := Response(control.gain, metres - control.keepDistance);
      ResponseSide(control.gain, metres - control.keepDistance);
      Limit(raw, control.maximumSpeed)
  }

  /** `value` cut to the limit on either side. */
  ghost function Cut(value: real, limit: real): real {
    if value > limit then limit else if value < -limit then -limit else value
  }

  lemma LimitCuts(value: real, maximum: real)
    requires maximum >= 0.0
    ensures Limit(value, maximum) == Cut(value, maximum)
  {
  }

  lemma LimitedResponse(gain: real, error: real, maximum: real)
    requires maximum >= 0.0
    ensures Limit(Response(gain, error), maximum) == Cut(gain * error, maximum)
  {
    LimitCuts(Response(gain, error), maximum);
  }

  /** The angular command is proportional to the offset from the middle of the image, up to its limit on either side. */
  lemma AngularCommandSaturates(centerX: real, gain: real, maximum: real)
    requires maximum >= 0.0
    ensures AngularCommand(centerX, 640.0, gain, maximum) == Cut(gain * (320.0 - centerX), maximum)
  {
    LimitedResponse(gain, 320.0 - centerX, maximum);
    assert 640.0 * 0.5 - centerX == 320.0 - centerX;
  }

  lemma DriveIsLimited(metres: real, control: LinearControl)
    requires control.enabled && control.minimumRange <= metres <= control.maximumRange && control.maximumSpeed >= 0.0
    ensures Drive(metres, control) == Limit(Response(control.gain, metres - control.keepDistance), control.maximumSpeed)
  {
  }

  /** Inside the window the linear command is proportional to the distance error, up to its limit. */
  lemma LinearCommandSaturates(metres: real, control: LinearControl)
    requires control.enabled && control.minimumRange <= metres <= control.maximumRange && control.maximumSpeed >= 0.0
    ensures LinearCommand(Finite(metres), control)
            == Cut(control.gain * (metres - control.keepDistance), control.maximumSpeed)
  {
    DriveIsLimited(metres, control);
    LimitedResponse(control.gain, metres - control.keepDistance, control.maximumSpeed);
    assert LinearCommand(Finite(metres), control) == Drive(metres, control);
  }

  // ---------------------------------------------------------------- nearest point in a span

  function NearestRange(points: seq<ScanPoint>, left: real, right: real): Range {
    if points == [] then Unavailable
    else
      var before := NearestRange(points[..|points| - 1], left, right);
      var p := points[|points| - 1];
      var column := Truncate(p.x) as real;
      if left < column < right && (before.Unavailable? || p.range < before.metres) then Finite(p.range) else before
  }

  /** The pixel column is truncated first; the span is open on both sides. */
  ghost predicate InSpan(p: ScanPoint, left: real, right: real) {
    left < Truncate(p.x) as real < right
  }

  /** `range` is the distance of a nearest point inside the open span, or there is no such point. */
  ghost predicate IsNearest(points: seq<ScanPoint>, left: real, right: real, range: Range) {
    match range
    case Unavailable => forall k :: 0 <= k < |points| ==> !InSpan(points[k], left, right)
    case Finite(m) =>
      && (exists k :: 0 <= k < |points| && InSpan(points[k], left, right) && points[k].range == m)
      && (forall k :: 0 <= k < |points| && InSpan(points[k], left, right) ==> m <= points[k].range)
  }

  /** The running minimum is a nearest range, and the only one. */
  lemma {:induction false} NearestRangeIsNearest(points: seq<ScanPoint>, left: real, right: real, range: Range)
    ensures IsNearest(points, left, right, range) <==> range == NearestRange(points, left, right)
  {
    var n := |points|;
    if n > 0 {
      var init := points[..n - 1];
      var before := NearestRange(init, left, right);
      NearestRangeIsNearest(init, left, right, before);
      assert forall k :: 0 <= k < n - 1 ==> init[k] == points[k];
      assert points[n - 1] in points;
      if before.Finite? {
        var k :| 0 <= k < n - 1 && InSpan(init[k], left, right) && init[k].range == before.metres;
        assert InSpan(points[k], left, right) && points[k].range == before.metres;
      }
      assert IsNearest(points, left, right, NearestRange(points, left, right));
    }
  }

  method NearestRangeInHorizontalSpan(points: seq<ScanPoint>, left: real, right: real) returns (nearest: Range)
    ensures nearest == NearestRange(points, left, right)
  {
    nearest := Unavailable;
    for i := 0 to |points|
      invariant nearest == NearestRange(points[..i], left, right)
    {
      assert points[..i + 1][..i] == points[..i];
      var pixelX := Truncate(points[i].x) as real;
      if pixelX > left && pixelX < right && (nearest.Unavailable? || points[i].range < nearest.metres) {
        nearest := Finite(points[i].range);
      }
    }
    assert points[..|points|] == points;
  }

  // ---------------------------------------------------------------- target choice

  /** A coordinate of an image of the given size, on the logical axis of the given length. */
  function OnAxis(coordinate: nat, length: nat, size: nat): int
    requires size > 0
  {
    TruncatedProduct(coordinate as real, length as real / size as real)
  }

  /** The detection scaled to the 640 x 360 logical image, each corner truncated. */
  function LogicalBox(d: Detection, imageWidth: nat, imageHeight: nat): Box
    requires imageWidth > 0 && imageHeight > 0
  {
    var x1 := OnAxis(d.x1, LOGICAL_WIDTH, imageWidth);
    var y1 := OnAxis(d.y1, LOGICAL_HEIGHT, imageHeight);
    var x2 := OnAxis(d.x2, LOGICAL_WIDTH, imageWidth);
    var y2 := OnAxis(d.y2, LOGICAL_HEIGHT, imageHeight);
    Box(x1, y1, x2 - x1, y2 - y1)
  }

  function LogicalArea(d: Detection, imageWidth: nat, imageHeight: nat): int
    requires imageWidth > 0 && imageHeight > 0
  {
    var box := LogicalBox(d, imageWidth, imageHeight);
    box.width * box.height
  }

  /** The box lies between the scaled edges of the detection, in whole pixels of the 640 x 360 image. */
  lemma BoxInLogicalPixels(d: Detection, imageWidth: nat, imageHeight: nat)
    requires imageWidth > 0 && imageHeight > 0
    ensures var box := LogicalBox(d, imageWidth, imageHeight);
            && box.x == d.x1 * 640 / imageWidth && box.x + box.width == d.x2 * 640 / imageWidth
            && box.y == d.y1 * 360 / imageHeight && box.y + box.height == d.y2 * 360 / imageHeight
  {
    ScaledIsQuotient(d.x1, 640, imageWidth);
    ScaledIsQuotient(d.x2, 640, imageWidth);
    ScaledIsQuotient(d.y1, 360, imageHeight);
    ScaledIsQuotient(d.y2, 360, imageHeight);
  }

  /** The area compared with the minimum is the width times the height of that box. */
  lemma AreaInLogicalPixels(d: Detection, imageWidth: nat, imageHeight: nat)
    requires imageWidth > 0 && imageHeight > 0
    ensures LogicalArea(d, imageWidth, imageHeight)
            == (d.x2 * 640 / imageWidth - d.x1 * 640 / imageWidth)
               * (d.y2 * 360 / imageHeight - d.y1 * 360 / imageHeight)
  {
    BoxInLogicalPixels(d, imageWidth, imageHeight);
  }

  datatype Scene = Scene(width: nat, height: nat, detections: seq<Detection>)

  function Area(scene: Scene, k: nat): int
    requires scene.width > 0 && scene.height > 0 && k < |scene.detections|
  {
    LogicalArea(scene.detections[k], scene.width, scene.height)
  }

  function Target(scene: Scene, targetClass: string, minimumArea: int): (t: Option<nat>)
    ensures t.Some? ==> scene.width > 0 && scene.height > 0 && t.value < |scene.detections|
  {
    if scene.width == 0 || scene.height == 0 then None
    else TargetAmong(scene, |scene.detections|, targetClass, minimumArea)
  }

  /** The choice after the first `n` detections have been looked at. */
  function TargetAmong(scene: Scene, n: nat, targetClass: string, minimumArea: int): (t: Option<nat>)
    requires scene.width > 0 && scene.height > 0 && n <= |scene.detections|
    ensures t.Some? ==> t.value < n
  {
    if n == 0 then None
    else
      var before := TargetAmong(scene, n - 1, targetClass, minimumArea);
      var bar := if before.Some? then Area(scene, before.value) else minimumArea;
      var d := scene.detections[n - 1];
      if d.className == targetClass && d.x1 < d.x2 && d.y1 < d.y2 && Area(scene, n - 1) > bar then Some(n - 1)
      else before
  }

  /** A detection of the target class whose corners are the right way round. */
  ghost predicate Matches(d: Detection, targetClass: string) {
    d.className == targetClass && d.x1 < d.x2 && d.y1 < d.y2
  }

  /** The first of the largest matching detections whose area exceeds the minimum. */
  ghost predicate IsTarget(scene: Scene, n: nat, targetClass: string, minimumArea: int, t: Option<nat>)
    requires scene.width > 0 && scene.height > 0 && n <= |scene.detections|
  {
    match t
    case None => forall k: nat :: k < n && Matches(scene.detections[k], targetClass) ==> Area(scene, k) <= minimumArea
    case Some(i) =>
      && i < n && Matches(scene.detections[i], targetClass) && Area(scene, i) > minimumArea
      && (forall k: nat :: k < n && Matches(scene.detections[k], targetClass) ==>
            Area(scene, k) <= Area(scene, i) && (k < i ==> Area(scene, k) < Area(scene, i)))
  }

  /** The scan with a running best finds exactly the first largest match above the minimum. */
  lemma {:induction false} TargetAmongIsTarget(
    scene: Scene, n: nat, targetClass: string, minimumArea: int, t: Option<nat>)
    requires scene.width > 0 && scene.height > 0 && n <= |scene.detections|
    ensures IsTarget(scene, n, targetClass, minimumArea, t) <==> t == TargetAmong(scene, n, targetClass, minimumArea)
  {
    if n > 0 {
      var before := TargetAmong(scene, n - 1, targetClass, minimumArea);
      TargetAmongIsTarget(scene, n - 1, targetClass, minimumArea, before);
      var now := TargetAmong(scene, n, targetClass, minimumArea);
      assert IsTarget(scene, n, targetClass, minimumArea, now);
      if IsTarget(scene, n, targetClass, minimumArea, t) && t.Some? && now.Some? {
        var i, j := t.value, now.value;
        assert Area(scene, i) <= Area(scene, j) && Area(scene, j) <= Area(scene, i);
        assert i == j;
      }
    }
  }

  method SelectTarget(scene: Scene, targetClass: string, minimumArea: int) returns (selected: Option<nat>)
    ensures selected == Target(scene, targetClass, minimumArea)
  {
    selected := None;
    if scene.width == 0 || scene.height == 0 {
      return;
    }
    var selectedArea := minimumArea;
    for i := 0 to |scene.detections|
      invariant selected == TargetAmong(scene, i, targetClass, minimumArea)
      invariant selectedArea == if selected.Some? then Area(scene, selected.value) else minimumArea
    {
      var detection := scene.detections[i];
      if detection.className != targetClass || detection.x2 <= detection.x1 || detection.y2 <= detection.y1 {
        continue;
      }
      var box := LogicalBox(detection, scene.width, scene.height);
      var area := box.width * box.height;
      if area > selectedArea {
        selected, selectedArea := Some(i), area;
      }
    }
  }
}
