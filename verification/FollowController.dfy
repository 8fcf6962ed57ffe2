/**
 The event-driven Follow controller of `object_track_node.cpp`: frame pairs, laser scans, two timers and
 two services, run one callback at a time by a single-threaded executor. A callback reads the clock once.
 */
module FollowController {
  import opened Prelude
  import opened TrackingMath

  datatype Config = Config(
    targetClass: string,
    gain: real,
    maximum: real,
    minimumArea: int,
    dryRun: bool,
    linearControl: LinearControl,
    scanTimeout: real,
    transformDeadline: real)

  datatype Command = Command(linear: real, angular: real)

  const STOP := Command(0.0, 0.0)

  /** What the output port is handed: a preview has no effect on the robot, a publication may move it. */
  datatype Emission = Preview(command: Command) | Publication(command: Command)

  /** What has to be in place before Follow may run. */
  datatype Gates = Gates(
    enabled: bool,
    lidarEnabled: bool,
    inputsReady: bool,
    transformReady: bool,
    transformPolling: bool,
    scanSubscribed: bool)

  /** When a scan was last taken in, and whether its expiry has already been answered with a stop. */
  datatype ScanAge = ScanAge(received: bool, lastAt: real, timeoutStopEmitted: bool)

  /** The latest points and what was computed from them. */
  datatype Control = Control(
    points: seq<ScanPoint>,
    targetRange: Range,
    targetLeft: real,
    targetRight: real,
    lastLinear: real,
    lastAngular: real)

  datatype Tracker = Tracker(gates: Gates, scan: ScanAge, control: Control, output: seq<Emission>)

  /** Follow and fusion both off, no input seen, nothing sent. */
  const STANDBY := Tracker(
    Gates(false, false, false, false, true, false),
    ScanAge(false, 0.0, false),
    Control([], Finite(0.0), 0.0, 0.0, 0.0, 0.0),
    [])

  /** A scan carries the points its projection yields; whether TF or a publisher is there is the world's choice. */
  datatype Event =
    | Frame(scene: Scene)
    | Scan(points: seq<ScanPoint>)
    | FreshnessTimer
    | TransformTimer(transformAvailable: bool)
    | SetLidar(on: bool, transformAvailable: bool, publisherActive: bool)
    | SetFollow(on: bool)

  // ---------------------------------------------------------------- what each callback does to the state

  function Emit(cfg: Config, s: Tracker, c: Command): Tracker {
    s.(output := s.output + [if cfg.dryRun then Preview(c) else Publication(c)])
  }

  predicate Recent(cfg: Config, scan: ScanAge, now: real) {
    scan.received && now - scan.lastAt <= cfg.scanTimeout
  }

  predicate Expired(s: Tracker, scanIsRecent: bool) {
    s.gates.lidarEnabled && s.gates.transformReady && s.scan.received && !scanIsRecent
  }

  predicate RangeReady(cfg: Config, s: Tracker, now: real) {
    s.gates.lidarEnabled && s.gates.transformReady && Recent(cfg, s.scan, now)
  }

  function Cleared(c: Control): Control {
    c.(points := [], targetRange := Finite(0.0), lastLinear := 0.0, lastAngular := 0.0)
  }

  function StoppedWithoutScan(cfg: Config, s: Tracker, expired: bool): Tracker {
    var cleared := s.(control := Cleared(s.control));
    if !s.gates.enabled then cleared
    else Emit(cfg, cleared.(scan := s.scan.(timeoutStopEmitted := expired)), STOP)
  }

  /** The velocities for the chosen detection at a finite range. */
  function ControlLaw(cfg: Config, scene: Scene, k: nat, range: Range): Command
    requires scene.width > 0 && scene.height > 0 && k < |scene.detections|
  {
    var box := LogicalBox(scene.detections[k], scene.width, scene.height);
    Command(LinearCommand(range, cfg.linearControl),
            AngularCommand(box.x as real + box.width as real * 0.5, LOGICAL_WIDTH as real, cfg.gain, cfg.maximum))
  }

  /** The horizontal span of the chosen box is kept for later scans; without a target it is emptied. */
  function Remembered(c: Control, scene: Scene, selected: Option<nat>): Control
    requires selected.Some? ==> selected.value < |scene.detections|
  {
    if selected.Some? then
      c.(targetLeft := scene.detections[selected.value].x1 as real,
         targetRight := scene.detections[selected.value].x2 as real)
    else
      c.(targetLeft := 0.0, targetRight := 0.0, targetRange := Unavailable)
  }

  function Steered(cfg: Config, c: Control, scene: Scene, selected: Option<nat>): Control
    requires selected.Some? ==> scene.width > 0 && scene.height > 0 && selected.value < |scene.detections|
  {
    var range := NearestRange(c.points, c.targetLeft, c.targetRight);
    var command := if selected.Some? && range.Finite? then ControlLaw(cfg, scene, selected.value, range) else STOP;
    c.(targetRange := range, lastLinear := command.linear, lastAngular := command.angular)
  }

  function Cached(c: Control): Command {
    Command(c.lastLinear, c.lastAngular)
  }

  function AfterFrame(cfg: Config, s: Tracker, now: real, scene: Scene): Tracker {
    var selected := Target(scene, cfg.targetClass, cfg.minimumArea);
    var remembered := Remembered(s.control, scene, selected);
    AfterSelection(cfg, s.(gates := s.gates.(inputsReady := true), control := remembered), now, scene, selected)
  }

  function AfterSelection(cfg: Config, s: Tracker, now: real, scene: Scene, selected: Option<nat>): Tracker
    requires selected.Some? ==> scene.width > 0 && scene.height > 0 && selected.value < |scene.detections|
  {
    if !RangeReady(cfg, s, now) then StoppedWithoutScan(cfg, s, Expired(s, Recent(cfg, s.scan, now)))
    else
      var steered := Steered(cfg, s.control, scene, selected);
      if s.gates.enabled then Emit(cfg, s.(control := steered), Cached(steered)) else s.(control := steered)
  }

  /** The cached command is dropped; a stop goes out only if Follow runs and the command was not zero already. */
  function Revoked(cfg: Config, s: Tracker): Tracker {
    var revoked := s.(control := s.control.(lastLinear := 0.0, lastAngular := 0.0));
    if s.gates.enabled && Cached(s.control) != STOP then Emit(cfg, revoked, STOP) else revoked
  }

  /** A scan reaches the callback only through a live subscription. */
  function AfterScan(cfg: Config, s: Tracker, now: real, points: seq<ScanPoint>): Tracker {
    if !s.gates.scanSubscribed || !s.gates.transformReady then s
    else
      var range := NearestRange(points, s.control.targetLeft, s.control.targetRight);
      var scanned := s.(scan := ScanAge(true, now, false),
                        control := s.control.(points := points, targetRange := range));
      if range.Finite? then scanned else Revoked(cfg, scanned)
  }

  function AfterFreshnessTimer(cfg: Config, s: Tracker, now: real): Tracker {
    if !s.gates.enabled || !Expired(s, Recent(cfg, s.scan, now)) || s.scan.timeoutStopEmitted then s
    else StoppedWithoutScan(cfg, s, true)
  }

  function AfterTransformTimer(cfg: Config, s: Tracker, now: real, transformAvailable: bool): Tracker {
    if !s.gates.transformPolling then s
    else if transformAvailable then s.(gates := s.gates.(transformReady := true, transformPolling := false))
    else if now >= cfg.transformDeadline then s.(gates := s.gates.(transformPolling := false))
    else s
  }

  /** The fusion service. The request fails, and only TF may change, when TF or the scan publisher is missing. */
  function AfterSetLidar(cfg: Config, s: Tracker, on: bool, transformAvailable: bool, publisherActive: bool): Tracker {
    if on == s.gates.lidarEnabled then s
    else if !on then LidarOff(cfg, s)
    else
      var loaded := s.gates.(transformReady := s.gates.transformReady || transformAvailable);
      if LidarAccepted(s, on, transformAvailable, publisherActive)
      then s.(gates := loaded.(lidarEnabled := true, scanSubscribed := true))
      else s.(gates := loaded)
  }

  /** Turning fusion off forgets the scan, and puts an enabled Follow into standby with a stop. */
  function LidarOff(cfg: Config, s: Tracker): Tracker {
    var off := Tracker(s.gates.(enabled := false, lidarEnabled := false, scanSubscribed := false),
                       s.scan.(received := false, timeoutStopEmitted := false),
                       Cleared(s.control),
                       s.output);
    if s.gates.enabled then Emit(cfg, off, STOP) else off
  }

  predicate LidarAccepted(s: Tracker, on: bool, transformAvailable: bool, publisherActive: bool) {
    on == s.gates.lidarEnabled || !on || ((s.gates.transformReady || transformAvailable) && publisherActive)
  }

  predicate FollowAccepted(cfg: Config, s: Tracker, now: real, on: bool) {
    !on || (s.gates.inputsReady && RangeReady(cfg, s, now))
  }

  function AfterSetFollow(cfg: Config, s: Tracker, now: real, on: bool): Tracker {
    if !FollowAccepted(cfg, s, now, on) || on == s.gates.enabled then s
    else Emit(cfg, s.(gates := s.gates.(enabled := on), control := Cleared(s.control)), STOP)
  }

  function After(cfg: Config, s: Tracker, now: real, e: Event): Tracker {
    match e
    case Frame(scene) => AfterFrame(cfg, s, now, scene)
    case Scan(points) => AfterScan(cfg, s, now, points)
    case FreshnessTimer => AfterFreshnessTimer(cfg, s, now)
    case TransformTimer(available) => AfterTransformTimer(cfg, s, now, available)
    case SetLidar(on, available, active) => AfterSetLidar(cfg, s, on, available, active)
    case SetFollow(on) => AfterSetFollow(cfg, s, now, on)
  }

  // ---------------------------------------------------------------- the node

  class ObjectTrackNode {
    const cfg: Config
    var enabled: bool
    var lidarEnabled: bool
    var inputsReady: bool
    var lidarTransformReady: bool
    var transformPolling: bool
    var scanSubscribed: bool
    var lidarScanReceived: bool
    var lidarTimeoutStopEmitted: bool
    var lastLidarScanAt: real
    var targetRange: Range
    var targetLeft: real
    var targetRight: real
    var lastLinearCommand: real
    var lastAngularCommand: real
    var projectedPoints: seq<ScanPoint>
    var output: seq<Emission>

    function GatesNow(): Gates
      reads this
    {
      Gates(enabled, lidarEnabled, inputsReady, lidarTransformReady, transformPolling, scanSubscribed)
    }

    function ScanNow(): ScanAge
      reads this
    {
      ScanAge(lidarScanReceived, lastLidarScanAt, lidarTimeoutStopEmitted)
    }

    function ControlNow(): Control
      reads this
    {
      Control(projectedPoints, targetRange, targetLeft, targetRight, lastLinearCommand, lastAngularCommand)
    }

    function State(): Tracker
      reads this
    {
      Tracker(GatesNow(), ScanNow(), ControlNow(), output)
    }

    constructor (cfg: Config)
      ensures this.cfg == cfg && State() == STANDBY
    {
      this.cfg := cfg;
      enabled, lidarEnabled, inputsReady, lidarTransformReady := false, false, false, false;
      transformPolling, scanSubscribed := true, false;
      lidarScanReceived, lidarTimeoutStopEmitted, lastLidarScanAt := false, false, 0.0;
      targetRange, targetLeft, targetRight := Finite(0.0), 0.0, 0.0;
      lastLinearCommand, lastAngularCommand := 0.0, 0.0;
      projectedPoints, output := [], [];
    }

    method EmitCommand(command: Command)
      modifies this`output
      ensures State() == Emit(cfg, old(State()), command)
    {
      output := output + [if cfg.dryRun then Preview(command) else Publication(command)];
    }

    method ClearLidarControlState()
      modifies this`projectedPoints, this`targetRange, this`lastLinearCommand, this`lastAngularCommand
      ensures ControlNow() == Cleared(old(ControlNow()))
    {
      projectedPoints := [];
      targetRange := Finite(0.0);
      lastLinearCommand, lastAngularCommand := 0.0, 0.0;
    }

    method StopFollowWithoutFreshLidarScan(scanExpired: bool)
      modifies this
      ensures State() == StoppedWithoutScan(cfg, old(State()), scanExpired)
    {
      ClearLidarControlState();
      if !enabled {
        return;
      }
      lidarTimeoutStopEmitted := scanExpired;
      EmitCommand(STOP);
    }

    method RememberTarget(scene: Scene, selected: Option<nat>)
      requires selected.Some? ==> selected.value < |scene.detections|
      modifies this`targetLeft, this`targetRight, this`targetRange
      ensures ControlNow() == Remembered(old(ControlNow()), scene, selected)
    {
      if selected.Some? {
        targetLeft := scene.detections[selected.value].x1 as real;
        targetRight := scene.detections[selected.value].x2 as real;
      } else {
        targetLeft, targetRight, targetRange := 0.0, 0.0, Unavailable;
      }
    }

    method Steer(scene: Scene, selected: Option<nat>)
      requires selected.Some? ==> scene.width > 0 && scene.height > 0 && selected.value < |scene.detections|
      modifies this`targetRange, this`lastLinearCommand, this`lastAngularCommand
      ensures ControlNow() == Steered(cfg, old(ControlNow()), scene, selected)
    {
      targetRange := NearestRangeInHorizontalSpan(projectedPoints, targetLeft, targetRight);
      lastAngularCommand, lastLinearCommand := 0.0, 0.0;
      if selected.Some? && targetRange.Finite? {
        lastLinearCommand := LinearCommand(targetRange, cfg.linearControl);
        var target := LogicalBox(scene.detections[selected.value], scene.width, scene.height);
        var centerX := target.x as real + target.width as real * 0.5;
        lastAngularCommand := AngularCommand(centerX, LOGICAL_WIDTH as real, cfg.gain, cfg.maximum);
      }
    }

    method SyncCallback(now: real, scene: Scene)
      modifies this
      ensures State() == AfterFrame(cfg, old(State()), now, scene)
    {
      inputsReady := true;
      var selected := SelectTarget(scene, cfg.targetClass, cfg.minimumArea);
      RememberTarget(scene, selected);
      SteerOrStop(now, scene, selected);
    }

    method SteerOrStop(now: real, scene: Scene, selected: Option<nat>)
      requires selected.Some? ==> scene.width > 0 && scene.height > 0 && selected.value < |scene.detections|
      modifies this
      ensures State() == AfterSelection(cfg, old(State()), now, scene, selected)
    {
      var scanIsRecent := HasRecentLidarScan(now);
      var scanExpired := IsLidarScanExpired(scanIsRecent);
      if !(lidarEnabled && lidarTransformReady && scanIsRecent) {
        StopFollowWithoutFreshLidarScan(scanExpired);
        return;
      }

      Steer(scene, selected);
      if enabled {
        EmitCommand(Command(lastLinearCommand, lastAngularCommand));
      }
    }

    function HasRecentLidarScan(now: real): bool
      reads this
    {
      lidarScanReceived && now - lastLidarScanAt <= cfg.scanTimeout
    }

    function IsLidarScanExpired(scanIsRecent: bool): bool
      reads this
    {
      lidarEnabled && lidarTransformReady && lidarScanReceived && !scanIsRecent
    }

    method ScanCallback(now: real, points: seq<ScanPoint>)
      requires scanSubscribed
      modifies this
      ensures State() == AfterScan(cfg, old(State()), now, points)
    {
      if !lidarTransformReady {
        return;
      }
      lastLidarScanAt, lidarScanReceived, lidarTimeoutStopEmitted := now, true, false;
      projectedPoints := points;
      targetRange := NearestRangeInHorizontalSpan(projectedPoints, targetLeft, targetRight);
      if targetRange.Unavailable? {
        RevokeCommand();
      }
    }

    method RevokeCommand()
      modifies this`lastLinearCommand, this`lastAngularCommand, this`output
      ensures State() == Revoked(cfg, old(State()))
    {
      var commandWasNonzero := lastLinearCommand != 0.0 || lastAngularCommand != 0.0;
      lastLinearCommand, lastAngularCommand := 0.0, 0.0;
      if enabled && commandWasNonzero {
        EmitCommand(STOP);
      }
    }

    method CheckLidarScanFreshness(now: real)
      modifies this
      ensures State() == AfterFreshnessTimer(cfg, old(State()), now)
    {
      var scanExpired := IsLidarScanExpired(HasRecentLidarScan(now));
      if !enabled || !scanExpired || lidarTimeoutStopEmitted {
        return;
      }
      StopFollowWithoutFreshLidarScan(true);
    }

    method PollLidarTransform(now: real, transformAvailable: bool)
      modifies this
      ensures State() == AfterTransformTimer(cfg, old(State()), now, transformAvailable)
    {
      if !transformPolling {
        return;
      }
      if transformAvailable {
        lidarTransformReady := true;
        transformPolling := false;
        return;
      }
      if now >= cfg.transformDeadline {
        transformPolling := false;
      }
    }

    method DisableLidar()
      modifies this
      ensures State() == LidarOff(cfg, old(State()))
    {
      ClearLidarControlState();
      lidarEnabled, scanSubscribed, lidarScanReceived, lidarTimeoutStopEmitted := false, false, false, false;
      if enabled {
        enabled := false;
        EmitCommand(STOP);
      }
    }

    method ApplyLidarEnabled(on: bool, transformAvailable: bool, publisherActive: bool) returns (success: bool)
      modifies this
      ensures State() == AfterSetLidar(cfg, old(State()), on, transformAvailable, publisherActive)
      ensures success <==> lidarEnabled == on
      ensures success == LidarAccepted(old(State()), on, transformAvailable, publisherActive)
    {
      if on == lidarEnabled {
        return true;
      }
      if on && !lidarTransformReady {
        lidarTransformReady := transformAvailable;
        if !transformAvailable {
          return false;
        }
      }
      if on && !publisherActive {
        return false;
      }
      if on {
        lidarEnabled, scanSubscribed := true, true;
      } else {
        DisableLidar();
      }
      return true;
    }

    method ApplyEnabled(now: real, on: bool) returns (success: bool)
      modifies this
      ensures State() == AfterSetFollow(cfg, old(State()), now, on)
      ensures success == FollowAccepted(cfg, old(State()), now, on)
      ensures success ==> enabled == on
    {
      if on && !inputsReady {
        return false;
      }
      if on && !lidarEnabled {
        return false;
      }
      if on && !lidarTransformReady {
        return false;
      }
      if on && !HasRecentLidarScan(now) {
        return false;
      }
      if on == enabled {
        return true;
      }
      enabled := on;
      ClearLidarControlState();
      EmitCommand(STOP);
      return true;
    }

    /** One callback, as the executor delivers it; a scan without a subscription is not delivered. */
    method Deliver(now: real, e: Event)
      modifies this
      ensures State() == After(cfg, old(State()), now, e)
    {
      match e {
        case Frame(scene) => SyncCallback(now, scene);
        case Scan(points) =>
          if scanSubscribed {
            ScanCallback(now, points);
          }
        case FreshnessTimer => CheckLidarScanFreshness(now);
        case TransformTimer(available) => PollLidarTransform(now, available);
        case SetLidar(on, available, active) => var _ := ApplyLidarEnabled(on, available, active);
        case SetFollow(on) => var _ := ApplyEnabled(now, on);
      }
    }
  }
}
