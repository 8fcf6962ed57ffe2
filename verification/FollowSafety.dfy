/**
 Safety of the Follow controller over every run: any interleaving of frames, scans, timer ticks and
 service requests whose callbacks read a clock that never goes back.
 */
module FollowSafety {
  import opened Prelude
  import opened TrackingMath
  import opened FollowController

  datatype Stamped = Stamped(at: real, event: Event)

  /** The state a run leads to from standby. */
  ghost function Reached(cfg: Config, run: seq<Stamped>): Tracker {
    if run == [] then STANDBY
    else After(cfg, Reached(cfg, run[..|run| - 1]), run[|run| - 1].at, run[|run| - 1].event)
  }

  ghost function LastTime(run: seq<Stamped>, start: real): real {
    if run == [] then start else run[|run| - 1].at
  }

  ghost predicate Chronological(run: seq<Stamped>, start: real) {
    run == [] || (Chronological(run[..|run| - 1], start) && LastTime(run[..|run| - 1], start) <= run[|run| - 1].at)
  }

  ghost function LastCommand(s: Tracker): Command {
    if s.output == [] then STOP else s.output[|s.output| - 1].command
  }

  // ---------------------------------------------------------------- what every callback keeps

  ghost predicate Gated(s: Tracker) {
    && (s.gates.enabled ==> s.gates.inputsReady && s.scan.received)
    && (s.scan.received ==> s.gates.lidarEnabled)
    && (s.gates.lidarEnabled ==> s.gates.transformReady)
    && (s.gates.scanSubscribed <==> s.gates.lidarEnabled)
    && (LastCommand(s) != STOP ==> s.gates.enabled && LastCommand(s) == Cached(s.control))
  }

  /** The once-only flag stands only while the latest scan is too old, and nothing but a stop is out. */
  ghost predicate FlagHonest(cfg: Config, s: Tracker, clock: real) {
    s.scan.timeoutStopEmitted ==>
      s.scan.received && clock - s.scan.lastAt > cfg.scanTimeout && LastCommand(s) == STOP
  }

  ghost predicate Invariant(cfg: Config, s: Tracker, clock: real) {
    && Gated(s)
    && FlagHonest(cfg, s, clock)
    && (s.scan.received ==> s.scan.lastAt <= clock)
  }

  /** The output grew by exactly `c`. */
  ghost predicate Sent(a: Tracker, b: Tracker, c: Command) {
    |b.output| == |a.output| + 1 && b.output[..|a.output|] == a.output && LastCommand(b) == c
  }

  /** A frame leaves the gates and the scan alone, and sends nothing, a stop, or the newly cached command. */
  lemma FrameEffect(cfg: Config, s: Tracker, now: real, scene: Scene)
    ensures var s' := AfterFrame(cfg, s, now, scene);
            && s'.gates == s.gates.(inputsReady := true)
            && (if !s.gates.enabled then s'.scan == s.scan && s'.output == s.output
                else if RangeReady(cfg, s, now) then s'.scan == s.scan && Sent(s, s', Cached(s'.control))
                else s'.scan == s.scan.(timeoutStopEmitted := Expired(s, Recent(cfg, s.scan, now))) && Sent(s, s', STOP))
  {
  }

  lemma FrameKeepsInvariant(cfg: Config, s: Tracker, clock: real, now: real, scene: Scene)
    requires Invariant(cfg, s, clock) && clock <= now
    ensures Invariant(cfg, AfterFrame(cfg, s, now, scene), now)
  {
    FrameEffect(cfg, s, now, scene);
  }

  lemma CallbackKeepsInvariant(cfg: Config, s: Tracker, clock: real, now: real, e: Event)
    requires Invariant(cfg, s, clock) && clock <= now
    ensures Invariant(cfg, After(cfg, s, now, e), now)
  {
    if e.Frame? {
      FrameKeepsInvariant(cfg, s, clock, now, e.scene);
    }
  }

  lemma {:induction false} RunKeepsInvariant(cfg: Config, run: seq<Stamped>, start: real)
    requires Chronological(run, start)
    ensures Invariant(cfg, Reached(cfg, run), LastTime(run, start))
  {
    if run != [] {
      var before := run[..|run| - 1];
      RunKeepsInvariant(cfg, before, start);
      CallbackKeepsInvariant(cfg, Reached(cfg, before), LastTime(before, start), run[|run| - 1].at, run[|run| - 1].event);
    }
  }

  /** While the latest command sent is nonzero, Follow, fusion, TF and a scan are all in place, and it is the cached one. */
  lemma NonzeroOnlyWhileFollowing(cfg: Config, run: seq<Stamped>, start: real)
    requires Chronological(run, start)
    ensures var s := Reached(cfg, run);
            && (LastCommand(s) != STOP ==>
                  s.gates.enabled && LastCommand(s) == Cached(s.control))
            && (s.gates.enabled ==>
                  s.gates.lidarEnabled && s.gates.transformReady && s.gates.inputsReady && s.scan.received)
  {
    RunKeepsInvariant(cfg, run, start);
  }

  // ---------------------------------------------------------------- the dead-man bound

  /** When the freshness timer last ran; the timer starts with the node. */
  ghost function LastCheck(run: seq<Stamped>, start: real): real {
    if run == [] then start
    else if run[|run| - 1].event.FreshnessTimer? then run[|run| - 1].at
    else LastCheck(run[..|run| - 1], start)
  }

  /** When a scan was last taken in: the subscription was live and TF was ready. */
  ghost function LastScan(cfg: Config, run: seq<Stamped>, start: real): real {
    if run == [] then start
    else if TakesScan(Reached(cfg, run[..|run| - 1]), run[|run| - 1].event) then run[|run| - 1].at
    else LastScan(cfg, run[..|run| - 1], start)
  }

  ghost predicate TakesScan(s: Tracker, e: Event) {
    e.Scan? && s.gates.scanSubscribed && s.gates.transformReady
  }

  lemma {:induction false} ScanTimeIsRecorded(cfg: Config, run: seq<Stamped>, start: real)
    requires Chronological(run, start)
    ensures Reached(cfg, run).scan.received ==> Reached(cfg, run).scan.lastAt == LastScan(cfg, run, start)
  {
    if run != [] {
      var before := run[..|run| - 1];
      ScanTimeIsRecorded(cfg, before, start);
      var s, now := Reached(cfg, before), run[|run| - 1].at;
      match run[|run| - 1].event
      case Frame(scene) => FrameEffect(cfg, s, now, scene);
      case Scan(points) =>
      case FreshnessTimer =>
      case TransformTimer(available) =>
      case SetLidar(on, available, active) =>
      case SetFollow(on) =>
    }
  }

  lemma CheckIsNotLate(run: seq<Stamped>, start: real)
    requires Chronological(run, start)
    ensures LastCheck(run, start) <= LastTime(run, start)
  {
    if run != [] {
      CheckIsNotLate(run[..|run| - 1], start);
    }
  }

  /** A nonzero latest command was backed by a scan still fresh at the given check. */
  ghost predicate BackedAt(cfg: Config, s: Tracker, check: real) {
    LastCommand(s) != STOP ==> check - s.scan.lastAt <= cfg.scanTimeout
  }

  lemma FrameKeepsBacking(cfg: Config, s: Tracker, now: real, scene: Scene, check: real)
    requires BackedAt(cfg, s, check) && check <= now
    requires LastCommand(s) != STOP ==> s.gates.enabled
    ensures BackedAt(cfg, AfterFrame(cfg, s, now, scene), check)
  {
    FrameEffect(cfg, s, now, scene);
  }

  lemma CallbackKeepsBacking(cfg: Config, s: Tracker, clock: real, now: real, e: Event, check: real)
    requires Invariant(cfg, s, clock) && check <= clock <= now && BackedAt(cfg, s, check)
    ensures BackedAt(cfg, After(cfg, s, now, e), if e.FreshnessTimer? then now else check)
  {
    if e.Frame? {
      FrameKeepsBacking(cfg, s, now, e.scene, check);
    }
  }

  /** A nonzero command that outlives a check was backed by a scan still fresh at that check. */
  lemma {:induction false} MovingSinceCheck(cfg: Config, run: seq<Stamped>, start: real)
    requires Chronological(run, start)
    ensures BackedAt(cfg, Reached(cfg, run), LastCheck(run, start))
  {
    if run != [] {
      var before := run[..|run| - 1];
      MovingSinceCheck(cfg, before, start);
      RunKeepsInvariant(cfg, before, start);
      CheckIsNotLate(before, start);
      CallbackKeepsBacking(cfg, Reached(cfg, before), LastTime(before, start), run[|run| - 1].at, run[|run| - 1].event,
                           LastCheck(before, start));
    }
  }

  /**
   The dead-man bound. If the freshness timer ran within the last `period`, a nonzero command is the latest
   output no later than the scan timeout plus `period` after the last scan, whether or not frames arrive.
   */
  lemma DeadManBound(cfg: Config, run: seq<Stamped>, start: real, now: real, period: real)
    requires Chronological(run, start) && LastTime(run, start) <= now
    requires now - LastCheck(run, start) <= period
    requires LastCommand(Reached(cfg, run)) != STOP
    ensures now - LastScan(cfg, run, start) <= cfg.scanTimeout + period
  {
    MovingSinceCheck(cfg, run, start);
    RunKeepsInvariant(cfg, run, start);
    ScanTimeIsRecorded(cfg, run, start);
  }

  lemma Snoc(cfg: Config, run: seq<Stamped>, start: real, at: real, e: Event)
    requires Chronological(run, start) && LastTime(run, start) <= at
    ensures var longer := run + [Stamped(at, e)];
            && Chronological(longer, start) && LastTime(longer, start) == at
            && Reached(cfg, longer) == After(cfg, Reached(cfg, run), at, e)
            && LastCheck(longer, start) == (if e.FreshnessTimer? then at else LastCheck(run, start))
            && LastScan(cfg, longer, start) == (if TakesScan(Reached(cfg, run), e) then at else LastScan(cfg, run, start))
  {
    var longer := run + [Stamped(at, e)];
    assert longer[..|longer| - 1] == run;
  }

  /** The times at which the freshness timer ran. */
  ghost function Checks(run: seq<Stamped>): seq<real> {
    if run == [] then []
    else if run[|run| - 1].event.FreshnessTimer? then Checks(run[..|run| - 1]) + [run[|run| - 1].at]
    else Checks(run[..|run| - 1])
  }

  /** When check number `n` of a timer is due that starts at time zero. */
  ghost function Due(n: nat, period: real): real {
    if n == 0 then 0.0 else Due(n - 1, period) + period
  }

  lemma {:induction false} DueIsMultiple(n: nat, period: real)
    ensures Due(n, period) == n as real * period
  {
    if n > 0 {
      DueIsMultiple(n - 1, period);
    }
  }

  /** The timer has run `n` times, each time when it was due, and at no other time. */
  ghost predicate Periodic(run: seq<Stamped>, period: real, n: nat) {
    |Checks(run)| == n && forall k :: 0 <= k < n ==> Checks(run)[k] == Due(k + 1, period)
  }

  /** The first check that is due no earlier than the timeout. */
  lemma ChecksUpTo(timeout: real, period: real) returns (n: nat)
    requires timeout > 0.0 && period > 0.0
    ensures n > 0 && Due(n - 1, period) < timeout <= Due(n, period)
  {
    n := PeriodsBeyond(timeout, period);
    DueIsMultiple(n, period);
    while Due(n - 1, period) >= timeout
      invariant n > 0 && timeout <= Due(n, period)
      decreases n
    {
      n := n - 1;
    }
  }

  lemma PeriodsBeyond(timeout: real, period: real) returns (n: nat)
    requires timeout > 0.0 && period > 0.0
    ensures n > 0 && timeout <= n as real * period
  {
    var q := timeout / period;
    assert q > 0.0;
    n := q.Floor + 1;
    QuotientTimes(timeout, period);
    NotMoreTimes(q, n as real, period);
  }

  lemma QuotientTimes(a: real, b: real)
    requires b > 0.0
    ensures a / b * b == a
  {
  }

  lemma NotMoreTimes(a: real, b: real, c: real)
    requires a <= b && c > 0.0
    ensures a * c <= b * c
  {
  }

  lemma SnocChecks(run: seq<Stamped>, at: real, e: Event)
    ensures Checks(run + [Stamped(at, e)]) == if e.FreshnessTimer? then Checks(run) + [at] else Checks(run)
  {
    var longer := run + [Stamped(at, e)];
    assert longer[..|longer| - 1] == run;
  }

  /** A check while the scan is fresh changes nothing. */
  lemma FreshCheck(cfg: Config, run: seq<Stamped>, now: real)
    requires Chronological(run, 0.0) && LastTime(run, 0.0) <= now
    requires var s := Reached(cfg, run); s.scan.received && now - s.scan.lastAt <= cfg.scanTimeout
    ensures var longer := run + [Stamped(now, FreshnessTimer)];
            && Chronological(longer, 0.0) && LastTime(longer, 0.0) == now && Checks(longer) == Checks(run) + [now]
            && Reached(cfg, longer) == Reached(cfg, run)
            && LastCheck(longer, 0.0) == now && LastScan(cfg, longer, 0.0) == LastScan(cfg, run, 0.0)
  {
    Snoc(cfg, run, 0.0, now, FreshnessTimer);
    SnocChecks(run, now, FreshnessTimer);
  }

  lemma PeriodicMore(run: seq<Stamped>, longer: seq<Stamped>, period: real, n: nat)
    requires Periodic(run, period, n) && Checks(longer) == Checks(run) + [Due(n + 1, period)]
    ensures Periodic(longer, period, n + 1)
  {
  }

  lemma {:induction false} FreshChecks(cfg: Config, base: seq<Stamped>, scanAt: real, period: real, n: nat)
    returns (run: seq<Stamped>)
    requires period > 0.0 && n > 0 && scanAt <= period
    requires Chronological(base, 0.0) && LastTime(base, 0.0) == scanAt && Checks(base) == []
    requires var s := Reached(cfg, base); s.scan.received && s.scan.lastAt == scanAt
    requires Due(n, period) - scanAt <= cfg.scanTimeout
    ensures Chronological(run, 0.0) && LastTime(run, 0.0) == Due(n, period) == LastCheck(run, 0.0)
    ensures Periodic(run, period, n)
    ensures Reached(cfg, run) == Reached(cfg, base) && LastScan(cfg, run, 0.0) == LastScan(cfg, base, 0.0)
    decreases n
  {
    var before := base;
    if n > 1 {
      before := FreshChecks(cfg, base, scanAt, period, n - 1);
    }
    FreshCheck(cfg, before, Due(n, period));
    run := before + [Stamped(Due(n, period), FreshnessTimer)];
    PeriodicMore(before, run, period, n - 1);
  }

  /** At one moment: TF, fusion, a scan, a frame, Follow on, a scan with one point, and a frame that moves. */
  lemma MovingSetup(timeout: real, at: real) returns (cfg: Config, run: seq<Stamped>)
    requires timeout > 0.0 && 0.0 <= at
    ensures cfg.scanTimeout == timeout && Chronological(run, 0.0) && LastTime(run, 0.0) == at && Checks(run) == []
    ensures LastScan(cfg, run, 0.0) == at
    ensures var s := Reached(cfg, run); s.scan.received && s.scan.lastAt == at && LastCommand(s) != STOP
  {
    cfg := Config("person", 1.0, 1.0, 20, true, LinearControl(true, 1.0, 1.0, 0.0, 5.0, 1.0), timeout, 0.0);
    var scene := Scene(640, 360, [Detection(0, 0, 100, 100, "person")]);
    var point := ScanPoint(50.0, 3.0);
    run := [];
    Snoc(cfg, run, 0.0, at, TransformTimer(true));
    SnocChecks(run, at, TransformTimer(true));
    run := run + [Stamped(at, TransformTimer(true))];
    Snoc(cfg, run, 0.0, at, SetLidar(true, true, true));
    SnocChecks(run, at, SetLidar(true, true, true));
    run := run + [Stamped(at, SetLidar(true, true, true))];
    Snoc(cfg, run, 0.0, at, Scan([]));
    SnocChecks(run, at, Scan([]));
    run := run + [Stamped(at, Scan([]))];
    var s := Reached(cfg, run);
    assert s.gates == Gates(false, true, false, true, false, true) && s.scan == ScanAge(true, at, false);
    run := MovingOnceScanned(cfg, run, at, scene, point);
  }

  lemma MovingOnceScanned(cfg: Config, scanned: seq<Stamped>, at: real, scene: Scene, point: ScanPoint)
    returns (run: seq<Stamped>)
    requires cfg.targetClass == "person" && cfg.minimumArea == 20 && cfg.scanTimeout > 0.0
    requires cfg.linearControl == LinearControl(true, 1.0, 1.0, 0.0, 5.0, 1.0)
    requires scene == Scene(640, 360, [Detection(0, 0, 100, 100, "person")]) && point == ScanPoint(50.0, 3.0)
    requires Chronological(scanned, 0.0) && LastTime(scanned, 0.0) == at && Checks(scanned) == []
    requires var s := Reached(cfg, scanned);
             s.gates == Gates(false, true, false, true, false, true) && s.scan == ScanAge(true, at, false)
    ensures Chronological(run, 0.0) && LastTime(run, 0.0) == at && Checks(run) == []
    ensures LastScan(cfg, run, 0.0) == at
    ensures var s := Reached(cfg, run); s.scan.received && s.scan.lastAt == at && LastCommand(s) != STOP
  {
    run := scanned;
    Snoc(cfg, run, 0.0, at, Frame(scene));
    SnocChecks(run, at, Frame(scene));
    FrameEffect(cfg, Reached(cfg, run), at, scene);
    run := run + [Stamped(at, Frame(scene))];
    Snoc(cfg, run, 0.0, at, SetFollow(true));
    SnocChecks(run, at, SetFollow(true));
    run := run + [Stamped(at, SetFollow(true))];
    var s := Reached(cfg, run);
    assert s.gates == Gates(true, true, true, true, false, true) && s.scan == ScanAge(true, at, false);
    run := MovingOnceFollowing(cfg, run, at, scene, point);
  }

  lemma MovingOnceFollowing(cfg: Config, following: seq<Stamped>, at: real, scene: Scene, point: ScanPoint)
    returns (run: seq<Stamped>)
    requires cfg.targetClass == "person" && cfg.minimumArea == 20 && cfg.scanTimeout > 0.0
    requires cfg.linearControl == LinearControl(true, 1.0, 1.0, 0.0, 5.0, 1.0)
    requires scene == Scene(640, 360, [Detection(0, 0, 100, 100, "person")]) && point == ScanPoint(50.0, 3.0)
    requires Chronological(following, 0.0) && LastTime(following, 0.0) == at && Checks(following) == []
    requires var s := Reached(cfg, following);
             s.gates == Gates(true, true, true, true, false, true) && s.scan == ScanAge(true, at, false)
    ensures Chronological(run, 0.0) && LastTime(run, 0.0) == at && Checks(run) == []
    ensures LastScan(cfg, run, 0.0) == at
    ensures var s := Reached(cfg, run); s.scan.received && s.scan.lastAt == at && LastCommand(s) != STOP
  {
    run := following;
    Snoc(cfg, run, 0.0, at, Scan([point]));
    SnocChecks(run, at, Scan([point]));
    run := run + [Stamped(at, Scan([point]))];
    var s := Reached(cfg, run);
    assert s.gates == Gates(true, true, true, true, false, true) && s.scan == ScanAge(true, at, false);
    assert s.control.points == [point];
    run := MovingOncePointed(cfg, run, at, scene, point);
  }

  lemma MovingOncePointed(cfg: Config, pointed: seq<Stamped>, at: real, scene: Scene, point: ScanPoint)
    returns (run: seq<Stamped>)
    requires cfg.targetClass == "person" && cfg.minimumArea == 20 && cfg.scanTimeout > 0.0
    requires cfg.linearControl == LinearControl(true, 1.0, 1.0, 0.0, 5.0, 1.0)
    requires scene == Scene(640, 360, [Detection(0, 0, 100, 100, "person")]) && point == ScanPoint(50.0, 3.0)
    requires Chronological(pointed, 0.0) && LastTime(pointed, 0.0) == at == LastScan(cfg, pointed, 0.0)
    requires Checks(pointed) == []
    requires var s := Reached(cfg, pointed);
             && s.gates == Gates(true, true, true, true, false, true) && s.scan == ScanAge(true, at, false)
             && s.control.points == [point]
    ensures Chronological(run, 0.0) && LastTime(run, 0.0) == at && Checks(run) == []
    ensures LastScan(cfg, run, 0.0) == at
    ensures var s := Reached(cfg, run); s.scan.received && s.scan.lastAt == at && LastCommand(s) != STOP
  {
    var s := Reached(cfg, pointed);
    Snoc(cfg, pointed, 0.0, at, Frame(scene));
    SnocChecks(pointed, at, Frame(scene));
    FrameEffect(cfg, s, at, scene);
    DemoFrameMoves(cfg, s, at, scene, point);
    run := pointed + [Stamped(at, Frame(scene))];
  }

  /**
   The dead-man bound cannot be lowered: for every timeout and period there is a run of a timer that checks
   whenever it is due, the next check being due right now, which meets the bound exactly.
   */
  lemma DeadManBoundIsMet(timeout: real, period: real)
    returns (cfg: Config, run: seq<Stamped>, now: real, n: nat)
    requires timeout > 0.0 && period > 0.0
    ensures cfg.scanTimeout == timeout && Chronological(run, 0.0) && LastTime(run, 0.0) <= now
    ensures Periodic(run, period, n) && now == Due(n + 1, period) && now - LastCheck(run, 0.0) == period
    ensures LastCommand(Reached(cfg, run)) != STOP
    ensures now - LastScan(cfg, run, 0.0) == timeout + period
  {
    n := ChecksUpTo(timeout, period);
    var scanAt := Due(n, period) - timeout;
    var base;
    cfg, base := MovingSetup(timeout, scanAt);
    run := FreshChecks(cfg, base, scanAt, period, n);
    now := Due(n + 1, period);
  }

  /** One person left of the centre, three metres away: the command is not a stop. */
  lemma DemoFrameMoves(cfg: Config, s: Tracker, at: real, scene: Scene, point: ScanPoint)
    requires cfg.targetClass == "person" && cfg.minimumArea == 20
    requires cfg.linearControl == LinearControl(true, 1.0, 1.0, 0.0, 5.0, 1.0)
    requires scene == Scene(640, 360, [Detection(0, 0, 100, 100, "person")]) && point == ScanPoint(50.0, 3.0)
    requires s.control.points == [point] && RangeReady(cfg, s, at)
    ensures Cached(AfterFrame(cfg, s, at, scene).control) != STOP
  {
    DemoTarget(scene, point);
    TargetInRangeIsFollowed(cfg, s, at, scene, 0, 3.0);
    DemoDrives(cfg.linearControl, Cached(AfterFrame(cfg, s, at, scene).control).linear);
  }

  lemma DemoTarget(scene: Scene, point: ScanPoint)
    requires scene == Scene(640, 360, [Detection(0, 0, 100, 100, "person")]) && point == ScanPoint(50.0, 3.0)
    ensures IsTarget(scene, 1, "person", 20, Some(0))
    ensures IsNearest([point], 0.0, 100.0, Finite(3.0))
  {
    AreaInLogicalPixels(scene.detections[0], 640, 360);
    assert InSpan([point][0], 0.0, 100.0);
  }

  lemma DemoDrives(law: LinearControl, linear: real)
    requires law == LinearControl(true, 1.0, 1.0, 0.0, 5.0, 1.0) && DrivesInProportion(law, linear, 3.0)
    ensures linear == 1.0
  {
    assert law.gain * (3.0 - law.keepDistance) == 2.0;
  }

  /** A check made after the scan has expired leaves a stop as the latest output, flag or no flag. */
  lemma ExpiredCheckStops(cfg: Config, run: seq<Stamped>, start: real, now: real)
    requires Chronological(run, start) && LastTime(run, start) <= now
    requires now - LastScan(cfg, run, start) > cfg.scanTimeout
    ensures LastCommand(Reached(cfg, run + [Stamped(now, FreshnessTimer)])) == STOP
  {
    var ticked := run + [Stamped(now, FreshnessTimer)];
    assert ticked[..|ticked| - 1] == run;
    ScanTimeIsRecorded(cfg, run, start);
    RunKeepsInvariant(cfg, run, start);
  }

  // ---------------------------------------------------------------- where a command comes from

  /** Follow or fusion changed hands in this step. */
  ghost predicate Toggles(s: Tracker, s': Tracker) {
    s.gates.enabled != s'.gates.enabled || s.gates.lidarEnabled != s'.gates.lidarEnabled
  }

  /** The scan whose points the node may still use: the latest one taken in since the last toggle. */
  ghost function SourceScan(cfg: Config, run: seq<Stamped>): (k: Option<nat>)
    ensures k.Some? ==> k.value < |run| && run[k.value].event.Scan?
  {
    if run == [] then None
    else
      var before := run[..|run| - 1];
      if TakesScan(Reached(cfg, before), run[|run| - 1].event) then Some(|run| - 1)
      else if Toggles(Reached(cfg, before), Reached(cfg, run)) then None
      else SourceScan(cfg, before)
  }

  lemma SourceScanStep(cfg: Config, run: seq<Stamped>)
    requires SourceScan(cfg, run).Some? && SourceScan(cfg, run).value < |run| - 1
    ensures SourceScan(cfg, run[..|run| - 1]) == SourceScan(cfg, run)
    ensures !TakesScan(Reached(cfg, run[..|run| - 1]), run[|run| - 1].event)
    ensures !Toggles(Reached(cfg, run[..|run| - 1]), Reached(cfg, run))
  {
  }

  /** Between the source scan and the end of the run no other scan was taken in and nothing was toggled. */
  lemma {:induction false} SourceScanIsLatest(cfg: Config, run: seq<Stamped>, k: nat)
    requires SourceScan(cfg, run).Some? && SourceScan(cfg, run).value < k < |run|
    ensures !TakesScan(Reached(cfg, run[..k]), run[k].event)
    ensures !Toggles(Reached(cfg, run[..k]), Reached(cfg, run[..k + 1]))
  {
    SourceScanStep(cfg, run);
    if k == |run| - 1 {
      assert run[..k + 1] == run;
    } else {
      var before := run[..|run| - 1];
      SourceScanIsLatest(cfg, before, k);
      assert before[..k] == run[..k] && before[..k + 1] == run[..k + 1];
    }
  }

  /** The points in use are those of the source scan, or there are none. */
  ghost predicate PointsFromSource(cfg: Config, run: seq<Stamped>) {
    var s := Reached(cfg, run);
    var k := SourceScan(cfg, run);
    s.control.points != [] ==>
      && s.gates.lidarEnabled && k.Some?
      && s.control.points == run[k.value].event.points && s.scan.lastAt == run[k.value].at
  }

  lemma FramePoints(cfg: Config, s: Tracker, now: real, scene: Scene)
    ensures var c := AfterFrame(cfg, s, now, scene).control; c.points == s.control.points || c.points == []
  {
  }

  lemma {:induction false} PointsComeFromSource(cfg: Config, run: seq<Stamped>, start: real)
    requires Chronological(run, start)
    ensures PointsFromSource(cfg, run)
  {
    if run != [] {
      var before := run[..|run| - 1];
      PointsComeFromSource(cfg, before, start);
      RunKeepsInvariant(cfg, before, start);
      var s, now := Reached(cfg, before), run[|run| - 1].at;
      match run[|run| - 1].event
      case Frame(scene) =>
        FrameEffect(cfg, s, now, scene);
        FramePoints(cfg, s, now, scene);
      case Scan(points) =>
      case FreshnessTimer =>
      case TransformTimer(available) =>
      case SetLidar(on, available, active) =>
      case SetFollow(on) =>
    }
  }

  /** With a range at hand, a nonzero result names its target and its point. */
  lemma FrameJustified(cfg: Config, s: Tracker, now: real, scene: Scene) returns (i: nat, range: Range)
    requires RangeReady(cfg, s, now)
    requires Cached(AfterFrame(cfg, s, now, scene).control) != STOP
    ensures scene.width > 0 && scene.height > 0
    ensures IsTarget(scene, |scene.detections|, cfg.targetClass, cfg.minimumArea, Some(i))
    ensures range.Finite? && s.control.points != []
    ensures IsNearest(s.control.points, scene.detections[i].x1 as real, scene.detections[i].x2 as real, range)
    ensures Cached(AfterFrame(cfg, s, now, scene).control) == ControlLaw(cfg, scene, i, range)
  {
    var selected := Target(scene, cfg.targetClass, cfg.minimumArea);
    assert selected.Some?;
    i := selected.value;
    range := NearestRange(s.control.points, scene.detections[i].x1 as real, scene.detections[i].x2 as real);
    TargetAmongIsTarget(scene, |scene.detections|, cfg.targetClass, cfg.minimumArea, selected);
    NearestRangeIsNearest(s.control.points, scene.detections[i].x1 as real, scene.detections[i].x2 as real, range);
  }

  /** What a nonzero command must be made of: one target of one frame, and one fresh scan. */
  ghost predicate Justified(cfg: Config, run: seq<Stamped>, now: real, scene: Scene, c: Command, k: nat, i: nat, range: Range)
    requires k < |run| && run[k].event.Scan?
  {
    && scene.width > 0 && scene.height > 0
    && IsTarget(scene, |scene.detections|, cfg.targetClass, cfg.minimumArea, Some(i))
    && range.Finite?
    && IsNearest(run[k].event.points, scene.detections[i].x1 as real, scene.detections[i].x2 as real, range)
    && c == ControlLaw(cfg, scene, i, range)
    && now - run[k].at <= cfg.scanTimeout
  }

  /** This callback sends something, and the last thing sent is not a stop. */
  ghost predicate SendsNonzero(cfg: Config, run: seq<Stamped>, now: real, e: Event) {
    var s := Reached(cfg, run);
    After(cfg, s, now, e).output != s.output && LastCommand(After(cfg, s, now, e)) != STOP
  }

  /**
   Every nonzero command is sent by a frame. It is the control law applied to that frame's first largest
   matching detection and to the nearest in-span point of the latest scan taken in since the last toggle,
   and it keeps to both speed limits.
   */
  lemma CommandProvenance(cfg: Config, run: seq<Stamped>, start: real, now: real, e: Event)
    requires Chronological(run, start) && LastTime(run, start) <= now
    ensures SendsNonzero(cfg, run, now, e) ==>
              && e.Frame? && SourceScan(cfg, run).Some?
              && var c := LastCommand(After(cfg, Reached(cfg, run), now, e));
                 && (exists i: nat, range: Range {:trigger ControlLaw(cfg, e.scene, i, range)} ::
                       Justified(cfg, run, now, e.scene, c, SourceScan(cfg, run).value, i, range))
                 && -MaxReal(0.0, cfg.linearControl.maximumSpeed) <= c.linear <= MaxReal(0.0, cfg.linearControl.maximumSpeed)
                 && -MaxReal(0.0, cfg.maximum) <= c.angular <= MaxReal(0.0, cfg.maximum)
  {
    var s := Reached(cfg, run);
    RunKeepsInvariant(cfg, run, start);
    PointsComeFromSource(cfg, run, start);
    if e.Frame? && SendsNonzero(cfg, run, now, e) {
      FrameEffect(cfg, s, now, e.scene);
      var i, range := FrameJustified(cfg, s, now, e.scene);
      assert Justified(cfg, run, now, e.scene, Cached(After(cfg, s, now, e).control), SourceScan(cfg, run).value, i, range);
    }
  }

  // ---------------------------------------------------------------- a target in range is followed

  /** The middle of the detection on the 640-pixel axis: the mean of its two scaled, truncated edges. */
  ghost function Midpoint(scene: Scene, i: nat): real
    requires scene.width > 0 && i < |scene.detections|
  {
    (scene.detections[i].x1 * 640 / scene.width + scene.detections[i].x2 * 640 / scene.width) as real / 2.0
  }

  /** In proportion to the offset of the target from the centre. */
  ghost predicate TurnsInProportion(cfg: Config, angular: real, midpoint: real) {
    cfg.maximum >= 0.0 ==> angular == Cut(cfg.gain * (320.0 - midpoint), cfg.maximum)
  }

  /** In proportion to the distance error inside the window, and not at all outside. */
  ghost predicate DrivesInProportion(law: LinearControl, linear: real, m: real) {
    && (law.enabled && law.maximumSpeed >= 0.0 && law.minimumRange <= m <= law.maximumRange ==>
          linear == Cut(law.gain * (m - law.keepDistance), law.maximumSpeed))
    && (!law.enabled || m < law.minimumRange || m > law.maximumRange ==> linear == 0.0)
  }

  lemma AngularInProportion(cfg: Config, midpoint: real)
    ensures TurnsInProportion(cfg, AngularCommand(midpoint, 640.0, cfg.gain, cfg.maximum), midpoint)
  {
    if cfg.maximum >= 0.0 {
      AngularCommandSaturates(midpoint, cfg.gain, cfg.maximum);
    }
  }

  lemma LinearInProportion(law: LinearControl, m: real)
    ensures DrivesInProportion(law, LinearCommand(Finite(m), law), m)
  {
    if law.enabled && law.maximumSpeed >= 0.0 && law.minimumRange <= m <= law.maximumRange {
      LinearCommandSaturates(m, law);
    }
  }

  lemma LawUsesTheMidpoint(cfg: Config, scene: Scene, i: nat, range: Range)
    requires scene.width > 0 && scene.height > 0 && i < |scene.detections|
    ensures ControlLaw(cfg, scene, i, range)
            == Command(LinearCommand(range, cfg.linearControl),
                       AngularCommand(Midpoint(scene, i), 640.0, cfg.gain, cfg.maximum))
  {
    var d := scene.detections[i];
    BoxInLogicalPixels(d, scene.width, scene.height);
    var box := LogicalBox(d, scene.width, scene.height);
    MeanOfEdges(box.x, box.width, d.x1 * 640 / scene.width, d.x2 * 640 / scene.width);
  }

  lemma MeanOfEdges(x: int, width: int, left: int, right: int)
    requires x == left && x + width == right
    ensures x as real + width as real * 0.5 == (left + right) as real / 2.0
  {
  }

  lemma TargetIsSelected(cfg: Config, s: Tracker, scene: Scene, i: nat, m: real)
    requires scene.width > 0 && scene.height > 0 && i < |scene.detections|
    requires IsTarget(scene, |scene.detections|, cfg.targetClass, cfg.minimumArea, Some(i))
    requires IsNearest(s.control.points, scene.detections[i].x1 as real, scene.detections[i].x2 as real, Finite(m))
    ensures Target(scene, cfg.targetClass, cfg.minimumArea) == Some(i)
    ensures NearestRange(s.control.points, scene.detections[i].x1 as real, scene.detections[i].x2 as real) == Finite(m)
  {
    TargetAmongIsTarget(scene, |scene.detections|, cfg.targetClass, cfg.minimumArea, Some(i));
    NearestRangeIsNearest(s.control.points, scene.detections[i].x1 as real, scene.detections[i].x2 as real, Finite(m));
  }

  lemma FrameSteers(cfg: Config, s: Tracker, now: real, scene: Scene, i: nat, m: real)
    requires RangeReady(cfg, s, now) && scene.width > 0 && scene.height > 0 && i < |scene.detections|
    requires Target(scene, cfg.targetClass, cfg.minimumArea) == Some(i)
    requires NearestRange(s.control.points, scene.detections[i].x1 as real, scene.detections[i].x2 as real) == Finite(m)
    ensures Cached(AfterFrame(cfg, s, now, scene).control) == ControlLaw(cfg, scene, i, Finite(m))
  {
  }

  /**
   A frame whose first largest match has a nearest point at `m` metres, with fusion, TF and a fresh scan at hand:
   the cached command turns towards the midpoint of that detection and drives towards the keep distance, each in
   proportion up to its limit, and an enabled Follow sends exactly this command.
   */
  lemma TargetInRangeIsFollowed(cfg: Config, s: Tracker, now: real, scene: Scene, i: nat, m: real)
    requires RangeReady(cfg, s, now) && scene.width > 0 && scene.height > 0 && i < |scene.detections|
    requires IsTarget(scene, |scene.detections|, cfg.targetClass, cfg.minimumArea, Some(i))
    requires IsNearest(s.control.points, scene.detections[i].x1 as real, scene.detections[i].x2 as real, Finite(m))
    ensures var s' := After(cfg, s, now, Frame(scene));
            && TurnsInProportion(cfg, Cached(s'.control).angular, Midpoint(scene, i))
            && DrivesInProportion(cfg.linearControl, Cached(s'.control).linear, m)
            && (s.gates.enabled ==> Sent(s, s', Cached(s'.control)))
  {
    TargetIsSelected(cfg, s, scene, i, m);
    FrameSteers(cfg, s, now, scene, i, m);
    LawUsesTheMidpoint(cfg, scene, i, Finite(m));
    AngularInProportion(cfg, Midpoint(scene, i));
    LinearInProportion(cfg.linearControl, m);
    FrameEffect(cfg, s, now, scene);
  }

  lemma CutSide(gain: real, error: real, limit: real)
    requires gain > 0.0 && limit > 0.0
    ensures Cut(gain * error, limit) > 0.0 <==> error > 0.0
    ensures Cut(gain * error, limit) < 0.0 <==> error < 0.0
  {
    SignOfProduct(gain, error);
  }

  lemma ProportionTurns(cfg: Config, angular: real, midpoint: real)
    requires TurnsInProportion(cfg, angular, midpoint) && cfg.gain > 0.0 && cfg.maximum > 0.0
    ensures (angular > 0.0 <==> midpoint < 320.0) && (angular < 0.0 <==> midpoint > 320.0)
  {
    CutSide(cfg.gain, 320.0 - midpoint, cfg.maximum);
  }

  /** With positive gain and limit, Follow turns to the side on which the target's midpoint lies, and to no other. */
  lemma TurnsTowardsTheMidpoint(cfg: Config, s: Tracker, now: real, scene: Scene, i: nat, m: real)
    requires RangeReady(cfg, s, now) && scene.width > 0 && scene.height > 0 && i < |scene.detections|
    requires IsTarget(scene, |scene.detections|, cfg.targetClass, cfg.minimumArea, Some(i))
    requires IsNearest(s.control.points, scene.detections[i].x1 as real, scene.detections[i].x2 as real, Finite(m))
    requires cfg.gain > 0.0 && cfg.maximum > 0.0
    ensures var c := Cached(After(cfg, s, now, Frame(scene)).control);
            && (c.angular > 0.0 <==> Midpoint(scene, i) < 320.0)
            && (c.angular < 0.0 <==> Midpoint(scene, i) > 320.0)
  {
    TargetInRangeIsFollowed(cfg, s, now, scene, i, m);
    ProportionTurns(cfg, Cached(After(cfg, s, now, Frame(scene)).control).angular, Midpoint(scene, i));
  }

  /** Without a target, or without a point in its span, an enabled Follow is told to stop. */
  lemma NothingToFollowStops(cfg: Config, s: Tracker, now: real, scene: Scene)
    requires scene.width == 0 || scene.height == 0
             || IsTarget(scene, |scene.detections|, cfg.targetClass, cfg.minimumArea, None)
             || exists i: nat ::
                  && i < |scene.detections|
                  && IsTarget(scene, |scene.detections|, cfg.targetClass, cfg.minimumArea, Some(i))
                  && IsNearest(s.control.points, scene.detections[i].x1 as real, scene.detections[i].x2 as real, Unavailable)
    ensures var s' := After(cfg, s, now, Frame(scene));
            Cached(s'.control) == STOP && (s.gates.enabled ==> Sent(s, s', STOP))
  {
    if scene.width > 0 && scene.height > 0 {
      if IsTarget(scene, |scene.detections|, cfg.targetClass, cfg.minimumArea, None) {
        TargetAmongIsTarget(scene, |scene.detections|, cfg.targetClass, cfg.minimumArea, None);
      } else {
        var i: nat :| && i < |scene.detections|
                      && IsTarget(scene, |scene.detections|, cfg.targetClass, cfg.minimumArea, Some(i))
                      && IsNearest(s.control.points, scene.detections[i].x1 as real, scene.detections[i].x2 as real, Unavailable);
        TargetAmongIsTarget(scene, |scene.detections|, cfg.targetClass, cfg.minimumArea, Some(i));
        NearestRangeIsNearest(s.control.points, scene.detections[i].x1 as real, scene.detections[i].x2 as real, Unavailable);
      }
    }
    FrameEffect(cfg, s, now, scene);
  }

  /** The span kept for later scans is that of the frame's target, in image columns, or it is empty. */
  lemma FrameRemembersTheSpan(cfg: Config, s: Tracker, now: real, scene: Scene, t: Option<nat>)
    requires scene.width > 0 && scene.height > 0
    requires IsTarget(scene, |scene.detections|, cfg.targetClass, cfg.minimumArea, t)
    ensures var c := After(cfg, s, now, Frame(scene)).control;
            match t
            case None => c.targetLeft == c.targetRight == 0.0
            case Some(i) => c.targetLeft == scene.detections[i].x1 as real && c.targetRight == scene.detections[i].x2 as real
  {
    TargetAmongIsTarget(scene, |scene.detections|, cfg.targetClass, cfg.minimumArea, t);
  }

  /** A frame without a fresh scan forgets points and command, and sends an enabled Follow a stop. */
  lemma StaleFrameStops(cfg: Config, s: Tracker, now: real, scene: Scene)
    requires !(s.gates.lidarEnabled && s.gates.transformReady && s.scan.received && now - s.scan.lastAt <= cfg.scanTimeout)
    ensures var s' := After(cfg, s, now, Frame(scene));
            s'.control.points == [] && Cached(s'.control) == STOP && (s.gates.enabled ==> Sent(s, s', STOP))
  {
    FrameEffect(cfg, s, now, scene);
  }

  /** TF is polled until it is there or the deadline has passed; once there it stays, however it was found. */
  lemma TransformIsPolled(cfg: Config, s: Tracker, now: real, e: Event)
    ensures var s' := After(cfg, s, now, e);
            && (s.gates.transformReady ==> s'.gates.transformReady)
            && (!s.gates.transformPolling ==> !s'.gates.transformPolling)
            && (e.TransformTimer? && s.gates.transformPolling ==>
                  && (s'.gates.transformPolling <==> !e.transformAvailable && now < cfg.transformDeadline)
                  && (e.transformAvailable ==> s'.gates.transformReady))
            && (s'.gates.transformReady && !s.gates.transformReady ==>
                  (e.TransformTimer? || e.SetLidar?) && e.transformAvailable)
  {
    if e.Frame? {
      FrameEffect(cfg, s, now, e.scene);
    }
  }

  /**
   A scan taken in is what the node knows from then on, at that time; it sends nothing, except that a moving
   Follow whose target span holds no point any more is stopped at once.
   */
  lemma ScanIsTakenIn(cfg: Config, s: Tracker, now: real, points: seq<ScanPoint>)
    requires s.gates.scanSubscribed && s.gates.transformReady
    ensures var s' := After(cfg, s, now, Scan(points));
            && s'.gates == s.gates && s'.scan == ScanAge(true, now, false) && s'.control.points == points
            && IsNearest(points, s.control.targetLeft, s.control.targetRight, s'.control.targetRange)
            && (s'.control.targetRange.Finite? ==> s'.output == s.output && Cached(s'.control) == Cached(s.control))
            && (s'.control.targetRange.Unavailable? ==>
                  Cached(s'.control) == STOP
                  && if s.gates.enabled && Cached(s.control) != STOP then Sent(s, s', STOP) else s'.output == s.output)
  {
    var range := NearestRange(points, s.control.targetLeft, s.control.targetRight);
    NearestRangeIsNearest(points, s.control.targetLeft, s.control.targetRight, range);
  }

  /** A frame has been delivered in this run. */
  ghost predicate FrameSeen(run: seq<Stamped>) {
    run != [] && (run[|run| - 1].event.Frame? || FrameSeen(run[..|run| - 1]))
  }

  lemma OnlyFramesAreInputs(cfg: Config, s: Tracker, now: real, e: Event)
    ensures After(cfg, s, now, e).gates.inputsReady <==> s.gates.inputsReady || e.Frame?
  {
    if e.Frame? {
      FrameEffect(cfg, s, now, e.scene);
    }
  }

  lemma {:induction false} FramesMakeInputsReady(cfg: Config, run: seq<Stamped>)
    ensures Reached(cfg, run).gates.inputsReady <==> FrameSeen(run)
  {
    if run != [] {
      FramesMakeInputsReady(cfg, run[..|run| - 1]);
      OnlyFramesAreInputs(cfg, Reached(cfg, run[..|run| - 1]), run[|run| - 1].at, run[|run| - 1].event);
    }
  }

  /**
   Follow goes on exactly when a frame has been seen and a scan within the timeout has been taken in since fusion
   went on; otherwise the request changes nothing. Going on or off starts from a stop and without old points.
   */
  lemma FollowSwitches(cfg: Config, run: seq<Stamped>, start: real, now: real, on: bool)
    requires Chronological(run, start) && LastTime(run, start) <= now
    ensures var s := Reached(cfg, run);
            var s' := After(cfg, s, now, SetFollow(on));
            && (on && !s.gates.enabled ==>
                  (s'.gates.enabled <==>
                     FrameSeen(run) && s.scan.received && now - LastScan(cfg, run, start) <= cfg.scanTimeout))
            && (!on ==> !s'.gates.enabled)
            && (s'.gates.enabled != s.gates.enabled ==>
                  Sent(s, s', STOP) && s'.control.points == [] && Cached(s'.control) == STOP)
            && (s'.gates.enabled == s.gates.enabled ==> s' == s)
  {
    RunKeepsInvariant(cfg, run, start);
    ScanTimeIsRecorded(cfg, run, start);
    FramesMakeInputsReady(cfg, run);
  }

  /** Fusion goes on exactly when TF can be had and a scan publisher is there, and takes Follow off when it goes off. */
  lemma FusionSwitches(cfg: Config, s: Tracker, now: real, on: bool, transformAvailable: bool, publisherActive: bool)
    requires Gated(s)
    ensures var s' := After(cfg, s, now, SetLidar(on, transformAvailable, publisherActive));
            && (on && !s.gates.lidarEnabled ==>
                  && (s'.gates.lidarEnabled <==> (s.gates.transformReady || transformAvailable) && publisherActive)
                  && s'.scan == s.scan && s'.output == s.output)
            && (!on ==> !s'.gates.lidarEnabled && !s'.gates.enabled)
            && (s.gates.enabled && !s'.gates.enabled ==> Sent(s, s', STOP))
            && (s.gates.lidarEnabled && !s'.gates.lidarEnabled ==> !s'.scan.received && s'.control.points == [])
  {
  }

  // ---------------------------------------------------------------- the output port

  lemma StepOutput(cfg: Config, s: Tracker, now: real, e: Event)
    ensures var out := After(cfg, s, now, e).output;
            || out == s.output
            || (|out| == |s.output| + 1 && out[..|s.output|] == s.output && (out[|s.output|].Preview? <==> cfg.dryRun))
  {
  }

  /** A dry run only ever previews, and any other run only ever publishes. */
  lemma {:induction false} DryRunNeverPublishes(cfg: Config, run: seq<Stamped>, k: nat)
    requires k < |Reached(cfg, run).output|
    ensures Reached(cfg, run).output[k].Preview? <==> cfg.dryRun
  {
    if run != [] {
      var before := run[..|run| - 1];
      StepOutput(cfg, Reached(cfg, before), run[|run| - 1].at, run[|run| - 1].event);
      if k < |Reached(cfg, before).output| {
        DryRunNeverPublishes(cfg, before, k);
        assert Reached(cfg, run).output[..|Reached(cfg, before).output|][k] == Reached(cfg, before).output[k];
      }
    }
  }
}
