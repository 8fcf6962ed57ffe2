/**
 `PerceptionActions` driving the Follow controller through its two services. Between two requests of the
 agent the tracker goes on receiving frames, scans and timer ticks; only the agent uses the services.
 */
module PerceptionAgent {
  import opened Prelude
  import opened FollowController
  import opened FollowSafety

  datatype Kind = FollowService | FusionService

  datatype Status = RealSuccess | Failed | Unknown

  /** A call ends with a receipt, or the transport raises and the caller learns nothing. */
  datatype Outcome = Receipt(status: Status) | Raised

  /** What became of a submitted request: its answer arrived, no answer arrived, or waiting for it raised. */
  datatype Reply = Answer | NoAnswer(handled: bool) | Exception(handled: bool)

  /** The world around one service request; `quiet` are the tracker's own callbacks since the last one. */
  datatype Exchange = Exchange(
    quiet: seq<Stamped>,
    serviceReady: bool,
    submittedAt: real,
    handledAt: real,
    transformAvailable: bool,
    publisherActive: bool,
    reply: Reply)

  datatype Request = CameraRequest(on: bool) | ServiceRequest(kind: Kind, on: bool, at: real, outcome: Outcome)

  /** What this entry last confirmed; `None` is unknown. */
  datatype Memory = Memory(follow: Option<bool>, fusion: Option<bool>)

  datatype World = World(memory: Memory, tracker: Tracker, sent: seq<Request>)

  // ---------------------------------------------------------------- one request

  predicate OwnCallbacks(events: seq<Stamped>) {
    forall k :: 0 <= k < |events| ==> !events[k].event.SetLidar? && !events[k].event.SetFollow?
  }

  function Passed(cfg: Config, t: Tracker, events: seq<Stamped>): Tracker
    decreases |events|
  {
    if events == [] then t
    else Passed(cfg, After(cfg, t, events[0].at, events[0].event), events[1..])
  }

  function RequestEvent(kind: Kind, on: bool, x: Exchange): Event {
    match kind
    case FollowService => SetFollow(on)
    case FusionService => SetLidar(on, x.transformAvailable, x.publisherActive)
  }

  predicate Accepted(cfg: Config, t: Tracker, kind: Kind, on: bool, x: Exchange) {
    match kind
    case FollowService => FollowAccepted(cfg, t, x.handledAt, on)
    case FusionService => LidarAccepted(t, on, x.transformAvailable, x.publisherActive)
  }

  predicate Submitted(deadline: real, x: Exchange) {
    x.serviceReady && x.submittedAt < deadline
  }

  predicate Handled(deadline: real, x: Exchange) {
    Submitted(deadline, x) && (x.reply.Answer? || x.reply.handled)
  }

  function TrackerAfter(cfg: Config, t: Tracker, kind: Kind, on: bool, deadline: real, x: Exchange): Tracker {
    var passed := Passed(cfg, t, x.quiet);
    if Handled(deadline, x) then After(cfg, passed, x.handledAt, RequestEvent(kind, on, x)) else passed
  }

  function OutcomeOf(cfg: Config, t: Tracker, kind: Kind, on: bool, deadline: real, x: Exchange): Outcome {
    if !Submitted(deadline, x) then Receipt(Failed)
    else match x.reply
      case Answer => Receipt(if Accepted(cfg, Passed(cfg, t, x.quiet), kind, on, x) then RealSuccess else Failed)
      case NoAnswer(_) => Receipt(Unknown)
      case Exception(_) => Raised
  }

  /** Any receipt but a success forgets the requested value; a confirmed fusion off implies standby. */
  function Noted(m: Memory, kind: Kind, on: bool, outcome: Outcome): Memory {
    match outcome
    case Raised => m
    case Receipt(status) =>
      var confirmed := if status == RealSuccess then Some(on) else None;
      match kind
      case FollowService => m.(follow := confirmed)
      case FusionService =>
        Memory(if confirmed == Some(false) then Some(false) else m.follow, confirmed)
  }

  function AfterSetState(cfg: Config, w: World, kind: Kind, on: bool, deadline: real, x: Exchange): World {
    var outcome := OutcomeOf(cfg, w.tracker, kind, on, deadline, x);
    World(Noted(w.memory, kind, on, outcome),
          TrackerAfter(cfg, w.tracker, kind, on, deadline, x),
          if Submitted(deadline, x) then w.sent + [ServiceRequest(kind, on, x.submittedAt, outcome)] else w.sent)
  }

  // ---------------------------------------------------------------- memory agrees with the tracker

  ghost predicate Agrees(w: World) {
    && (w.memory.follow.Some? ==> w.memory.follow.value == w.tracker.gates.enabled)
    && (w.memory.fusion.Some? ==> w.memory.fusion.value == w.tracker.gates.lidarEnabled)
  }

  ghost predicate FollowNeedsFusion(t: Tracker) {
    t.gates.enabled ==> t.gates.lidarEnabled
  }

  /** The tracker's own callbacks never switch Follow or fusion. */
  lemma {:induction false} OwnCallbacksKeepFlags(cfg: Config, t: Tracker, events: seq<Stamped>)
    requires OwnCallbacks(events)
    ensures var t' := Passed(cfg, t, events);
            t'.gates.enabled == t.gates.enabled && t'.gates.lidarEnabled == t.gates.lidarEnabled
    decreases |events|
  {
    if events != [] {
      var now := events[0].at;
      match events[0].event {
        case Frame(scene) => FrameEffect(cfg, t, now, scene);
        case Scan(points) =>
        case FreshnessTimer =>
        case TransformTimer(available) =>
      }
      OwnCallbacksKeepFlags(cfg, After(cfg, t, now, events[0].event), events[1..]);
    }
  }

  /**
   The exact way a request can leave a wrong memory: the service acted on it, but the agent never heard.
   Losing the answer only betrays a remembered Follow when fusion goes off under it; an exception leaves
   every remembered value in place and betrays whichever the request overturned.
   */
  ghost predicate Betrays(cfg: Config, w: World, kind: Kind, on: bool, deadline: real, x: Exchange) {
    && Handled(deadline, x)
    && (match x.reply
        case Answer => false
        case NoAnswer(_) => kind == FusionService && !on && w.memory.follow == Some(true)
        case Exception(_) =>
          && Accepted(cfg, Passed(cfg, w.tracker, x.quiet), kind, on, x)
          && (match kind
              case FollowService => w.memory.follow == Some(!on)
              case FusionService => w.memory.fusion == Some(!on) || (!on && w.memory.follow == Some(true))))
  }

  lemma SetStateAgreement(cfg: Config, w: World, kind: Kind, on: bool, deadline: real, x: Exchange)
    requires Agrees(w) && FollowNeedsFusion(w.tracker) && OwnCallbacks(x.quiet)
    ensures var w' := AfterSetState(cfg, w, kind, on, deadline, x);
            FollowNeedsFusion(w'.tracker) && (Agrees(w') <==> !Betrays(cfg, w, kind, on, deadline, x))
  {
    OwnCallbacksKeepFlags(cfg, w.tracker, x.quiet);
    var passed := Passed(cfg, w.tracker, x.quiet);
    RequestEffect(cfg, passed, kind, on, x);
    NotedAgreement(w.memory, passed.gates, TrackerAfter(cfg, w.tracker, kind, on, deadline, x).gates, kind, on,
                   Handled(deadline, x) && Accepted(cfg, passed, kind, on, x),
                   OutcomeOf(cfg, w.tracker, kind, on, deadline, x));
  }

  /** The bookkeeping alone: `took` says the flag was switched, `outcome` what the agent heard. */
  lemma NotedAgreement(m: Memory, g: Gates, g': Gates, kind: Kind, on: bool, took: bool, outcome: Outcome)
    requires g.enabled ==> g.lidarEnabled
    requires m.follow.Some? ==> m.follow.value == g.enabled
    requires m.fusion.Some? ==> m.fusion.value == g.lidarEnabled
    requires kind == FollowService ==>
               g'.enabled == (if took then on else g.enabled) && g'.lidarEnabled == g.lidarEnabled
    requires kind == FusionService ==>
               && g'.lidarEnabled == (if took then on else g.lidarEnabled)
               && g'.enabled == (g.enabled && g'.lidarEnabled)
    requires outcome == Receipt(RealSuccess) ==> took
    ensures var m' := Noted(m, kind, on, outcome);
            ((m'.follow.Some? ==> m'.follow.value == g'.enabled) && (m'.fusion.Some? ==> m'.fusion.value == g'.lidarEnabled))
            <==> !(took && (match outcome
                            case Receipt(status) =>
                              status != RealSuccess && kind == FusionService && !on && m.follow == Some(true)
                            case Raised =>
                              if kind == FollowService then m.follow == Some(!on)
                              else m.fusion == Some(!on) || (!on && m.follow == Some(true))))
  {
  }

  /** An accepted request sets its own flag; only fusion going off takes Follow with it. */
  lemma RequestEffect(cfg: Config, t: Tracker, kind: Kind, on: bool, x: Exchange)
    requires FollowNeedsFusion(t)
    ensures var g := After(cfg, t, x.handledAt, RequestEvent(kind, on, x)).gates;
            && (kind == FollowService ==>
                  && g.enabled == (if Accepted(cfg, t, kind, on, x) then on else t.gates.enabled)
                  && g.lidarEnabled == t.gates.lidarEnabled && (g.enabled ==> g.lidarEnabled))
            && (kind == FusionService ==>
                  && g.lidarEnabled == (if Accepted(cfg, t, kind, on, x) then on else t.gates.lidarEnabled)
                  && g.enabled == (t.gates.enabled && on))
  {
  }

  /** A confirmed request leaves its flag in the tracker exactly as requested. */
  lemma ConfirmedMeansSet(cfg: Config, w: World, kind: Kind, on: bool, deadline: real, x: Exchange)
    requires OutcomeOf(cfg, w.tracker, kind, on, deadline, x) == Receipt(RealSuccess)
    ensures var gates := AfterSetState(cfg, w, kind, on, deadline, x).tracker.gates;
            (if kind == FollowService then gates.enabled else gates.lidarEnabled) == on
  {
  }

  // ---------------------------------------------------------------- the flows

  datatype Action =
    | StartCamera | StopCamera
    | EnableLidar | DisableLidar
    | EnableTracking | DisableTracking
    | StartFollowing | StopFollowing | ToggleFollowing

  /** The clock, the camera topic and the two exchanges one action may meet. */
  datatype Script = Script(
    deadline: real,
    startedAt: real,
    cameraSubscribed: bool,
    first: Exchange,
    clockBetween: real,
    second: Exchange)

  function Camera(w: World, on: bool, subscribed: bool): (World, Outcome) {
    if subscribed then (w.(sent := w.sent + [CameraRequest(on)]), Receipt(RealSuccess)) else (w, Receipt(Failed))
  }

  function SetState(cfg: Config, w: World, kind: Kind, on: bool, deadline: real, x: Exchange): (World, Outcome) {
    (AfterSetState(cfg, w, kind, on, deadline, x), OutcomeOf(cfg, w.tracker, kind, on, deadline, x))
  }

  function Start(cfg: Config, w: World, s: Script): (World, Outcome) {
    if s.startedAt >= s.deadline then (w, Receipt(Failed))
    else
      var (filming, camera) := Camera(w, true, s.cameraSubscribed);
      if camera != Receipt(RealSuccess) then (filming, camera)
      else
        var (fused, fusion) := SetState(cfg, filming, FusionService, true, s.deadline, s.first);
        if fusion != Receipt(RealSuccess) then (fused, fusion)
        else if s.clockBetween >= s.deadline then (fused, Receipt(Failed))
        else SetState(cfg, fused, FollowService, true, s.deadline, s.second)
  }

  function Stop(cfg: Config, w: World, s: Script): (World, Outcome) {
    var (standby, follow) := SetState(cfg, w, FollowService, false, s.deadline, s.first);
    if follow != Receipt(RealSuccess) then (standby, follow)
    else if s.clockBetween >= s.deadline then (standby, Receipt(Failed))
    else SetState(cfg, standby, FusionService, false, s.deadline, s.second)
  }

  function CameraOff(cfg: Config, w: World, s: Script): (World, Outcome) {
    var (standby, follow) := SetState(cfg, w, FollowService, false, s.deadline, s.first);
    if follow != Receipt(RealSuccess) then (standby, follow)
    else if s.clockBetween >= s.deadline then (standby, Receipt(Failed))
    else Camera(standby, false, s.cameraSubscribed)
  }

  function Toggle(cfg: Config, w: World, s: Script): (World, Outcome) {
    match w.memory.follow
    case None => (w, Receipt(Failed))
    case Some(following) => if following then Stop(cfg, w, s) else Start(cfg, w, s)
  }

  function Perform(cfg: Config, w: World, action: Action, s: Script): (World, Outcome) {
    match action
    case StartCamera => Camera(w, true, s.cameraSubscribed)
    case StopCamera => CameraOff(cfg, w, s)
    case EnableLidar => SetState(cfg, w, FusionService, true, s.deadline, s.first)
    case DisableLidar => SetState(cfg, w, FusionService, false, s.deadline, s.first)
    case EnableTracking => SetState(cfg, w, FollowService, true, s.deadline, s.first)
    case DisableTracking => SetState(cfg, w, FollowService, false, s.deadline, s.first)
    case StartFollowing => Start(cfg, w, s)
    case StopFollowing => Stop(cfg, w, s)
    case ToggleFollowing => Toggle(cfg, w, s)
  }

  /** A request an action makes, and the world in which it makes it. */
  datatype Asked = Asked(world: World, kind: Kind, on: bool, exchange: Exchange)

  ghost function StartAsks(cfg: Config, w: World, s: Script): seq<Asked> {
    if s.startedAt >= s.deadline || !s.cameraSubscribed then []
    else
      var filming := Camera(w, true, s.cameraSubscribed).0;
      var (fused, fusion) := SetState(cfg, filming, FusionService, true, s.deadline, s.first);
      [Asked(filming, FusionService, true, s.first)]
      + if fusion != Receipt(RealSuccess) || s.clockBetween >= s.deadline then []
        else [Asked(fused, FollowService, true, s.second)]
  }

  ghost function StopAsks(cfg: Config, w: World, s: Script): seq<Asked> {
    var (standby, follow) := SetState(cfg, w, FollowService, false, s.deadline, s.first);
    [Asked(w, FollowService, false, s.first)]
    + if follow != Receipt(RealSuccess) || s.clockBetween >= s.deadline then []
      else [Asked(standby, FusionService, false, s.second)]
  }

  ghost function Asks(cfg: Config, w: World, action: Action, s: Script): seq<Asked> {
    match action
    case StartCamera => []
    case StopCamera => [Asked(w, FollowService, false, s.first)]
    case EnableLidar => [Asked(w, FusionService, true, s.first)]
    case DisableLidar => [Asked(w, FusionService, false, s.first)]
    case EnableTracking => [Asked(w, FollowService, true, s.first)]
    case DisableTracking => [Asked(w, FollowService, false, s.first)]
    case StartFollowing => StartAsks(cfg, w, s)
    case StopFollowing => StopAsks(cfg, w, s)
    case ToggleFollowing =>
      match w.memory.follow
      case None => []
      case Some(following) => if following then StopAsks(cfg, w, s) else StartAsks(cfg, w, s)
  }

  ghost predicate NoneBetrays(cfg: Config, asks: seq<Asked>, deadline: real) {
    forall k :: 0 <= k < |asks| ==>
      !Betrays(cfg, asks[k].world, asks[k].kind, asks[k].on, deadline, asks[k].exchange)
  }

  /** The agent is the only service client, and none of its requests is handled and lost in a harmful way. */
  ghost predicate Unbetrayed(cfg: Config, w: World, action: Action, s: Script) {
    && OwnCallbacks(s.first.quiet) && OwnCallbacks(s.second.quiet)
    && NoneBetrays(cfg, Asks(cfg, w, action, s), s.deadline)
  }

  ghost predicate InStep(w: World) {
    Agrees(w) && FollowNeedsFusion(w.tracker)
  }

  lemma RequestKeepsStep(cfg: Config, w: World, kind: Kind, on: bool, deadline: real, x: Exchange)
    requires InStep(w) && OwnCallbacks(x.quiet) && !Betrays(cfg, w, kind, on, deadline, x)
    ensures InStep(SetState(cfg, w, kind, on, deadline, x).0)
  {
    SetStateAgreement(cfg, w, kind, on, deadline, x);
  }

  lemma FirstKeepsStep(cfg: Config, w: World, kind: Kind, on: bool, s: Script)
    requires InStep(w) && OwnCallbacks(s.first.quiet)
    requires NoneBetrays(cfg, [Asked(w, kind, on, s.first)], s.deadline)
    ensures InStep(SetState(cfg, w, kind, on, s.deadline, s.first).0)
  {
    assert [Asked(w, kind, on, s.first)][0] == Asked(w, kind, on, s.first);
    RequestKeepsStep(cfg, w, kind, on, s.deadline, s.first);
  }

  lemma StartKeepsStep(cfg: Config, w: World, s: Script)
    requires InStep(w) && OwnCallbacks(s.first.quiet) && OwnCallbacks(s.second.quiet)
    requires NoneBetrays(cfg, StartAsks(cfg, w, s), s.deadline)
    ensures InStep(Start(cfg, w, s).0)
  {
    if s.startedAt < s.deadline && s.cameraSubscribed {
      var filming := Camera(w, true, s.cameraSubscribed).0;
      assert StartAsks(cfg, w, s)[0] == Asked(filming, FusionService, true, s.first);
      RequestKeepsStep(cfg, filming, FusionService, true, s.deadline, s.first);
      var (fused, fusion) := SetState(cfg, filming, FusionService, true, s.deadline, s.first);
      if fusion == Receipt(RealSuccess) && s.clockBetween < s.deadline {
        assert StartAsks(cfg, w, s)[1] == Asked(fused, FollowService, true, s.second);
        RequestKeepsStep(cfg, fused, FollowService, true, s.deadline, s.second);
      }
    }
  }

  lemma StopKeepsStep(cfg: Config, w: World, s: Script)
    requires InStep(w) && OwnCallbacks(s.first.quiet) && OwnCallbacks(s.second.quiet)
    requires NoneBetrays(cfg, StopAsks(cfg, w, s), s.deadline)
    ensures InStep(Stop(cfg, w, s).0)
  {
    assert StopAsks(cfg, w, s)[0] == Asked(w, FollowService, false, s.first);
    RequestKeepsStep(cfg, w, FollowService, false, s.deadline, s.first);
    var (standby, follow) := SetState(cfg, w, FollowService, false, s.deadline, s.first);
    if follow == Receipt(RealSuccess) && s.clockBetween < s.deadline {
      assert StopAsks(cfg, w, s)[1] == Asked(standby, FusionService, false, s.second);
      RequestKeepsStep(cfg, standby, FusionService, false, s.deadline, s.second);
    }
  }

  lemma ActionAgreement(cfg: Config, w: World, action: Action, s: Script)
    requires Agrees(w) && FollowNeedsFusion(w.tracker) && Unbetrayed(cfg, w, action, s)
    ensures Agrees(Perform(cfg, w, action, s).0) && FollowNeedsFusion(Perform(cfg, w, action, s).0.tracker)
  {
    match action
    case StartCamera =>
    case StopCamera => FirstKeepsStep(cfg, w, FollowService, false, s);
    case EnableLidar => FirstKeepsStep(cfg, w, FusionService, true, s);
    case DisableLidar => FirstKeepsStep(cfg, w, FusionService, false, s);
    case EnableTracking => FirstKeepsStep(cfg, w, FollowService, true, s);
    case DisableTracking => FirstKeepsStep(cfg, w, FollowService, false, s);
    case StartFollowing => StartKeepsStep(cfg, w, s);
    case StopFollowing => StopKeepsStep(cfg, w, s);
    case ToggleFollowing =>
      if w.memory.follow == Some(true) {
        StopKeepsStep(cfg, w, s);
      } else if w.memory.follow == Some(false) {
        StartKeepsStep(cfg, w, s);
      }
  }

  ghost function Performed(cfg: Config, w: World, actions: seq<(Action, Script)>): World
    decreases |actions|
  {
    if actions == [] then w
    else Performed(cfg, Perform(cfg, w, actions[0].0, actions[0].1).0, actions[1..])
  }

  ghost predicate NeverBetrayed(cfg: Config, w: World, actions: seq<(Action, Script)>)
    decreases |actions|
  {
    actions == []
    || (Unbetrayed(cfg, w, actions[0].0, actions[0].1)
        && NeverBetrayed(cfg, Perform(cfg, w, actions[0].0, actions[0].1).0, actions[1..]))
  }

  /**
   The agent refines the tracker: as the only service client, and as long as no request of it betrays it, what it
   remembers is unknown or true after any sequence of actions, whatever harmless answers were lost.
   */
  lemma {:induction false} AgentRefinesTracker(cfg: Config, w: World, actions: seq<(Action, Script)>)
    requires Agrees(w) && FollowNeedsFusion(w.tracker) && NeverBetrayed(cfg, w, actions)
    ensures Agrees(Performed(cfg, w, actions))
    decreases |actions|
  {
    if actions != [] {
      ActionAgreement(cfg, w, actions[0].0, actions[0].1);
      AgentRefinesTracker(cfg, Perform(cfg, w, actions[0].0, actions[0].1).0, actions[1..]);
    }
  }

  ghost predicate AllAnswered(s: Script) {
    && OwnCallbacks(s.first.quiet) && OwnCallbacks(s.second.quiet)
    && s.first.reply.Answer? && s.second.reply.Answer?
  }

  lemma AnsweredIsUnbetrayed(cfg: Config, w: World, action: Action, s: Script)
    requires AllAnswered(s)
    ensures Unbetrayed(cfg, w, action, s)
  {
    assert forall k :: 0 <= k < |Asks(cfg, w, action, s)| ==> Asks(cfg, w, action, s)[k].exchange in {s.first, s.second};
  }

  /** In particular, an agent that gets an answer to every request is never betrayed. */
  lemma {:induction false} AnsweredIsNeverBetrayed(cfg: Config, w: World, actions: seq<(Action, Script)>)
    requires forall k :: 0 <= k < |actions| ==> AllAnswered(actions[k].1)
    ensures NeverBetrayed(cfg, w, actions)
    decreases |actions|
  {
    if actions != [] {
      AnsweredIsUnbetrayed(cfg, w, actions[0].0, actions[0].1);
      AnsweredIsNeverBetrayed(cfg, Perform(cfg, w, actions[0].0, actions[0].1).0, actions[1..]);
    }
  }

  /**
   A betrayal within reach: the tracker follows after a run of its own, the agent remembers it rightly, and then
   the answer to a fusion-off request that was handled is lost.
   */
  lemma LostAnswerBetrays(deadline: real) returns (cfg: Config, run: seq<Stamped>, w: World, x: Exchange)
    ensures Chronological(run, 0.0) && w.tracker == Reached(cfg, run)
    ensures w.memory == Memory(Some(true), Some(true)) && Agrees(w) && x.reply == NoAnswer(true)
    ensures Betrays(cfg, w, FusionService, false, deadline, x)
    ensures !Agrees(AfterSetState(cfg, w, FusionService, false, deadline, x))
  {
    cfg, run := MovingSetup(1.0, 0.0);
    NonzeroOnlyWhileFollowing(cfg, run, 0.0);
    w := World(Memory(Some(true), Some(true)), Reached(cfg, run), []);
    x := Exchange([], true, deadline - 1.0, deadline, true, true, NoAnswer(true));
    SetStateAgreement(cfg, w, FusionService, false, deadline, x);
  }

  /**
   What one `start_following` may have sent: the camera request, then fusion, and Follow only once fusion was
   confirmed, read before the deadline, with the tracker's fusion really on.
   */
  lemma StartOrder(cfg: Config, w: World, s: Script)
    ensures var (w', _) := Start(cfg, w, s);
            && w.sent <= w'.sent && |w'.sent| <= |w.sent| + 3
            && (forall k :: |w.sent| <= k < |w'.sent| && w'.sent[k].ServiceRequest? && w'.sent[k].kind == FollowService ==>
                  && k == |w.sent| + 2 && w'.sent[k].on && w'.sent[k].at < s.deadline
                  && s.clockBetween < s.deadline
                  && w'.sent[k - 1] == ServiceRequest(FusionService, true, s.first.submittedAt, Receipt(RealSuccess))
                  && s.first.submittedAt < s.deadline
                  && w'.sent[k - 2] == CameraRequest(true)
                  && TrackerAfter(cfg, w.tracker, FusionService, true, s.deadline, s.first).gates.lidarEnabled)
  {
    ConfirmedAfterCamera(cfg, w, s);
  }

  lemma ConfirmedAfterCamera(cfg: Config, w: World, s: Script)
    ensures OutcomeOf(cfg, w.tracker, FusionService, true, s.deadline, s.first) == Receipt(RealSuccess) ==>
              TrackerAfter(cfg, w.tracker, FusionService, true, s.deadline, s.first).gates.lidarEnabled
  {
    if OutcomeOf(cfg, w.tracker, FusionService, true, s.deadline, s.first) == Receipt(RealSuccess) {
      ConfirmedMeansSet(cfg, w, FusionService, true, s.deadline, s.first);
    }
  }

  function FlagOf(kind: Kind, g: Gates): bool {
    if kind == FollowService then g.enabled else g.lidarEnabled
  }

  function ValueOf(kind: Kind, m: Memory): Option<bool> {
    if kind == FollowService then m.follow else m.fusion
  }

  /**
   What one request comes to. It is sent exactly when the service is there before the deadline. An answer is a success
   exactly if the tracker took the request: always when switching off, and whenever the flag changed. A success is
   remembered, any other receipt is forgotten, an exception changes no memory; fusion off also notes standby.
   */
  lemma RequestIsTold(cfg: Config, w: World, kind: Kind, on: bool, deadline: real, x: Exchange)
    requires FollowNeedsFusion(w.tracker) && OwnCallbacks(x.quiet)
    ensures var (w', outcome) := SetState(cfg, w, kind, on, deadline, x);
            var sends := x.serviceReady && x.submittedAt < deadline;
            && w'.sent == (if sends then w.sent + [ServiceRequest(kind, on, x.submittedAt, outcome)] else w.sent)
            && (!sends ==> outcome == Receipt(Failed))
            && (sends && x.reply.NoAnswer? ==> outcome == Receipt(Unknown))
            && (sends && x.reply.Exception? ==> outcome == Raised)
            && (sends && x.reply.Answer? ==>
                  && outcome in {Receipt(RealSuccess), Receipt(Failed)}
                  && (!on || FlagOf(kind, w'.tracker.gates) != FlagOf(kind, w.tracker.gates) ==>
                        outcome == Receipt(RealSuccess)))
    ensures var (w', outcome) := SetState(cfg, w, kind, on, deadline, x);
            && FollowNeedsFusion(w'.tracker)
            && (outcome == Receipt(RealSuccess) ==>
                  && FlagOf(kind, w'.tracker.gates) == on && ValueOf(kind, w'.memory) == Some(on)
                  && (kind == FusionService && !on ==> w'.memory.follow == Some(false) && !w'.tracker.gates.enabled))
            && (outcome.Receipt? && outcome != Receipt(RealSuccess) ==> ValueOf(kind, w'.memory) == None)
            && (outcome.Raised? ==> w'.memory == w.memory)
            && (kind == FollowService ==>
                  w'.memory.fusion == w.memory.fusion && w'.tracker.gates.lidarEnabled == w.tracker.gates.lidarEnabled)
            && (kind == FusionService && (on || outcome != Receipt(RealSuccess)) ==> w'.memory.follow == w.memory.follow)
  {
    OwnCallbacksKeepFlags(cfg, w.tracker, x.quiet);
    RequestEffect(cfg, Passed(cfg, w.tracker, x.quiet), kind, on, x);
  }

  /** What has been sent since: the earlier requests stand as they were. */
  ghost predicate SentSince(w: World, w': World, requests: seq<Request>) {
    w'.sent == w.sent + requests
  }

  ghost function RequestOf(kind: Kind, on: bool, deadline: real, x: Exchange, outcome: Outcome): seq<Request> {
    if x.serviceReady && x.submittedAt < deadline then [ServiceRequest(kind, on, x.submittedAt, outcome)] else []
  }

  lemma SentSinceIsUnique(w: World, w': World, requests: seq<Request>, others: seq<Request>)
    requires SentSince(w, w', requests)
    ensures SentSince(w, w', others) <==> requests == others
  {
    assert (w.sent + requests)[|w.sent|..] == requests;
    if SentSince(w, w', others) {
      assert (w.sent + others)[|w.sent|..] == others;
    }
  }

  /** At most one request each: how the two make up a short list. */
  lemma InTurn(a: seq<Request>, b: seq<Request>, x: Request, y: Request)
    requires |a| <= 1 && |b| <= 1 && (a == [] ==> b == [])
    ensures a + b == [] <==> a == []
    ensures a + b == [x] <==> a == [x] && b == []
    ensures a + b == [x, y] <==> a == [x] && b == [y]
  {
    if a != [] && b != [] {
      assert a + b == [a[0], b[0]];
    }
  }

  lemma AfterOne(c: Request, rest: seq<Request>, x: Request, y: Request)
    ensures [c] + rest != []
    ensures [c] + rest == [c] <==> rest == []
    ensures [c] + rest == [c, x] <==> rest == [x]
    ensures [c] + rest == [c, x, y] <==> rest == [x, y]
  {
    assert ([c] + rest)[1..] == rest;
    assert [c][1..] == [] && [c, x][1..] == [x] && [c, x, y][1..] == [x, y];
  }

  ghost function StartRequests(cfg: Config, w: World, s: Script): seq<Request> {
    if s.startedAt >= s.deadline || !s.cameraSubscribed then []
    else
      var (fused, fusion) := SetState(cfg, Camera(w, true, true).0, FusionService, true, s.deadline, s.first);
      [CameraRequest(true)]
      + (RequestOf(FusionService, true, s.deadline, s.first, fusion)
         + if fusion != Receipt(RealSuccess) || s.clockBetween >= s.deadline then []
           else RequestOf(FollowService, true, s.deadline, s.second,
                          SetState(cfg, fused, FollowService, true, s.deadline, s.second).1))
  }

  lemma StartSends(cfg: Config, w: World, s: Script)
    ensures SentSince(w, Start(cfg, w, s).0, StartRequests(cfg, w, s))
  {
  }

  /**
   Starting succeeds exactly if the camera, fusion and Follow requests have all been sent, in this order, and both
   services confirmed. Then Follow and fusion are on, and remembered as on. It never stops early without a cause.
   */
  lemma StartSucceeds(cfg: Config, w: World, s: Script)
    requires FollowNeedsFusion(w.tracker) && OwnCallbacks(s.first.quiet) && OwnCallbacks(s.second.quiet)
    ensures var (w', outcome) := Start(cfg, w, s);
            var fusion := ServiceRequest(FusionService, true, s.first.submittedAt, Receipt(RealSuccess));
            var follow := ServiceRequest(FollowService, true, s.second.submittedAt, Receipt(RealSuccess));
            && (outcome == Receipt(RealSuccess) <==> SentSince(w, w', [CameraRequest(true), fusion, follow]))
            && (outcome == Receipt(RealSuccess) ==>
                  && w'.tracker.gates.enabled && w'.tracker.gates.lidarEnabled
                  && w'.memory == Memory(Some(true), Some(true)))
            && (SentSince(w, w', []) ==> s.startedAt >= s.deadline || !s.cameraSubscribed)
            && (SentSince(w, w', [CameraRequest(true)]) ==> !s.first.serviceReady || s.first.submittedAt >= s.deadline)
            && (SentSince(w, w', [CameraRequest(true), fusion]) ==>
                  s.clockBetween >= s.deadline || !s.second.serviceReady || s.second.submittedAt >= s.deadline)
  {
    var fusion := ServiceRequest(FusionService, true, s.first.submittedAt, Receipt(RealSuccess));
    var follow := ServiceRequest(FollowService, true, s.second.submittedAt, Receipt(RealSuccess));
    var w', requests := Start(cfg, w, s).0, StartRequests(cfg, w, s);
    StartSends(cfg, w, s);
    SentSinceIsUnique(w, w', requests, []);
    SentSinceIsUnique(w, w', requests, [CameraRequest(true)]);
    SentSinceIsUnique(w, w', requests, [CameraRequest(true), fusion]);
    SentSinceIsUnique(w, w', requests, [CameraRequest(true), fusion, follow]);
    if s.startedAt < s.deadline && s.cameraSubscribed {
      var filming := Camera(w, true, true).0;
      RequestIsTold(cfg, filming, FusionService, true, s.deadline, s.first);
      var fused := SetState(cfg, filming, FusionService, true, s.deadline, s.first).0;
      RequestIsTold(cfg, fused, FollowService, true, s.deadline, s.second);
      StartRequestsInTurn(cfg, w, s, fusion, follow);
    }
  }

  lemma StartRequestsInTurn(cfg: Config, w: World, s: Script, x: Request, y: Request)
    requires s.startedAt < s.deadline && s.cameraSubscribed
    ensures var requests, camera := StartRequests(cfg, w, s), CameraRequest(true);
            var (fused, fusion) := SetState(cfg, Camera(w, true, true).0, FusionService, true, s.deadline, s.first);
            var a := RequestOf(FusionService, true, s.deadline, s.first, fusion);
            var b := if fusion != Receipt(RealSuccess) || s.clockBetween >= s.deadline then []
                     else RequestOf(FollowService, true, s.deadline, s.second,
                                    SetState(cfg, fused, FollowService, true, s.deadline, s.second).1);
            && requests != [] && (requests == [camera] <==> a == [])
            && (requests == [camera, x] <==> a == [x] && b == [])
            && (requests == [camera, x, y] <==> a == [x] && b == [y])
  {
    var (fused, fusion) := SetState(cfg, Camera(w, true, true).0, FusionService, true, s.deadline, s.first);
    var a := RequestOf(FusionService, true, s.deadline, s.first, fusion);
    var b := if fusion != Receipt(RealSuccess) || s.clockBetween >= s.deadline then []
             else RequestOf(FollowService, true, s.deadline, s.second,
                            SetState(cfg, fused, FollowService, true, s.deadline, s.second).1);
    InTurn(a, b, x, y);
    AfterOne(CameraRequest(true), a + b, x, y);
  }

  /** The requests of a flow that goes into standby first, and then goes on with `next` if that was confirmed in time. */
  ghost function StandbyRequests(cfg: Config, w: World, s: Script, next: seq<Request>): seq<Request> {
    var follow := SetState(cfg, w, FollowService, false, s.deadline, s.first).1;
    RequestOf(FollowService, false, s.deadline, s.first, follow)
    + if follow != Receipt(RealSuccess) || s.clockBetween >= s.deadline then [] else next
  }

  ghost function FusionOff(cfg: Config, w: World, s: Script): seq<Request> {
    var standby := SetState(cfg, w, FollowService, false, s.deadline, s.first).0;
    RequestOf(FusionService, false, s.deadline, s.second,
              SetState(cfg, standby, FusionService, false, s.deadline, s.second).1)
  }

  lemma StandbyRequestsInTurn(cfg: Config, w: World, s: Script, next: seq<Request>, x: Request, y: Request)
    requires |next| <= 1
    ensures var requests, follow := StandbyRequests(cfg, w, s, next),
              SetState(cfg, w, FollowService, false, s.deadline, s.first).1;
            var a := RequestOf(FollowService, false, s.deadline, s.first, follow);
            var b := if follow != Receipt(RealSuccess) || s.clockBetween >= s.deadline then [] else next;
            && (requests == [] <==> a == []) && (requests == [x] <==> a == [x] && b == [])
            && (requests == [x, y] <==> a == [x] && b == [y])
  {
    var follow := SetState(cfg, w, FollowService, false, s.deadline, s.first).1;
    InTurn(RequestOf(FollowService, false, s.deadline, s.first, follow),
           if follow != Receipt(RealSuccess) || s.clockBetween >= s.deadline then [] else next, x, y);
  }

  lemma StopSends(cfg: Config, w: World, s: Script)
    ensures SentSince(w, Stop(cfg, w, s).0, StandbyRequests(cfg, w, s, FusionOff(cfg, w, s)))
    ensures SentSince(w, CameraOff(cfg, w, s).0,
                      StandbyRequests(cfg, w, s, if s.cameraSubscribed then [CameraRequest(false)] else []))
  {
  }

  /**
   Stopping succeeds exactly if standby and then fusion off have been sent and confirmed. Then Follow and fusion are
   off, and remembered as off; and again it never stops early without a cause.
   */
  lemma StopSucceeds(cfg: Config, w: World, s: Script)
    requires FollowNeedsFusion(w.tracker) && OwnCallbacks(s.first.quiet) && OwnCallbacks(s.second.quiet)
    ensures var (w', outcome) := Stop(cfg, w, s);
            var follow := ServiceRequest(FollowService, false, s.first.submittedAt, Receipt(RealSuccess));
            var fusion := ServiceRequest(FusionService, false, s.second.submittedAt, Receipt(RealSuccess));
            && (outcome == Receipt(RealSuccess) <==> SentSince(w, w', [follow, fusion]))
            && (outcome == Receipt(RealSuccess) ==>
                  && !w'.tracker.gates.enabled && !w'.tracker.gates.lidarEnabled
                  && w'.memory == Memory(Some(false), Some(false)))
            && (SentSince(w, w', []) ==> !s.first.serviceReady || s.first.submittedAt >= s.deadline)
            && (SentSince(w, w', [follow]) ==>
                  s.clockBetween >= s.deadline || !s.second.serviceReady || s.second.submittedAt >= s.deadline)
  {
    var follow := ServiceRequest(FollowService, false, s.first.submittedAt, Receipt(RealSuccess));
    var fusion := ServiceRequest(FusionService, false, s.second.submittedAt, Receipt(RealSuccess));
    var w', requests := Stop(cfg, w, s).0, StandbyRequests(cfg, w, s, FusionOff(cfg, w, s));
    StopSends(cfg, w, s);
    SentSinceIsUnique(w, w', requests, []);
    SentSinceIsUnique(w, w', requests, [follow]);
    SentSinceIsUnique(w, w', requests, [follow, fusion]);
    RequestIsTold(cfg, w, FollowService, false, s.deadline, s.first);
    var standby := SetState(cfg, w, FollowService, false, s.deadline, s.first).0;
    RequestIsTold(cfg, standby, FusionService, false, s.deadline, s.second);
    StandbyRequestsInTurn(cfg, w, s, FusionOff(cfg, w, s), follow, fusion);
  }

  /** The camera is off exactly if standby was confirmed and the camera then asked; Follow is then off, and known to be. */
  lemma CameraOffSucceeds(cfg: Config, w: World, s: Script)
    requires FollowNeedsFusion(w.tracker) && OwnCallbacks(s.first.quiet)
    ensures var (w', outcome) := CameraOff(cfg, w, s);
            var follow := ServiceRequest(FollowService, false, s.first.submittedAt, Receipt(RealSuccess));
            && (outcome == Receipt(RealSuccess) <==> SentSince(w, w', [follow, CameraRequest(false)]))
            && (outcome == Receipt(RealSuccess) ==> !w'.tracker.gates.enabled && w'.memory.follow == Some(false))
            && (SentSince(w, w', []) ==> !s.first.serviceReady || s.first.submittedAt >= s.deadline)
            && (SentSince(w, w', [follow]) ==> s.clockBetween >= s.deadline || !s.cameraSubscribed)
  {
    var follow := ServiceRequest(FollowService, false, s.first.submittedAt, Receipt(RealSuccess));
    var w' := CameraOff(cfg, w, s).0;
    var requests := StandbyRequests(cfg, w, s, if s.cameraSubscribed then [CameraRequest(false)] else []);
    StopSends(cfg, w, s);
    SentSinceIsUnique(w, w', requests, []);
    SentSinceIsUnique(w, w', requests, [follow]);
    SentSinceIsUnique(w, w', requests, [follow, CameraRequest(false)]);
    RequestIsTold(cfg, w, FollowService, false, s.deadline, s.first);
    StandbyRequestsInTurn(cfg, w, s, if s.cameraSubscribed then [CameraRequest(false)] else [], follow, CameraRequest(false));
  }

  /** A successful action has done what its name says. */
  lemma ActionsDoWhatTheySay(cfg: Config, w: World, action: Action, s: Script)
    requires FollowNeedsFusion(w.tracker) && OwnCallbacks(s.first.quiet) && OwnCallbacks(s.second.quiet)
    requires Perform(cfg, w, action, s).1 == Receipt(RealSuccess)
    ensures var w' := Perform(cfg, w, action, s).0;
            match action
            case StartCamera => SentSince(w, w', [CameraRequest(true)])
            case StopCamera => !w'.tracker.gates.enabled && w'.sent != [] && w'.sent[|w'.sent| - 1] == CameraRequest(false)
            case EnableLidar => w'.tracker.gates.lidarEnabled
            case DisableLidar => !w'.tracker.gates.lidarEnabled && !w'.tracker.gates.enabled
            case EnableTracking => w'.tracker.gates.enabled
            case DisableTracking => !w'.tracker.gates.enabled
            case StartFollowing => w'.tracker.gates.enabled && w'.tracker.gates.lidarEnabled
            case StopFollowing => !w'.tracker.gates.enabled && !w'.tracker.gates.lidarEnabled
            case ToggleFollowing => Some(w'.tracker.gates.enabled) == w'.memory.follow != w.memory.follow
  {
    match action
    case StartCamera =>
    case StopCamera => CameraOffSucceeds(cfg, w, s);
    case EnableLidar => RequestIsTold(cfg, w, FusionService, true, s.deadline, s.first);
    case DisableLidar => RequestIsTold(cfg, w, FusionService, false, s.deadline, s.first);
    case EnableTracking => RequestIsTold(cfg, w, FollowService, true, s.deadline, s.first);
    case DisableTracking => RequestIsTold(cfg, w, FollowService, false, s.deadline, s.first);
    case StartFollowing => StartSucceeds(cfg, w, s);
    case StopFollowing => StopSucceeds(cfg, w, s);
    case ToggleFollowing =>
      StartSucceeds(cfg, w, s);
      StopSucceeds(cfg, w, s);
  }

  /** The camera is only asked to stop after standby was confirmed, and then the tracker is in standby. */
  lemma CameraOffOrder(cfg: Config, w: World, s: Script)
    ensures var (w', _) := CameraOff(cfg, w, s);
            && w.sent <= w'.sent
            && (CameraRequest(false) in w'.sent[|w.sent|..] ==>
                  && w'.sent[|w.sent|..] ==
                       [ServiceRequest(FollowService, false, s.first.submittedAt, Receipt(RealSuccess)), CameraRequest(false)]
                  && s.clockBetween < s.deadline
                  && !w'.tracker.gates.enabled)
  {
    var (standby, follow) := SetState(cfg, w, FollowService, false, s.deadline, s.first);
    if follow == Receipt(RealSuccess) {
      ConfirmedMeansSet(cfg, w, FollowService, false, s.deadline, s.first);
    }
  }

  /** A successful toggle really switches Follow; with Follow unknown it sends nothing. */
  lemma ToggleSwitches(cfg: Config, w: World, s: Script)
    requires Agrees(w) && FollowNeedsFusion(w.tracker) && AllAnswered(s)
    ensures var (w', outcome) := Toggle(cfg, w, s);
            && (outcome == Receipt(RealSuccess) ==> w'.tracker.gates.enabled != w.tracker.gates.enabled)
            && (w.memory.follow.None? ==> w' == w && outcome == Receipt(Failed))
            && (w.memory.follow == Some(true) ==> (w', outcome) == Stop(cfg, w, s))
            && (w.memory.follow == Some(false) ==> (w', outcome) == Start(cfg, w, s))
  {
    if w.memory.follow == Some(true) {
      var standby := AfterSetState(cfg, w, FollowService, false, s.deadline, s.first);
      SetStateAgreement(cfg, w, FollowService, false, s.deadline, s.first);
      SetStateAgreement(cfg, standby, FusionService, false, s.deadline, s.second);
    } else if w.memory.follow == Some(false) {
      var filming := Camera(w, true, s.cameraSubscribed).0;
      var fused := AfterSetState(cfg, filming, FusionService, true, s.deadline, s.first);
      if OutcomeOf(cfg, fused.tracker, FollowService, true, s.deadline, s.second) == Receipt(RealSuccess) {
        ConfirmedMeansSet(cfg, fused, FollowService, true, s.deadline, s.second);
      }
    }
  }

  // ---------------------------------------------------------------- the objects

  /** The transport to the node: it submits, waits for the answer and keeps a log of what it submitted. */
  class RosPerception {
    const node: ObjectTrackNode
    var sent: seq<Request>

    constructor (node: ObjectTrackNode)
      ensures this.node == node && sent == []
    {
      this.node := node;
      sent := [];
    }

    method Camera(on: bool, subscribed: bool) returns (outcome: Outcome)
      modifies this
      ensures subscribed ==> outcome == Receipt(RealSuccess) && sent == old(sent) + [CameraRequest(on)]
      ensures !subscribed ==> outcome == Receipt(Failed) && sent == old(sent)
    {
      if !subscribed {
        return Receipt(Failed);
      }
      sent := sent + [CameraRequest(on)];
      return Receipt(RealSuccess);
    }

    /** The callbacks the node serves on its own account before the request reaches it. */
    method Pass(events: seq<Stamped>)
      modifies node
      ensures node.State() == Passed(node.cfg, old(node.State()), events)
    {
      var i := 0;
      while i < |events|
        invariant 0 <= i <= |events|
        invariant Passed(node.cfg, node.State(), events[i..]) == Passed(node.cfg, old(node.State()), events)
      {
        node.Deliver(events[i].at, events[i].event);
        i := i + 1;
      }
    }

    method Serve(kind: Kind, on: bool, x: Exchange) returns (success: bool)
      modifies node
      ensures node.State() == After(node.cfg, old(node.State()), x.handledAt, RequestEvent(kind, on, x))
      ensures success == Accepted(node.cfg, old(node.State()), kind, on, x)
    {
      match kind {
        case FollowService => success := node.ApplyEnabled(x.handledAt, on);
        case FusionService => success := node.ApplyLidarEnabled(on, x.transformAvailable, x.publisherActive);
      }
    }

    method SetEnabled(kind: Kind, on: bool, deadline: real, x: Exchange) returns (outcome: Outcome)
      modifies this, node
      ensures node.State() == TrackerAfter(node.cfg, old(node.State()), kind, on, deadline, x)
      ensures outcome == OutcomeOf(node.cfg, old(node.State()), kind, on, deadline, x)
      ensures sent == if Submitted(deadline, x)
                      then old(sent) + [ServiceRequest(kind, on, x.submittedAt, outcome)] else old(sent)
    {
      Pass(x.quiet);
      if !x.serviceReady {
        return Receipt(Failed);
      }
      if x.submittedAt >= deadline {
        return Receipt(Failed);
      }
      var success := false;
      if x.reply.Answer? || x.reply.handled {
        success := Serve(kind, on, x);
      }
      match x.reply {
        case Answer => outcome := Receipt(if success then RealSuccess else Failed);
        case NoAnswer(_) => outcome := Receipt(Unknown);
        case Exception(_) => outcome := Raised;
      }
      sent := sent + [ServiceRequest(kind, on, x.submittedAt, outcome)];
    }
  }

  class PerceptionActions {
    const device: RosPerception
    var follow: Option<bool>
    var fusion: Option<bool>

    function State(): World
      reads this, device, device.node
    {
      World(Memory(follow, fusion), device.node.State(), device.sent)
    }

    constructor (device: RosPerception)
      ensures this.device == device
      ensures State() == World(Memory(None, None), device.node.State(), device.sent) && Agrees(State())
    {
      this.device := device;
      follow, fusion := None, None;
    }

    method SetStateOn(kind: Kind, on: bool, deadline: real, x: Exchange) returns (outcome: Outcome)
      modifies this, device, device.node
      ensures (State(), outcome) == SetState(device.node.cfg, old(State()), kind, on, deadline, x)
    {
      outcome := device.SetEnabled(kind, on, deadline, x);
      if outcome.Raised? {
        return;
      }
      var confirmed := if outcome.status == RealSuccess then Some(on) else None;
      if kind == FollowService {
        follow := confirmed;
      } else {
        fusion := confirmed;
        if confirmed == Some(false) {
          follow := Some(false);
        }
      }
    }

    method StopCamera(s: Script) returns (outcome: Outcome)
      modifies this, device, device.node
      ensures (State(), outcome) == CameraOff(device.node.cfg, old(State()), s)
    {
      outcome := SetStateOn(FollowService, false, s.deadline, s.first);
      if outcome != Receipt(RealSuccess) {
        return;
      }
      if s.clockBetween >= s.deadline {
        return Receipt(Failed);
      }
      outcome := device.Camera(false, s.cameraSubscribed);
    }

    method StartFollowing(s: Script) returns (outcome: Outcome)
      modifies this, device, device.node
      ensures (State(), outcome) == Start(device.node.cfg, old(State()), s)
    {
      if s.startedAt >= s.deadline {
        return Receipt(Failed);
      }
      outcome := device.Camera(true, s.cameraSubscribed);
      if outcome != Receipt(RealSuccess) {
        return;
      }
      outcome := SetStateOn(FusionService, true, s.deadline, s.first);
      if outcome != Receipt(RealSuccess) {
        return;
      }
      if s.clockBetween >= s.deadline {
        return Receipt(Failed);
      }
      outcome := SetStateOn(FollowService, true, s.deadline, s.second);
    }

    method StopFollowing(s: Script) returns (outcome: Outcome)
      modifies this, device, device.node
      ensures (State(), outcome) == Stop(device.node.cfg, old(State()), s)
    {
      outcome := SetStateOn(FollowService, false, s.deadline, s.first);
      if outcome != Receipt(RealSuccess) {
        return;
      }
      if s.clockBetween >= s.deadline {
        return Receipt(Failed);
      }
      outcome := SetStateOn(FusionService, false, s.deadline, s.second);
    }

    method ToggleFollowing(s: Script) returns (outcome: Outcome)
      modifies this, device, device.node
      ensures (State(), outcome) == Toggle(device.node.cfg, old(State()), s)
    {
      if follow.None? {
        return Receipt(Failed);
      }
      if follow.value {
        outcome := StopFollowing(s);
      } else {
        outcome := StartFollowing(s);
      }
    }
  }
}
