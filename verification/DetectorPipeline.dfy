/**
 The two-stage detector: images enter the input queue, the inference thread turns them into results, the
 processing thread publishes those, and the destructor stops both. Each locked region, each read of the stop
 flag and each backend call is one step; the steps of the threads interleave freely.
 */
module DetectorPipeline {
  import opened Prelude
  import opened BoundedQueues

  const QUEUE_CAPACITY: nat := 2

  /** Frames are numbered in the order in which the input queue accepts them. */
  type Frame = nat

  datatype InferenceThread =
    | Waiting
    | Popped(frame: Frame)
    | Inferring(frame: Frame)
    | Inferred(frame: Frame)
    | Leaving
    | Ended

  datatype ProcessingThread = Idle | Processing(frame: Frame) | Finished

  datatype Teardown = Running | StopSet | InputClosed | InferenceJoined | OutputClosed | Done

  datatype Pipeline = Pipeline(
    input: Queue<Frame>,
    output: Queue<Frame>,
    stopping: bool,
    inference: InferenceThread,
    processing: ProcessingThread,
    teardown: Teardown,
    accepted: nat,
    displacedInput: seq<Frame>,
    displacedOutput: seq<Frame>,
    failed: seq<Frame>,
    discarded: seq<Frame>,
    pushed: seq<Frame>,
    processed: seq<Frame>)

  const INITIAL := Pipeline(Queue([], false), Queue([], false), false, Waiting, Idle, Running, 0, [], [], [], [], [], [])

  datatype Step =
    | Arrive
    | PopInput
    | CheckStop
    | Infer(success: bool)
    | PushResult
    | LeaveInference
    | PopOutput
    | FinishFrame
    | SetStopping
    | CloseInput
    | JoinInference
    | CloseOutput
    | JoinProcessing

  predicate Enabled(s: Pipeline, step: Step) {
    match step
    case Arrive => true
    case PopInput => s.inference.Waiting? && Ready(s.input)
    case CheckStop => s.inference.Popped?
    case Infer(_) => s.inference.Inferring?
    case PushResult => s.inference.Inferred?
    case LeaveInference => s.inference.Leaving?
    case PopOutput => s.processing.Idle? && Ready(s.output)
    case FinishFrame => s.processing.Processing?
    case SetStopping => s.teardown.Running?
    case CloseInput => s.teardown.StopSet?
    case JoinInference => s.teardown.InputClosed? && s.inference.Ended?
    case CloseOutput => s.teardown.InferenceJoined?
    case JoinProcessing => s.teardown.OutputClosed? && s.processing.Finished?
  }

  function Listed(f: Option<Frame>): seq<Frame> {
    if f.Some? then [f.value] else []
  }

  function Next(s: Pipeline, step: Step): Pipeline
    requires Enabled(s, step)
  {
    match step
    case Arrive =>
      var (input, dropped) := Pushed(s.input, QUEUE_CAPACITY, s.accepted);
      if s.input.closed then s
      else s.(input := input, accepted := s.accepted + 1, displacedInput := s.displacedInput + Listed(dropped))
    case PopInput =>
      var (input, frame) := BoundedQueues.Popped(s.input);
      s.(input := input, inference := if frame.Some? then Popped(frame.value) else Leaving)
    case CheckStop =>
      if s.stopping then s.(inference := Leaving, discarded := s.discarded + [s.inference.frame])
      else s.(inference := Inferring(s.inference.frame))
    case Infer(success) =>
      if success then s.(inference := Inferred(s.inference.frame))
      else s.(inference := Waiting, failed := s.failed + [s.inference.frame])
    case PushResult =>
      var (output, dropped) := Pushed(s.output, QUEUE_CAPACITY, s.inference.frame);
      s.(output := output, inference := Waiting, displacedOutput := s.displacedOutput + Listed(dropped),
         pushed := if s.output.closed then s.pushed else s.pushed + [s.inference.frame])
    case LeaveInference => s.(output := s.output.(closed := true), inference := Ended)
    case PopOutput =>
      var (output, frame) := BoundedQueues.Popped(s.output);
      s.(output := output, processing := if frame.Some? then Processing(frame.value) else Finished)
    case FinishFrame => s.(processing := Idle, processed := s.processed + [s.processing.frame])
    case SetStopping => s.(stopping := true, teardown := StopSet)
    case CloseInput => s.(input := s.input.(closed := true), teardown := InputClosed)
    case JoinInference => s.(teardown := InferenceJoined)
    case CloseOutput => s.(output := s.output.(closed := true), teardown := OutputClosed)
    case JoinProcessing => s.(teardown := Done)
  }

  ghost predicate Legal(s: Pipeline, steps: seq<Step>)
    decreases |steps|
  {
    steps == [] || (Enabled(s, steps[0]) && Legal(Next(s, steps[0]), steps[1..]))
  }

  ghost function Reached(s: Pipeline, steps: seq<Step>): Pipeline
    requires Legal(s, steps)
    decreases |steps|
  {
    if steps == [] then s else Reached(Next(s, steps[0]), steps[1..])
  }

  // ---------------------------------------------------------------- where a frame can be

  ghost function InferenceHand(s: Pipeline): seq<Frame> {
    match s.inference
    case Popped(f) => [f]
    case Inferring(f) => [f]
    case Inferred(f) => [f]
    case _ => []
  }

  ghost function ProcessingHand(s: Pipeline): seq<Frame> {
    if s.processing.Processing? then [s.processing.frame] else []
  }

  ghost function Count(frames: seq<Frame>, f: Frame): nat {
    multiset(frames)[f]
  }

  /** In how many places of the pipeline a frame is. */
  ghost function Places(s: Pipeline, f: Frame): nat {
    Count(s.input.items, f) + Count(InferenceHand(s), f) + Count(s.output.items, f) + Count(ProcessingHand(s), f)
    + Count(s.displacedInput, f) + Count(s.displacedOutput, f) + Count(s.failed, f) + Count(s.discarded, f)
    + Count(s.processed, f)
  }

  /** What is still on its way to publication, oldest first, behind what was published. */
  ghost function Line(s: Pipeline): seq<Frame> {
    s.processed + ProcessingHand(s) + s.output.items + InferenceHand(s) + s.input.items
  }

  ghost predicate Increasing(frames: seq<Frame>) {
    forall i, j :: 0 <= i < j < |frames| ==> frames[i] < frames[j]
  }

  ghost predicate Below(frames: seq<Frame>, bound: nat) {
    Increasing(frames) && forall i :: 0 <= i < |frames| ==> frames[i] < bound
  }

  ghost predicate Conserved(s: Pipeline) {
    forall f: Frame :: Places(s, f) == if f < s.accepted then 1 else 0
  }

  ghost predicate Ordered(s: Pipeline) {
    Below(Line(s), s.accepted)
  }

  /** How far the shutdown has come, and what that says about the threads and the queues. */
  ghost predicate Coordinated(s: Pipeline) {
    && (s.stopping <==> !s.teardown.Running?)
    && (s.input.closed <==> !s.teardown.Running? && !s.teardown.StopSet?)
    && (s.output.closed <==> s.inference.Ended?)
    && (s.teardown.InferenceJoined? || s.teardown.OutputClosed? || s.teardown.Done? ==> s.inference.Ended?)
    && (s.teardown.Done? ==> s.processing.Finished?)
    && (s.processing.Finished? ==> s.output == Queue([], true))
    && (s.inference.Leaving? || s.inference.Ended? ==> s.stopping)
    && |s.input.items| <= QUEUE_CAPACITY && |s.output.items| <= QUEUE_CAPACITY
  }

  /** The input queue holds the newest accepted frames and the output queue the newest results, without a gap. */
  ghost predicate HoldsNewestFrames(s: Pipeline) {
    && |s.input.items| <= s.accepted
    && (forall i :: 0 <= i < |s.input.items| ==> s.input.items[i] == s.accepted - |s.input.items| + i)
    && |s.output.items| <= QUEUE_CAPACITY && IsNewestOf(s.output.items, s.pushed)
  }

  ghost predicate Invariant(s: Pipeline) {
    HoldsNewestFrames(s) && Conserved(s) && Ordered(s) && Coordinated(s)
  }

  lemma StepCoordinated(s: Pipeline, step: Step)
    requires Coordinated(s) && Enabled(s, step)
    ensures Coordinated(Next(s, step))
  {
  }

  lemma StepHoldsNewest(s: Pipeline, step: Step)
    requires HoldsNewestFrames(s) && Enabled(s, step)
    ensures HoldsNewestFrames(Next(s, step))
  {
    if step.PushResult? && !s.output.closed {
      PushKeepsNewest(s.output, QUEUE_CAPACITY, s.inference.frame, s.pushed);
    }
  }

  lemma CountAppend(frames: seq<Frame>, a: Frame, f: Frame)
    ensures Count(frames + [a], f) == Count(frames, f) + Count([a], f)
  {
  }

  lemma CountHead(frames: seq<Frame>, f: Frame)
    requires frames != []
    ensures Count(frames, f) == Count([frames[0]], f) + Count(frames[1..], f)
  {
    assert frames == [frames[0]] + frames[1..];
  }

  lemma CountPush(q: Queue<Frame>, a: Frame, f: Frame)
    requires !q.closed
    ensures var (q', dropped) := Pushed(q, QUEUE_CAPACITY, a);
            Count(q'.items, f) + Count(Listed(dropped), f) == Count(q.items, f) + Count([a], f)
  {
    if |q.items| >= QUEUE_CAPACITY {
      CountHead(q.items, f);
      CountAppend(q.items[1..], a, f);
    } else {
      CountAppend(q.items, a, f);
    }
  }

  lemma CountListed(frames: seq<Frame>, dropped: Option<Frame>, f: Frame)
    ensures Count(frames + Listed(dropped), f) == Count(frames, f) + Count(Listed(dropped), f)
  {
  }

  lemma ArrivalPlaces(s: Pipeline, f: Frame)
    requires !s.input.closed
    ensures Places(Next(s, Arrive), f) == Places(s, f) + if f == s.accepted then 1 else 0
  {
    CountPush(s.input, s.accepted, f);
    CountListed(s.displacedInput, Pushed(s.input, QUEUE_CAPACITY, s.accepted).1, f);
  }

  lemma PopInputPlaces(s: Pipeline, f: Frame)
    requires Enabled(s, PopInput)
    ensures Places(Next(s, PopInput), f) == Places(s, f)
  {
    if s.input.items == [] {
      assert Next(s, PopInput) == s.(inference := Leaving);
    } else {
      var first := s.input.items[0];
      assert Next(s, PopInput) == s.(input := s.input.(items := s.input.items[1..]), inference := Popped(first));
      CountHead(s.input.items, f);
    }
  }

  lemma PushResultPlaces(s: Pipeline, f: Frame)
    requires Enabled(s, PushResult) && !s.output.closed
    ensures Places(Next(s, PushResult), f) == Places(s, f)
  {
    CountPush(s.output, s.inference.frame, f);
    CountListed(s.displacedOutput, Pushed(s.output, QUEUE_CAPACITY, s.inference.frame).1, f);
  }

  lemma PopOutputPlaces(s: Pipeline, f: Frame)
    requires Enabled(s, PopOutput)
    ensures Places(Next(s, PopOutput), f) == Places(s, f)
  {
    if s.output.items == [] {
      assert Next(s, PopOutput) == s.(processing := Finished);
    } else {
      var first := s.output.items[0];
      assert Next(s, PopOutput) == s.(output := s.output.(items := s.output.items[1..]), processing := Processing(first));
      CountHead(s.output.items, f);
    }
  }

  lemma CheckStopPlaces(s: Pipeline, f: Frame)
    requires Enabled(s, CheckStop)
    ensures Places(Next(s, CheckStop), f) == Places(s, f)
  {
    CountAppend(s.discarded, s.inference.frame, f);
  }

  lemma InferPlaces(s: Pipeline, success: bool, f: Frame)
    requires Enabled(s, Infer(success))
    ensures Places(Next(s, Infer(success)), f) == Places(s, f)
  {
    var frame, s' := s.inference.frame, Next(s, Infer(success));
    assert InferenceHand(s) == [frame] && InferenceHand(s') == if success then [frame] else [];
    if !success {
      assert s'.failed == s.failed + [frame];
      CountAppend(s.failed, frame, f);
    }
  }

  lemma FinishPlaces(s: Pipeline, f: Frame)
    requires Enabled(s, FinishFrame)
    ensures Places(Next(s, FinishFrame), f) == Places(s, f)
  {
    CountAppend(s.processed, s.processing.frame, f);
  }

  /** Closing queues and joining threads moves no frame. */
  lemma TeardownPlaces(s: Pipeline, step: Step, f: Frame)
    requires Enabled(s, step)
    requires step in {LeaveInference, SetStopping, CloseInput, JoinInference, CloseOutput, JoinProcessing}
    ensures Places(Next(s, step), f) == Places(s, f)
  {
    var s' := Next(s, step);
    assert s'.input.items == s.input.items && s'.output.items == s.output.items;
    assert InferenceHand(s') == InferenceHand(s);
  }

  /** A step moves frames between places; only an accepted arrival adds one. */
  lemma StepPlaces(s: Pipeline, step: Step, f: Frame)
    requires Coordinated(s) && Enabled(s, step)
    ensures Places(Next(s, step), f)
         == Places(s, f) + if step.Arrive? && !s.input.closed && f == s.accepted then 1 else 0
  {
    match step
    case Arrive =>
      if !s.input.closed {
        ArrivalPlaces(s, f);
      }
    case PopInput => PopInputPlaces(s, f);
    case CheckStop => CheckStopPlaces(s, f);
    case Infer(success) => InferPlaces(s, success, f);
    case PushResult => PushResultPlaces(s, f);
    case PopOutput => PopOutputPlaces(s, f);
    case FinishFrame => FinishPlaces(s, f);
    case _ => TeardownPlaces(s, step, f);
  }

  lemma StepConserves(s: Pipeline, step: Step)
    requires Conserved(s) && Coordinated(s) && Enabled(s, step)
    ensures Conserved(Next(s, step))
  {
    forall f: Frame
      ensures Places(Next(s, step), f) == if f < Next(s, step).accepted then 1 else 0
    {
      StepPlaces(s, step, f);
    }
  }

  // ---------------------------------------------------------------- order

  /** An increasing list stays so, and below the same bound, when one element leaves it. */
  lemma DropOne(front: seq<Frame>, f: Frame, back: seq<Frame>, bound: nat)
    requires Below(front + [f] + back, bound)
    ensures Below(front + back, bound)
  {
    var whole, rest := front + [f] + back, front + back;
    forall i | 0 <= i < |rest|
      ensures rest[i] == whole[if i < |front| then i else i + 1]
    {
    }
  }

  lemma AddLast(frames: seq<Frame>, f: Frame)
    requires Below(frames, f)
    ensures Below(frames + [f], f + 1)
  {
  }

  /** The two queues of the line pass their heads on, or take in at their ends. */
  lemma LineOfArrival(s: Pipeline)
    requires !s.input.closed && Below(Line(s), s.accepted)
    ensures Below(Line(Next(s, Arrive)), s.accepted + 1)
  {
    var ahead := s.processed + ProcessingHand(s) + s.output.items + InferenceHand(s);
    AddLast(Line(s), s.accepted);
    if |s.input.items| >= QUEUE_CAPACITY {
      var back := s.input.items[1..] + [s.accepted];
      assert Line(s) + [s.accepted] == ahead + [s.input.items[0]] + back;
      DropOne(ahead, s.input.items[0], back, s.accepted + 1);
      assert Line(Next(s, Arrive)) == ahead + back;
    } else {
      assert Line(Next(s, Arrive)) == Line(s) + [s.accepted];
    }
  }

  lemma LineOfInferenceDrop(s: Pipeline, s': Pipeline)
    requires |InferenceHand(s)| == 1 && InferenceHand(s') == [] && s'.input == s.input && s'.output == s.output
    requires s'.processed == s.processed && s'.processing == s.processing
    requires Below(Line(s), s.accepted)
    ensures Below(Line(s'), s.accepted)
  {
    var ahead := s.processed + ProcessingHand(s) + s.output.items;
    DropOne(ahead, InferenceHand(s)[0], s.input.items, s.accepted);
    assert Line(s) == ahead + [InferenceHand(s)[0]] + s.input.items;
    assert Line(s') == ahead + s.input.items;
  }

  /** Where the oldest of the queued results stands in the line. */
  lemma Regrouped(ahead: seq<Frame>, items: seq<Frame>, hand: seq<Frame>, tail: seq<Frame>)
    requires items != []
    ensures ahead + items + hand + tail == ahead + [items[0]] + (items[1..] + hand + tail)
    ensures ahead + (items[1..] + hand) + [] + tail == ahead + (items[1..] + hand + tail)
  {
    assert items == [items[0]] + items[1..];
  }

  lemma LineOfResult(s: Pipeline)
    requires s.inference.Inferred? && !s.output.closed && Below(Line(s), s.accepted)
    ensures Below(Line(Next(s, PushResult)), s.accepted)
  {
    var s' := Next(s, PushResult);
    var ahead := s.processed + ProcessingHand(s);
    if |s.output.items| >= QUEUE_CAPACITY {
      var back := s.output.items[1..] + [s.inference.frame] + s.input.items;
      Regrouped(ahead, s.output.items, [s.inference.frame], s.input.items);
      DropOne(ahead, s.output.items[0], back, s.accepted);
      assert InferenceHand(s') == [] && s'.output.items == s.output.items[1..] + [s.inference.frame];
    } else {
      assert Line(s') == Line(s);
    }
  }

  lemma LineOfPopInput(s: Pipeline)
    requires Enabled(s, PopInput)
    ensures Line(Next(s, PopInput)) == Line(s)
  {
    if s.input.items != [] {
      var s' := Next(s, PopInput);
      assert InferenceHand(s') + s'.input.items == s.input.items;
      var ahead := s.processed + ProcessingHand(s) + s.output.items;
      assert Line(s') == ahead + (InferenceHand(s') + s'.input.items);
    }
  }

  lemma LineOfPopOutput(s: Pipeline)
    requires Enabled(s, PopOutput)
    ensures Line(Next(s, PopOutput)) == Line(s)
  {
    if s.output.items != [] {
      var s' := Next(s, PopOutput);
      assert ProcessingHand(s') + s'.output.items == s.output.items;
      var behind := InferenceHand(s) + s.input.items;
      assert Line(s') == s.processed + (ProcessingHand(s') + s'.output.items) + behind;
    }
  }

  lemma LineOfFinish(s: Pipeline)
    requires Enabled(s, FinishFrame)
    ensures Line(Next(s, FinishFrame)) == Line(s)
  {
  }

  lemma StepOrdered(s: Pipeline, step: Step)
    requires Ordered(s) && Coordinated(s) && Enabled(s, step)
    ensures Ordered(Next(s, step))
  {
    match step
    case Arrive =>
      if !s.input.closed {
        LineOfArrival(s);
      }
    case CheckStop =>
      if s.stopping {
        LineOfInferenceDrop(s, Next(s, step));
      }
    case Infer(success) =>
      if !success {
        LineOfInferenceDrop(s, Next(s, step));
      }
    case PushResult => LineOfResult(s);
    case PopInput => LineOfPopInput(s);
    case PopOutput => LineOfPopOutput(s);
    case FinishFrame => LineOfFinish(s);
    case _ =>
  }

  lemma {:induction false} RunKeepsInvariant(s: Pipeline, steps: seq<Step>)
    requires Invariant(s) && Legal(s, steps)
    ensures Invariant(Reached(s, steps))
    decreases |steps|
  {
    if steps != [] {
      StepCoordinated(s, steps[0]);
      StepHoldsNewest(s, steps[0]);
      StepConserves(s, steps[0]);
      StepOrdered(s, steps[0]);
      RunKeepsInvariant(Next(s, steps[0]), steps[1..]);
    }
  }

  lemma PublishedInOrder(s: Pipeline)
    requires Ordered(s)
    ensures Increasing(s.processed)
  {
    assert forall k :: 0 <= k < |s.processed| ==> s.processed[k] == Line(s)[k];
  }

  /**
   In every reachable state each accepted frame is in exactly one place, no other frame is anywhere,
   each queue holds the newest of what it was given without a gap, and the published frames keep their order of
   arrival.
   */
  lemma FramesConserved(steps: seq<Step>)
    requires Legal(INITIAL, steps)
    ensures var s := Reached(INITIAL, steps);
            && (forall f: Frame :: Places(s, f) == if f < s.accepted then 1 else 0)
            && Increasing(s.processed)
            && (forall i :: 0 <= i < |s.input.items| ==> s.input.items[i] == s.accepted - |s.input.items| + i)
            && IsNewestOf(s.output.items, s.pushed)
            && |s.input.items| <= QUEUE_CAPACITY && |s.output.items| <= QUEUE_CAPACITY
  {
    RunKeepsInvariant(INITIAL, steps);
    PublishedInOrder(Reached(INITIAL, steps));
  }

  /** A finished inference is never handed to a closed queue, so only a newer result can displace one. */
  lemma ResultsAreNeverRefused(steps: seq<Step>)
    requires Legal(INITIAL, steps)
    ensures var s := Reached(INITIAL, steps); s.inference.Inferred? ==> !s.output.closed
  {
    RunKeepsInvariant(INITIAL, steps);
  }

  // ---------------------------------------------------------------- why a frame is where it is

  /**
   A frame is displaced only from a full queue and discarded only while stopping; it fails exactly in an inference
   without success, and it is published exactly when the processing thread finishes it.
   */
  lemma MovesHaveACause(s: Pipeline, step: Step)
    requires Coordinated(s) && Enabled(s, step)
    ensures var s' := Next(s, step);
            && (s'.accepted != s.accepted <==> step.Arrive? && !s.input.closed)
            && (s'.displacedInput != s.displacedInput <==>
                  step.Arrive? && !s.input.closed && |s.input.items| == QUEUE_CAPACITY)
            && (s'.displacedOutput != s.displacedOutput <==> step.PushResult? && |s.output.items| == QUEUE_CAPACITY)
            && (s'.discarded != s.discarded <==> step.CheckStop? && s.stopping)
            && (s'.failed != s.failed <==> step == Infer(false))
            && (s'.processed != s.processed <==> step.FinishFrame?)
  {
  }

  /** The frames whose inference failed in this run, and those whose inference succeeded. */
  ghost function InferredIn(s: Pipeline, steps: seq<Step>, success: bool): seq<Frame>
    requires Legal(s, steps)
    decreases |steps|
  {
    if steps == [] then []
    else
      (if steps[0] == Infer(success) then [s.inference.frame] else [])
      + InferredIn(Next(s, steps[0]), steps[1..], success)
  }

  ghost function ResultHand(s: Pipeline): seq<Frame> {
    if s.inference.Inferred? then [s.inference.frame] else []
  }

  lemma StepSortsResults(s: Pipeline, step: Step)
    requires Coordinated(s) && Enabled(s, step)
    ensures Next(s, step).failed == s.failed + if step == Infer(false) then [s.inference.frame] else []
    ensures Next(s, step).pushed + ResultHand(Next(s, step))
            == s.pushed + ResultHand(s) + if step == Infer(true) then [s.inference.frame] else []
  {
  }

  lemma Joined(a: seq<Frame>, b: seq<Frame>, c: seq<Frame>)
    ensures (a + b) + c == a + (b + c)
  {
  }

  lemma {:induction false} ResultsAreSorted(s: Pipeline, steps: seq<Step>)
    requires Coordinated(s) && Legal(s, steps)
    ensures var s' := Reached(s, steps);
            && s'.failed == s.failed + InferredIn(s, steps, false)
            && s'.pushed + ResultHand(s') == s.pushed + ResultHand(s) + InferredIn(s, steps, true)
    decreases |steps|
  {
    if steps != [] {
      StepCoordinated(s, steps[0]);
      StepSortsResults(s, steps[0]);
      ResultsAreSorted(Next(s, steps[0]), steps[1..]);
      Joined(s.failed, if steps[0] == Infer(false) then [s.inference.frame] else [],
             InferredIn(Next(s, steps[0]), steps[1..], false));
      Joined(s.pushed + ResultHand(s), if steps[0] == Infer(true) then [s.inference.frame] else [],
             InferredIn(Next(s, steps[0]), steps[1..], true));
    }
  }

  /** Where the results are that were put on the output queue. */
  ghost function ResultPlaces(s: Pipeline, f: Frame): nat {
    Count(s.output.items, f) + Count(ProcessingHand(s), f) + Count(s.processed, f) + Count(s.displacedOutput, f)
  }

  ghost predicate ResultsConserved(s: Pipeline) {
    forall f: Frame :: ResultPlaces(s, f) == Count(s.pushed, f)
  }

  lemma PushResultKeepsResults(s: Pipeline, f: Frame)
    requires Enabled(s, PushResult) && !s.output.closed
    ensures ResultPlaces(Next(s, PushResult), f) == ResultPlaces(s, f) + Count([s.inference.frame], f)
    ensures Count(Next(s, PushResult).pushed, f) == Count(s.pushed, f) + Count([s.inference.frame], f)
  {
    CountPush(s.output, s.inference.frame, f);
    CountListed(s.displacedOutput, Pushed(s.output, QUEUE_CAPACITY, s.inference.frame).1, f);
    CountAppend(s.pushed, s.inference.frame, f);
  }

  lemma PopOutputKeepsResults(s: Pipeline, f: Frame)
    requires Enabled(s, PopOutput)
    ensures ResultPlaces(Next(s, PopOutput), f) == ResultPlaces(s, f) && Next(s, PopOutput).pushed == s.pushed
  {
    if s.output.items != [] {
      CountHead(s.output.items, f);
    }
  }

  /** The results are left alone by every other step. */
  lemma OtherStepsKeepResults(s: Pipeline, step: Step)
    requires Enabled(s, step) && !step.PushResult? && !step.PopOutput? && !step.FinishFrame?
    ensures var s' := Next(s, step);
            && s'.output.items == s.output.items && s'.processing == s.processing && s'.processed == s.processed
            && s'.displacedOutput == s.displacedOutput && s'.pushed == s.pushed
  {
  }

  lemma FinishKeepsResults(s: Pipeline, f: Frame)
    requires Enabled(s, FinishFrame)
    ensures ResultPlaces(Next(s, FinishFrame), f) == ResultPlaces(s, f) && Next(s, FinishFrame).pushed == s.pushed
  {
    CountAppend(s.processed, s.processing.frame, f);
  }

  lemma StepMovesResult(s: Pipeline, step: Step, f: Frame)
    requires Coordinated(s) && Enabled(s, step) && ResultPlaces(s, f) == Count(s.pushed, f)
    ensures ResultPlaces(Next(s, step), f) == Count(Next(s, step).pushed, f)
  {
    match step
    case PushResult => PushResultKeepsResults(s, f);
    case PopOutput => PopOutputKeepsResults(s, f);
    case FinishFrame => FinishKeepsResults(s, f);
    case _ => OtherStepsKeepResults(s, step);
  }

  lemma StepKeepsResults(s: Pipeline, step: Step)
    requires Coordinated(s) && ResultsConserved(s) && Enabled(s, step)
    ensures ResultsConserved(Next(s, step))
  {
    forall f: Frame
      ensures ResultPlaces(Next(s, step), f) == Count(Next(s, step).pushed, f)
    {
      StepMovesResult(s, step, f);
    }
  }

  lemma {:induction false} RunKeepsResults(s: Pipeline, steps: seq<Step>)
    requires Coordinated(s) && ResultsConserved(s) && Legal(s, steps)
    ensures ResultsConserved(Reached(s, steps))
    decreases |steps|
  {
    if steps != [] {
      StepCoordinated(s, steps[0]);
      StepKeepsResults(s, steps[0]);
      RunKeepsResults(Next(s, steps[0]), steps[1..]);
    }
  }

  /**
   Success decides where a frame goes. In every reachable state exactly the frames whose inference succeeded have
   been put on the output queue, but for the one still in hand; they are published, about to be, queued there or
   displaced from there, and nothing else is. Exactly the frames whose inference failed are given up as failed.
   */
  lemma SuccessDecides(steps: seq<Step>)
    requires Legal(INITIAL, steps)
    ensures var s := Reached(INITIAL, steps);
            && s.failed == InferredIn(INITIAL, steps, false)
            && s.pushed + ResultHand(s) == InferredIn(INITIAL, steps, true)
            && forall f: Frame ::
                 Count(s.output.items, f) + Count(ProcessingHand(s), f) + Count(s.processed, f)
                 + Count(s.displacedOutput, f) == Count(s.pushed, f)
  {
    ResultsAreSorted(INITIAL, steps);
    RunKeepsResults(INITIAL, steps);
    var s := Reached(INITIAL, steps);
    forall f: Frame
      ensures Count(s.output.items, f) + Count(ProcessingHand(s), f) + Count(s.processed, f)
              + Count(s.displacedOutput, f) == Count(s.pushed, f)
    {
      assert ResultPlaces(s, f) == Count(s.pushed, f);
    }
  }

  // ---------------------------------------------------------------- shutdown

  lemma OneRestingPlace(s: Pipeline, f: Frame)
    requires s.inference.Ended? && s.processing.Finished? && s.output.items == [] && Places(s, f) == 1
    ensures f in s.processed || f in s.failed || f in s.discarded || f in s.displacedInput
            || f in s.displacedOutput || f in s.input.items
  {
  }

  /** Once the destructor is through, both threads have ended and every result has been processed or displaced. */
  lemma ShutdownIsClean(steps: seq<Step>)
    requires Legal(INITIAL, steps) && Reached(INITIAL, steps).teardown.Done?
    ensures var s := Reached(INITIAL, steps);
            && s.inference.Ended? && s.processing.Finished? && s.output.items == []
            && (forall f: Frame :: f < s.accepted ==>
                  f in s.processed || f in s.failed || f in s.discarded || f in s.displacedInput
                  || f in s.displacedOutput || f in s.input.items)
  {
    RunKeepsInvariant(INITIAL, steps);
    var s := Reached(INITIAL, steps);
    forall f: Frame | f < s.accepted
      ensures f in s.processed || f in s.failed || f in s.discarded || f in s.displacedInput
              || f in s.displacedOutput || f in s.input.items
    {
      OneRestingPlace(s, f);
    }
  }

  /** How many steps the threads and the destructor can still take once the input queue is closed. */
  ghost function Remaining(s: Pipeline): nat {
    6 * |s.input.items| + 2 * |s.output.items|
    + (match s.inference
       case Waiting => 2
       case Popped(_) => 7
       case Inferring(_) => 6
       case Inferred(_) => 5
       case Leaving => 1
       case Ended => 0)
    + (match s.processing case Idle => 1 case Processing(_) => 2 case Finished => 0)
    + (match s.teardown
       case Running => 5
       case StopSet => 4
       case InputClosed => 3
       case InferenceJoined => 2
       case OutputClosed => 1
       case Done => 0)
  }

  lemma StepShortens(s: Pipeline, step: Step)
    requires Coordinated(s) && Enabled(s, step) && s.input.closed
    ensures step.Arrive? ==> Next(s, step) == s
    ensures !step.Arrive? ==> Remaining(Next(s, step)) < Remaining(s)
    ensures Next(s, step).input.closed
  {
  }

  /** The destructor never hangs: until it is through, it or one of the threads can move. */
  lemma ShutdownProgresses(s: Pipeline) returns (step: Step)
    requires Coordinated(s) && !s.teardown.Running? && !s.teardown.Done?
    ensures !step.Arrive? && Enabled(s, step)
  {
    match s.teardown
    case StopSet => step := CloseInput;
    case InputClosed =>
      match s.inference {
        case Waiting => step := PopInput;
        case Popped(_) => step := CheckStop;
        case Inferring(_) => step := Infer(false);
        case Inferred(_) => step := PushResult;
        case Leaving => step := LeaveInference;
        case Ended => step := JoinInference;
      }
    case InferenceJoined => step := CloseOutput;
    case OutputClosed =>
      match s.processing {
        case Idle => step := PopOutput;
        case Processing(_) => step := FinishFrame;
        case Finished => step := JoinProcessing;
      }
  }

  ghost function Moves(steps: seq<Step>): nat {
    if steps == [] then 0 else (if steps[0].Arrive? then 0 else 1) + Moves(steps[1..])
  }

  /**
   Under every schedule, and however many images still arrive, the threads and the destructor take at most
   `Remaining(s)` steps once the input queue is closed; with `ShutdownProgresses` the destructor returns.
   */
  lemma {:induction false} ShutdownIsBounded(s: Pipeline, steps: seq<Step>)
    requires Coordinated(s) && s.input.closed && Legal(s, steps)
    ensures Moves(steps) + Remaining(Reached(s, steps)) <= Remaining(s)
    decreases |steps|
  {
    if steps != [] {
      StepShortens(s, steps[0]);
      StepCoordinated(s, steps[0]);
      ShutdownIsBounded(Next(s, steps[0]), steps[1..]);
    }
  }
}
