/**
 The microphone, the capture thread, the receive thread and the caller of the speech input, each step atomic.
 The caller is the microphone loop: it listens, runs one voice turn per sentence, and may also run a turn of its
 own to reconcile an earlier action. Frames are numbered in the order in which they arrive in the recorder's pipe.
 */
module VoiceSession {
  import opened Prelude
  import opened LiveSpeech

  /** The pipe of the recorder and its reader: frames that arrived and are not yet read, and the one the thread holds. */
  datatype Microphone = Microphone(backlog: seq<nat>, arrived: nat, hand: Option<nat>, alive: bool)

  datatype Receiver = Offline | Online | Stopped

  datatype Link = Link(receiver: Receiver, failures: nat, error: bool, sent: seq<Sound>)

  /**
   `Entered(None)` is a reconcile turn before it pauses the input; `Ended` is a listen that raised, with the
   sentence it had taken, if any.
   */
  datatype Caller =
    | AtListen
    | Holding(sentence: Option<string>)
    | Called(text: string)
    | Entered(reason: Option<string>)
    | Interacting
    | Resuming
    | Ended(dropped: Option<string>)

  /**
   `marks[k]` is how many resumes had been processed when `accepted[k]` was accepted. A sentence is taken when a
   listen empties the slot, and delivered when that listen returns it.
   */
  datatype History = History(
    accepted: seq<string>,
    marks: seq<nat>,
    taken: seq<string>,
    delivered: seq<string>,
    resumes: nat,
    resumedAt: nat)

  datatype System = System(
    input: Input,
    microphone: Microphone,
    link: Link,
    caller: Caller,
    voiceClosed: bool,
    history: History)

  const START := System(
    OPENING, Microphone([], 0, None, true), Link(Offline, 0, false, []), AtListen, false, History([], [], [], [], 0, 0))

  datatype Step =
    | Arrive
    | Read
    | Capture(reachable: bool)
    | CaptureFails
    | Connect
    | Lose
    | Hear(event: Event)
    | Take
    | Return
    | Begin
    | BeginReconcile
    | PauseInput
    | EndTurn
    | AskResume
    | CloseVoice
    | CloseInput

  predicate Enabled(s: System, step: Step) {
    match step
    case Arrive => true
    case Read => s.microphone.alive && s.microphone.hand.None? && s.microphone.backlog != []
    case Capture(_) => s.microphone.alive && s.microphone.hand.Some?
    case CaptureFails => s.microphone.alive
    case Connect => s.link.receiver.Offline?
    case Lose => !s.link.receiver.Stopped?
    case Hear(event) => s.link.receiver.Online? && !Heard(s.input, event).1.Broken?
    case Take => s.caller.AtListen?
    case Return => s.caller.Holding? && (s.input.closed ==> s.link.receiver.Stopped?)
    case Begin => s.caller.Called?
    case BeginReconcile => s.caller.AtListen?
    case PauseInput => s.caller.Entered?
    case EndTurn => s.caller.Interacting?
    case AskResume => s.caller.Resuming?
    case CloseVoice => true
    case CloseInput => true
  }

  function AfterCapture(s: System, reachable: bool): System
    requires s.microphone.hand.Some?
  {
    var (input, use) := Captured(s.input, s.microphone.hand.value, reachable);
    var emptied := s.(input := input, microphone := s.microphone.(hand := None));
    match use
    case Discarded =>
      emptied.(microphone := emptied.microphone.(backlog := []),
               history := s.history.(resumes := s.history.resumes + 1, resumedAt := s.microphone.arrived))
    case Sent(sound) => emptied.(link := s.link.(sent := s.link.sent + [sound]))
    case _ => emptied
  }

  /** A broken connection is retried until too many have failed in a row; a dead capture thread is not. */
  function AfterLoss(attempts: nat, s: System): System {
    var input := Dropped(s.input);
    if s.input.closed then s.(input := input, link := s.link.(receiver := Stopped))
    else if !s.microphone.alive then
      s.(input := input.(closed := true), link := s.link.(receiver := Stopped, error := true))
    else if s.link.failures + 1 >= attempts then
      s.(input := input.(closed := true),
         link := s.link.(receiver := Stopped, error := true, failures := s.link.failures + 1))
    else s.(input := input, link := s.link.(receiver := Offline, failures := s.link.failures + 1))
  }

  function AfterEvent(s: System, event: Event): System {
    var (input, verdict) := Heard(s.input, event);
    if verdict.Accepted? then
      s.(input := input, link := s.link.(failures := 0),
         history := s.history.(accepted := s.history.accepted + [event.text],
                               marks := s.history.marks + [s.history.resumes]))
    else s
  }

  function AfterTake(s: System): System {
    var (input, sentence) := Taken(s.input);
    s.(input := input, caller := Holding(sentence),
       history := s.history.(taken := s.history.taken + Listed(sentence)))
  }

  function Listed(sentence: Option<string>): seq<string> {
    if sentence.Some? then [sentence.value] else []
  }

  /** After a failure of the receive thread a listen raises, whatever it has taken. */
  function AfterReturn(s: System): System
    requires s.caller.Holding?
  {
    if s.link.error then s.(caller := Ended(s.caller.sentence))
    else
      match s.caller.sentence
      case None => s.(caller := AtListen)
      case Some(text) =>
        s.(caller := Called(text), history := s.history.(delivered := s.history.delivered + [text]))
  }

  function Next(attempts: nat, s: System, step: Step): System
    requires Enabled(s, step)
  {
    match step
    case Arrive =>
      s.(microphone := s.microphone.(backlog := s.microphone.backlog + [s.microphone.arrived],
                                     arrived := s.microphone.arrived + 1))
    case Read =>
      s.(microphone := s.microphone.(backlog := s.microphone.backlog[1..], hand := Some(s.microphone.backlog[0])))
    case Capture(reachable) => AfterCapture(s, reachable)
    case CaptureFails => s.(microphone := s.microphone.(alive := false))
    case Connect => s.(input := Opened(s.input), link := s.link.(receiver := Online, sent := []))
    case Lose => AfterLoss(attempts, s)
    case Hear(event) => AfterEvent(s, event)
    case Take => AfterTake(s)
    case Return => AfterReturn(s)
    case Begin => s.(caller := if s.voiceClosed then AtListen else Entered(Some(s.caller.text)))
    case BeginReconcile => s.(caller := if s.voiceClosed then AtListen else Entered(None))
    case PauseInput => s.(input := Paused(s.input), caller := Interacting)
    case EndTurn => s.(caller := if s.voiceClosed then AtListen else Resuming)
    case AskResume => s.(input := ResumeAsked(s.input), caller := AtListen)
    case CloseVoice => s.(voiceClosed := true)
    case CloseInput => s.(input := s.input.(closed := true))
  }

  ghost predicate Legal(attempts: nat, s: System, steps: seq<Step>)
    decreases |steps|
  {
    steps == [] || (Enabled(s, steps[0]) && Legal(attempts, Next(attempts, s, steps[0]), steps[1..]))
  }

  ghost function Reached(attempts: nat, s: System, steps: seq<Step>): System
    requires Legal(attempts, s, steps)
    decreases |steps|
  {
    if steps == [] then s else Reached(attempts, Next(attempts, s, steps[0]), steps[1..])
  }

  // ---------------------------------------------------------------- what goes out, whoever calls

  ghost predicate Increasing(marks: seq<nat>) {
    forall i, j :: 0 <= i < j < |marks| ==> marks[i] < marks[j]
  }

  /** Nothing that arrived before the last processed resume is waiting to be read, held, or sent since it. */
  ghost predicate Fresh(s: System) {
    var m := s.microphone;
    && s.history.resumedAt <= m.arrived
    && (forall k :: 0 <= k < |m.backlog| ==> s.history.resumedAt <= m.backlog[k] < m.arrived)
    && (m.hand.Some? ==> s.history.resumedAt <= m.hand.value < m.arrived)
  }

  /** From the acceptance position on, the connection carries nothing but audio that arrived since the last resume. */
  ghost predicate OnlyRealFrom(s: System) {
    forall k :: 0 <= k < |s.link.sent| && s.input.acceptAfterMs <= 100 * k ==>
      s.link.sent[k].Real? && s.history.resumedAt <= s.link.sent[k].tick
  }

  ghost predicate AudioSound(s: System) {
    && Fresh(s)
    && s.input.sentSamples == FRAME_SAMPLES * |s.link.sent|
    && (!s.input.paused ==> OnlyRealFrom(s))
    && |s.history.marks| == |s.history.accepted|
    && Increasing(s.history.marks)
    && (forall k :: 0 <= k < |s.history.marks| ==>
          if s.input.paused then s.history.marks[k] <= s.history.resumes else s.history.marks[k] < s.history.resumes)
  }

  lemma CaptureKeepsAudio(s: System, reachable: bool)
    requires AudioSound(s) && s.microphone.hand.Some?
    ensures AudioSound(AfterCapture(s, reachable))
  {
  }

  lemma EventKeepsAudio(s: System, event: Event)
    requires AudioSound(s)
    ensures AudioSound(AfterEvent(s, event))
  {
  }

  lemma MicrophoneKeepsAudio(attempts: nat, s: System, step: Step)
    requires AudioSound(s) && Enabled(s, step) && (step.Arrive? || step.Read?)
    ensures AudioSound(Next(attempts, s, step))
  {
  }

  lemma LinkKeepsAudio(attempts: nat, s: System, step: Step)
    requires AudioSound(s) && Enabled(s, step) && (step.Connect? || step.Lose?)
    ensures AudioSound(Next(attempts, s, step))
  {
  }

  lemma StepKeepsAudio(attempts: nat, s: System, step: Step)
    requires AudioSound(s) && Enabled(s, step)
    ensures AudioSound(Next(attempts, s, step))
  {
    match step
    case Arrive => MicrophoneKeepsAudio(attempts, s, step);
    case Read => MicrophoneKeepsAudio(attempts, s, step);
    case Connect => LinkKeepsAudio(attempts, s, step);
    case Lose => LinkKeepsAudio(attempts, s, step);
    case Capture(reachable) => CaptureKeepsAudio(s, reachable);
    case Hear(event) => EventKeepsAudio(s, event);
    case _ =>
  }

  lemma {:induction false} RunKeepsAudio(attempts: nat, s: System, steps: seq<Step>)
    requires AudioSound(s) && Legal(attempts, s, steps)
    ensures AudioSound(Reached(attempts, s, steps))
    decreases |steps|
  {
    if steps != [] {
      StepKeepsAudio(attempts, s, steps[0]);
      RunKeepsAudio(attempts, Next(attempts, s, steps[0]), steps[1..]);
    }
  }

  /** Whatever real frame goes out in any run arrived, and so was read, after the last processed resume. */
  lemma RealFramesAreFresh(attempts: nat, steps: seq<Step>, reachable: bool)
    requires Legal(attempts, START, steps) && Enabled(Reached(attempts, START, steps), Capture(reachable))
    ensures var s := Reached(attempts, START, steps);
            var s' := Next(attempts, s, Capture(reachable));
            s'.link.sent != s.link.sent ==>
              && s'.link.sent == s.link.sent + [s'.link.sent[|s.link.sent|]]
              && (s'.link.sent[|s.link.sent|].Real? ==>
                    !s.input.paused && s.history.resumedAt <= s'.link.sent[|s.link.sent|].tick)
  {
    RunKeepsAudio(attempts, START, steps);
  }

  /**
   A sentence is only accepted from real audio that arrived since the last processed resume: it begins
   at or after the acceptance position, and from there on the connection has carried nothing else.
   */
  lemma SentencesComeFromLiveAudio(attempts: nat, steps: seq<Step>, event: Event)
    requires Legal(attempts, START, steps) && Enabled(Reached(attempts, START, steps), Hear(event))
    ensures var s := Reached(attempts, START, steps);
            var s' := Next(attempts, s, Hear(event));
            s'.history.accepted != s.history.accepted ==>
              && event.Sentence? && s'.history.accepted == s.history.accepted + [event.text]
              && !Blank(event.text)
              && s.input.acceptAfterMs <= event.begin
              && forall k :: 0 <= k < |s.link.sent| && s.input.acceptAfterMs <= 100 * k ==>
                   s.link.sent[k].Real? && s.history.resumedAt <= s.link.sent[k].tick
  {
    RunKeepsAudio(attempts, START, steps);
  }

  /** Between any two accepted sentences a resume was processed, whatever the caller does. */
  lemma AResumeSeparatesSentences(attempts: nat, steps: seq<Step>, i: nat, j: nat)
    requires Legal(attempts, START, steps) && i < j < |Reached(attempts, START, steps).history.accepted|
    ensures var h := Reached(attempts, START, steps).history;
            |h.marks| == |h.accepted| && h.marks[i] < h.marks[j] <= h.resumes
  {
    RunKeepsAudio(attempts, START, steps);
  }

  /**
   Any event that is not malformed can be heard, and a sentence is accepted exactly if the input is not paused, the
   sentence begins at or after the acceptance position, and its text is not blank. It then fills the slot, pauses
   the input, joins the accepted ones and ends the count of failures; any other event changes nothing at all.
   */
  lemma AcceptedExactly(attempts: nat, s: System, event: Event)
    ensures Enabled(s, Hear(event)) <==>
              s.link.receiver.Online? && !event.Malformed? && (event.Sentence? ==> event.begin >= 0)
    ensures Enabled(s, Hear(event)) ==>
              var s' := Next(attempts, s, Hear(event));
              if event.Sentence? && !s.input.paused && event.begin >= s.input.acceptAfterMs && !Blank(event.text)
              then && s'.input == s.input.(paused := true, text := Some(event.text))
                   && s'.history.accepted == s.history.accepted + [event.text]
                   && s'.history.taken == s.history.taken && s'.history.delivered == s.history.delivered
                   && s'.link == s.link.(failures := 0) && s'.microphone == s.microphone && s'.caller == s.caller
              else s' == s
  {
  }

  /**
   What becomes of a frame. A pending resume drops it with the whole backlog, lifts the pause and sets the acceptance
   position to the end of what has been sent, at 100 ms a frame; without a connection it is skipped; otherwise
   exactly one frame goes out, itself or silence while the input is paused, unless sending fails.
   */
  lemma FrameIsUsed(attempts: nat, steps: seq<Step>, reachable: bool)
    requires Legal(attempts, START, steps) && Enabled(Reached(attempts, START, steps), Capture(reachable))
    ensures var s := Reached(attempts, START, steps);
            var s' := Next(attempts, s, Capture(reachable));
            var tick := s.microphone.hand.value;
            && s'.microphone.hand == None && s'.microphone.arrived == s.microphone.arrived
            && s'.history.accepted == s.history.accepted && s'.caller == s.caller && s'.input.text == s.input.text
            && if s.input.resumeRequested then
                 && !s'.input.paused && !s'.input.resumeRequested && s'.input.acceptAfterMs == 100 * |s.link.sent|
                 && s'.microphone.backlog == [] && s'.link == s.link
                 && s'.history.resumes == s.history.resumes + 1 && s'.history.resumedAt == s.microphone.arrived
               else
                 && s'.microphone.backlog == s.microphone.backlog && s'.history == s.history
                 && s'.input.paused == s.input.paused && s'.input.acceptAfterMs == s.input.acceptAfterMs
                 && s'.input.streaming == (s.input.streaming && reachable)
                 && s'.link == s.link.(sent := s.link.sent + if !s.input.streaming || !reachable then []
                                                             else if s.input.paused then [Silence] else [Real(tick)])
                 && s'.input.sendFailed == (s.input.sendFailed || (s.input.streaming && !reachable))
  {
    RunKeepsAudio(attempts, START, steps);
  }

  // ---------------------------------------------------------------- what the caller is owed

  /** A reconcile turn pauses the input while no sentence waits in the slot; other steps are unrestricted. */
  predicate Tame(s: System, step: Step) {
    step.PauseInput? && s.caller == Entered(None) ==> s.input.text.None?
  }

  ghost predicate AllTame(attempts: nat, s: System, steps: seq<Step>)
    requires Legal(attempts, s, steps)
    decreases |steps|
  {
    steps == [] || (Tame(s, steps[0]) && AllTame(attempts, Next(attempts, s, steps[0]), steps[1..]))
  }

  predicate Quiet(i: Input) {
    i.paused && !i.resumeRequested && i.text.None?
  }

  /** An open input that is paused with an empty slot has been asked to resume. */
  predicate WillResume(s: System) {
    !s.input.closed && !s.voiceClosed && s.input.paused && s.input.text.None? ==> s.input.resumeRequested
  }

  ghost predicate Served(s: System) {
    && (s.input.resumeRequested ==> s.input.paused)
    && (s.input.text.Some? ==> s.input.paused && !s.input.resumeRequested)
    && s.history.accepted == s.history.taken + Listed(s.input.text)
    && match s.caller
       case AtListen => WillResume(s)
       case Holding(sentence) => if sentence.Some? then Quiet(s.input) else WillResume(s)
       case Called(_) => Quiet(s.input)
       case Entered(reason) => if reason.Some? then Quiet(s.input) else WillResume(s)
       case Interacting => Quiet(s.input)
       case Resuming => Quiet(s.input)
       case Ended(_) => true
  }

  lemma CaptureKeepsServed(s: System, reachable: bool)
    requires Served(s) && s.microphone.hand.Some?
    ensures Served(AfterCapture(s, reachable))
  {
  }

  lemma EventKeepsServed(s: System, event: Event)
    requires Served(s)
    ensures Served(AfterEvent(s, event))
  {
  }

  lemma LossKeepsServed(attempts: nat, s: System)
    requires Served(s)
    ensures Served(AfterLoss(attempts, s))
  {
  }

  predicate IsCallerStep(step: Step) {
    || step.Take? || step.Return? || step.Begin? || step.BeginReconcile? || step.PauseInput? || step.EndTurn?
    || step.AskResume?
  }

  lemma CallerKeepsServed(attempts: nat, s: System, step: Step)
    requires Served(s) && Enabled(s, step) && Tame(s, step) && IsCallerStep(step)
    ensures Served(Next(attempts, s, step))
  {
  }

  lemma StepKeepsServed(attempts: nat, s: System, step: Step)
    requires Served(s) && Enabled(s, step) && Tame(s, step)
    ensures Served(Next(attempts, s, step))
  {
    if IsCallerStep(step) {
      CallerKeepsServed(attempts, s, step);
    } else {
      match step
      case Capture(reachable) => CaptureKeepsServed(s, reachable);
      case Hear(event) => EventKeepsServed(s, event);
      case Lose => LossKeepsServed(attempts, s);
      case _ =>
    }
  }

  lemma {:induction false} RunKeepsServed(attempts: nat, s: System, steps: seq<Step>)
    requires Served(s) && Legal(attempts, s, steps) && AllTame(attempts, s, steps)
    ensures Served(Reached(attempts, s, steps))
    decreases |steps|
  {
    if steps != [] {
      StepKeepsServed(attempts, s, steps[0]);
      RunKeepsServed(attempts, Next(attempts, s, steps[0]), steps[1..]);
    }
  }

  /**
   Over any run the slot is never overwritten: accepted sentences are taken once and in order. None is accepted
   while a turn holds the input, and back at listen, an open paused input with an empty slot is about to resume.
   */
  lemma SlotIsNeverOverwritten(attempts: nat, steps: seq<Step>)
    requires Legal(attempts, START, steps) && AllTame(attempts, START, steps)
    ensures var s := Reached(attempts, START, steps);
            && s.history.accepted == s.history.taken + Listed(s.input.text)
            && (s.caller.Interacting? || s.caller.Resuming? ==> Quiet(s.input))
            && (s.caller.AtListen? ==> WillResume(s))
  {
    RunKeepsServed(attempts, START, steps);
  }

  /** What the listen at work, or the one that raised, has taken and not returned. */
  function InHand(c: Caller): Option<string> {
    match c
    case Holding(sentence) => sentence
    case Ended(dropped) => dropped
    case _ => None
  }

  ghost predicate Accounted(s: System) {
    && s.history.taken == s.history.delivered + Listed(InHand(s.caller))
    && (s.caller.Ended? ==> s.link.error)
  }

  lemma StepKeepsAccount(attempts: nat, s: System, step: Step)
    requires Accounted(s) && Enabled(s, step)
    ensures Accounted(Next(attempts, s, step))
  {
  }

  lemma {:induction false} RunKeepsAccount(attempts: nat, s: System, steps: seq<Step>)
    requires Accounted(s) && Legal(attempts, s, steps)
    ensures Accounted(Reached(attempts, s, steps))
    decreases |steps|
  {
    if steps != [] {
      StepKeepsAccount(attempts, s, steps[0]);
      RunKeepsAccount(attempts, Next(attempts, s, steps[0]), steps[1..]);
    }
  }

  /**
   Every accepted sentence is delivered to the caller, once and in order, but for the one in the slot and the one
   a listen has in hand. That one is returned exactly if the receive thread has not failed by then; if it has,
   the caller ends, and gets neither this sentence nor any later one.
   */
  lemma EverySentenceReachesTheCaller(attempts: nat, steps: seq<Step>)
    requires Legal(attempts, START, steps) && AllTame(attempts, START, steps)
    ensures var s := Reached(attempts, START, steps);
            && s.history.accepted == s.history.delivered + Listed(InHand(s.caller)) + Listed(s.input.text)
            && (s.caller.Ended? ==> s.link.error)
            && (Enabled(s, Return) && InHand(s.caller).Some? ==>
                  var s' := Next(attempts, s, Return);
                  && (s'.history.delivered == s.history.delivered + Listed(InHand(s.caller)) <==> !s.link.error)
                  && (s.link.error ==> s'.caller == Ended(InHand(s.caller))))
  {
    RunKeepsServed(attempts, START, steps);
    RunKeepsAccount(attempts, START, steps);
  }

  /** A caller that has ended is never given anything any more. */
  lemma {:induction false} EndedGetsNothing(attempts: nat, s: System, steps: seq<Step>)
    requires s.caller.Ended? && Legal(attempts, s, steps)
    ensures Reached(attempts, s, steps).caller == s.caller
    ensures Reached(attempts, s, steps).history.delivered == s.history.delivered
    decreases |steps|
  {
    if steps != [] {
      EndedGetsNothing(attempts, Next(attempts, s, steps[0]), steps[1..]);
    }
  }

  /** A loop that only listens and runs one turn per sentence, as the voice node does, is always tame. */
  lemma {:induction false} ListeningLoopIsTame(attempts: nat, s: System, steps: seq<Step>)
    requires Legal(attempts, s, steps) && s.caller != Entered(None)
    requires forall k :: 0 <= k < |steps| ==> !steps[k].BeginReconcile?
    ensures AllTame(attempts, s, steps)
    decreases |steps|
  {
    if steps != [] {
      ListeningLoopIsTame(attempts, Next(attempts, s, steps[0]), steps[1..]);
    }
  }

  // ---------------------------------------------------------------- where the promise ends

  /** The steps after a reconcile turn found the slot full that let the next sentence replace the waiting one. */
  function Overwriting(s: System, text: string): seq<Step> {
    [PauseInput, EndTurn, AskResume] + (if s.microphone.hand.None? then [Arrive, Read] else [])
    + [Capture(true), Hear(Sentence(text, s.input.sentSamples / 16))]
  }

  lemma LegalStep(attempts: nat, s: System, first: Step, rest: seq<Step>)
    requires Enabled(s, first) && Legal(attempts, Next(attempts, s, first), rest)
    ensures Legal(attempts, s, [first] + rest)
    ensures Reached(attempts, s, [first] + rest) == Reached(attempts, Next(attempts, s, first), rest)
  {
    assert ([first] + rest)[1..] == rest;
  }

  /** The slot has only ever been emptied by taking. */
  ghost predicate Kept(s: System) {
    s.history.accepted == s.history.taken + Listed(s.input.text)
  }

  ghost predicate CanLose(attempts: nat, s: System) {
    exists steps :: Legal(attempts, s, steps) && !Kept(Reached(attempts, s, steps))
  }

  /** While the receive thread is connected: the steps after which that sentence is gone without having been taken. */
  lemma UntameTurnCanLoseASentence(attempts: nat, s: System, text: string)
    requires s.caller == Entered(None) && s.input.text.Some? && s.link.receiver.Online?
    requires !s.input.closed && !s.voiceClosed && s.microphone.alive && !Blank(text)
    ensures Legal(attempts, s, Overwriting(s, text))
    ensures var r := Reached(attempts, s, Overwriting(s, text));
            && r.history.taken == s.history.taken
            && r.history.accepted == s.history.accepted + [text]
            && r.input.text == Some(text)
  {
    var asked := s.(input := ResumeAsked(Paused(s.input)), caller := AtListen);
    var hear := Hear(Sentence(text, s.input.sentSamples / 16));
    OverwritingOnceAsked(attempts, asked, text);
    var tail := (if s.microphone.hand.None? then [Arrive, Read] else []) + [Capture(true), hear];
    LegalStep(attempts, s.(input := Paused(s.input), caller := Resuming), AskResume, tail);
    LegalStep(attempts, s.(input := Paused(s.input), caller := Interacting), EndTurn, [AskResume] + tail);
    LegalStep(attempts, s, PauseInput, [EndTurn] + ([AskResume] + tail));
    assert Overwriting(s, text) == [PauseInput] + ([EndTurn] + ([AskResume] + tail));
  }

  /** With a frame in hand, the resume is processed and the next sentence accepted. */
  lemma OverwritingWithFrame(attempts: nat, s: System, text: string)
    requires s.microphone.alive && s.microphone.hand.Some? && s.input.resumeRequested && s.link.receiver.Online?
    requires !Blank(text)
    ensures var steps := [Capture(true), Hear(Sentence(text, s.input.sentSamples / 16))];
            && Legal(attempts, s, steps)
            && var r := Reached(attempts, s, steps);
               && r.history.taken == s.history.taken && r.history.accepted == s.history.accepted + [text]
               && r.input.text == Some(text)
  {
    var hear := Hear(Sentence(text, s.input.sentSamples / 16));
    LegalStep(attempts, AfterCapture(s, true), hear, []);
    LegalStep(attempts, s, Capture(true), [hear]);
    assert [Capture(true)] + [hear] == [Capture(true), hear];
  }

  lemma OverwritingOnceAsked(attempts: nat, s: System, text: string)
    requires s.microphone.alive && s.input.resumeRequested && s.link.receiver.Online? && !Blank(text)
    ensures var steps := (if s.microphone.hand.None? then [Arrive, Read] else [])
                         + [Capture(true), Hear(Sentence(text, s.input.sentSamples / 16))];
            && Legal(attempts, s, steps)
            && var r := Reached(attempts, s, steps);
               && r.history.taken == s.history.taken && r.history.accepted == s.history.accepted + [text]
               && r.input.text == Some(text)
  {
    var tail := [Capture(true), Hear(Sentence(text, s.input.sentSamples / 16))];
    if s.microphone.hand.None? {
      var arrived := Next(attempts, s, Arrive);
      OverwritingWithFrame(attempts, Next(attempts, arrived, Read), text);
      LegalStep(attempts, arrived, Read, tail);
      LegalStep(attempts, s, Arrive, [Read] + tail);
      assert [Arrive] + ([Read] + tail) == [Arrive, Read] + tail;
    } else {
      OverwritingWithFrame(attempts, s, text);
      assert [] + tail == tail;
    }
  }

  lemma LosesAfterOverwriting(attempts: nat, s: System)
    requires Kept(s) && s.caller == Entered(None) && s.input.text.Some? && s.link.receiver.Online?
    requires !s.input.closed && !s.voiceClosed && s.microphone.alive
    ensures CanLose(attempts, s)
  {
    assert !IsStripped("x"[0]);
    UntameTurnCanLoseASentence(attempts, s, "x");
    var r := Reached(attempts, s, Overwriting(s, "x"));
    assert |r.history.accepted| == |r.history.taken + Listed(r.input.text)| + 1;
  }

  /** No sentence can be accepted any more, or the input can never resume. */
  ghost predicate Sealed(s: System) {
    || s.link.receiver.Stopped?
    || (s.input.paused
        && (!s.microphone.alive
            || (!s.input.resumeRequested && (s.input.closed || (s.voiceClosed && !s.caller.Resuming?)))))
  }

  lemma StepKeepsSealed(attempts: nat, s: System, step: Step)
    requires Sealed(s) && Enabled(s, step)
    ensures Sealed(Next(attempts, s, step))
  {
  }

  lemma SealedStepKeeps(attempts: nat, s: System, step: Step)
    requires Sealed(s) && Kept(s) && Enabled(s, step)
    ensures Kept(Next(attempts, s, step))
  {
  }

  lemma {:induction false} SealedLosesNothing(attempts: nat, s: System, steps: seq<Step>)
    requires Sealed(s) && Kept(s) && Legal(attempts, s, steps)
    ensures Kept(Reached(attempts, s, steps))
    decreases |steps|
  {
    if steps != [] {
      StepKeepsSealed(attempts, s, steps[0]);
      SealedStepKeeps(attempts, s, steps[0]);
      SealedLosesNothing(attempts, Next(attempts, s, steps[0]), steps[1..]);
    }
  }

  /**
   A reconcile turn about to pause an input whose slot is full: the sentence can still be lost exactly if the
   receive thread has not ended, the microphone is read, and neither the input nor the voice is closed.
   */
  lemma UntameTurnCanLoseExactlyWhileAlive(attempts: nat, s: System)
    requires Served(s) && s.caller == Entered(None) && s.input.text.Some?
    ensures CanLose(attempts, s) <==>
              !s.link.receiver.Stopped? && s.microphone.alive && !s.input.closed && !s.voiceClosed
  {
    if s.link.receiver.Stopped? || !s.microphone.alive || s.input.closed || s.voiceClosed {
      forall steps | Legal(attempts, s, steps)
        ensures Kept(Reached(attempts, s, steps))
      {
        SealedLosesNothing(attempts, s, steps);
      }
    } else if s.link.receiver.Online? {
      LosesAfterOverwriting(attempts, s);
    } else {
      var online := Next(attempts, s, Connect);
      LosesAfterOverwriting(attempts, online);
      LosesAfterStep(attempts, s, Connect);
    }
  }

  // ---------------------------------------------------------------- a turn that ends while the voice is closed

  /** Paused, not asked to resume, and no turn left that would ask. */
  predicate Stuck(s: System) {
    s.input.paused && !s.input.resumeRequested && s.voiceClosed && !s.caller.Resuming?
  }

  lemma {:induction false} StuckForever(attempts: nat, s: System, steps: seq<Step>)
    requires Stuck(s) && Legal(attempts, s, steps)
    ensures Stuck(Reached(attempts, s, steps))
    decreases |steps|
  {
    if steps != [] {
      StuckForever(attempts, Next(attempts, s, steps[0]), steps[1..]);
    }
  }

  /**
   Any turn of any tame run that ends with the input open: it goes back to listen without asking for a resume
   exactly if the voice is closed by then, and the input then stays paused for good. Otherwise it asks.
   */
  lemma ClosingVoiceLeavesInputPaused(attempts: nat, steps: seq<Step>, more: seq<Step>)
    requires Legal(attempts, START, steps) && AllTame(attempts, START, steps)
    requires Reached(attempts, START, steps).caller.Interacting? && !Reached(attempts, START, steps).input.closed
    requires Legal(attempts, Next(attempts, Reached(attempts, START, steps), EndTurn), more)
    ensures var s := Reached(attempts, START, steps);
            var ended := Next(attempts, s, EndTurn);
            && Quiet(ended.input)
            && (ended.caller.AtListen? <==> s.voiceClosed)
            && (s.voiceClosed ==> Stuck(Reached(attempts, ended, more)))
            && (!s.voiceClosed ==>
                  ended.caller.Resuming? && Next(attempts, ended, AskResume).input.resumeRequested)
  {
    RunKeepsServed(attempts, START, steps);
    var s := Reached(attempts, START, steps);
    assert Quiet(s.input);
    var ended := Next(attempts, s, EndTurn);
    if ended.voiceClosed {
      StuckForever(attempts, ended, more);
    }
  }

  // ---------------------------------------------------------------- the failing sides are reached

  /** A tame step before a tame run. */
  lemma TameStep(attempts: nat, s: System, first: Step, rest: seq<Step>)
    requires Enabled(s, first) && Tame(s, first)
    requires Legal(attempts, Next(attempts, s, first), rest) && AllTame(attempts, Next(attempts, s, first), rest)
    ensures Legal(attempts, s, [first] + rest) && AllTame(attempts, s, [first] + rest)
    ensures Reached(attempts, s, [first] + rest) == Reached(attempts, Next(attempts, s, first), rest)
  {
    assert ([first] + rest)[1..] == rest;
  }

  ghost predicate TameReach(attempts: nat, s: System, t: System) {
    exists steps :: Legal(attempts, s, steps) && AllTame(attempts, s, steps) && Reached(attempts, s, steps) == t
  }

  lemma TameReachSelf(attempts: nat, s: System)
    ensures TameReach(attempts, s, s)
  {
    assert Legal(attempts, s, []) && AllTame(attempts, s, []) && Reached(attempts, s, []) == s;
  }

  lemma TameReachStep(attempts: nat, s: System, first: Step, t: System)
    requires Enabled(s, first) && Tame(s, first) && TameReach(attempts, Next(attempts, s, first), t)
    ensures TameReach(attempts, s, t)
  {
    var next := Next(attempts, s, first);
    var rest :| Legal(attempts, next, rest) && AllTame(attempts, next, rest) && Reached(attempts, next, rest) == t;
    TameStep(attempts, s, first, rest);
  }

  /** Connected, and the sentence "x" accepted. */
  lemma FirstSentence(attempts: nat) returns (connected: System, s: System)
    ensures connected == Next(attempts, START, Connect)
    ensures Enabled(connected, Hear(Sentence("x", 0))) && s == Next(attempts, connected, Hear(Sentence("x", 0)))
    ensures s.input.text == Some("x") && s.history.accepted == ["x"] && s.history.taken == [] && s.caller.AtListen?
    ensures s.input.paused && !s.input.closed && !s.voiceClosed && !s.link.error
    ensures s.link.receiver.Online? && s.microphone.alive && s.history.delivered == []
  {
    connected := Next(attempts, START, Connect);
    assert !IsStripped("x"[0]);
    s := Next(attempts, connected, Hear(Sentence("x", 0)));
  }

  lemma TurnCloses(attempts: nat, called: System) returns (t: System)
    requires called.caller == Called("x") && !called.voiceClosed && !called.input.closed
    ensures TameReach(attempts, called, t) && t.caller.Interacting? && t.voiceClosed && !t.input.closed
    ensures t.history == called.history
  {
    var entered := Next(attempts, called, Begin);
    var turn := Next(attempts, entered, PauseInput);
    t := Next(attempts, turn, CloseVoice);
    TameReachSelf(attempts, t);
    TameReachStep(attempts, turn, CloseVoice, t);
    TameReachStep(attempts, entered, PauseInput, t);
    TameReachStep(attempts, called, Begin, t);
  }

  /** A listening loop comes to a turn that ends while the voice is closed and the input still open. */
  lemma ClosingTurnIsReached(attempts: nat) returns (t: System)
    ensures TameReach(attempts, START, t) && t.caller.Interacting? && t.voiceClosed && !t.input.closed
    ensures t.history.delivered == ["x"]
  {
    var connected, heard := FirstSentence(attempts);
    var taken := Next(attempts, heard, Take);
    var called := Next(attempts, taken, Return);
    t := TurnCloses(attempts, called);
    TameReachStep(attempts, taken, Return, t);
    TameReachStep(attempts, heard, Take, t);
    TameReachStep(attempts, connected, Hear(Sentence("x", 0)), t);
    TameReachStep(attempts, START, Connect, t);
  }

  /** A listening loop comes to a listen that raises with a sentence in hand: the capture thread died meanwhile. */
  lemma DroppedSentenceIsReached(attempts: nat) returns (t: System)
    ensures TameReach(attempts, START, t)
    ensures t.caller == Ended(Some("x")) && t.history.accepted == ["x"] && t.history.delivered == []
  {
    var connected, heard := FirstSentence(attempts);
    var deaf := Next(attempts, heard, CaptureFails);
    var lost := Next(attempts, deaf, Lose);
    var taken := Next(attempts, lost, Take);
    t := Next(attempts, taken, Return);
    TameReachSelf(attempts, t);
    TameReachStep(attempts, taken, Return, t);
    TameReachStep(attempts, lost, Take, t);
    TameReachStep(attempts, deaf, Lose, t);
    TameReachStep(attempts, heard, CaptureFails, t);
    TameReachStep(attempts, connected, Hear(Sentence("x", 0)), t);
    TameReachStep(attempts, START, Connect, t);
  }

  /** A sentence that arrives just as a reconcile turn begins can be lost from the very start. */
  lemma SentenceCanBeLostFromStart(attempts: nat)
    ensures CanLose(attempts, START)
  {
    var connected := Next(attempts, START, Connect);
    var entered := Next(attempts, connected, BeginReconcile);
    assert !IsStripped("x"[0]);
    var full := Next(attempts, entered, Hear(Sentence("x", 0)));
    LosesAfterOverwriting(attempts, full);
    LosesAfterStep(attempts, entered, Hear(Sentence("x", 0)));
    LosesAfterStep(attempts, connected, BeginReconcile);
    LosesAfterStep(attempts, START, Connect);
  }

  lemma LosesAfterStep(attempts: nat, s: System, first: Step)
    requires Enabled(s, first) && CanLose(attempts, Next(attempts, s, first))
    ensures CanLose(attempts, s)
  {
    var next := Next(attempts, s, first);
    var rest :| Legal(attempts, next, rest) && !Kept(Reached(attempts, next, rest));
    LegalStep(attempts, s, first, rest);
  }

  // ---------------------------------------------------------------- reconnecting is bounded

  function Losses(steps: seq<Step>): nat {
    if steps == [] then 0 else (if steps[0].Lose? then 1 else 0) + Losses(steps[1..])
  }

  lemma {:induction false} AcceptedGrows(attempts: nat, s: System, steps: seq<Step>)
    requires Legal(attempts, s, steps)
    ensures |s.history.accepted| <= |Reached(attempts, s, steps).history.accepted|
    decreases |steps|
  {
    if steps != [] {
      AcceptedGrows(attempts, Next(attempts, s, steps[0]), steps[1..]);
    }
  }

  /** Without an accepted sentence, at most the configured number of connections fail before the input gives up. */
  lemma {:induction false} ReconnectsAreBounded(attempts: nat, s: System, steps: seq<Step>)
    requires Legal(attempts, s, steps)
    requires !s.link.receiver.Stopped? ==> s.link.failures < attempts
    requires |Reached(attempts, s, steps).history.accepted| == |s.history.accepted|
    ensures Losses(steps) <= if s.link.receiver.Stopped? then 0 else attempts - s.link.failures
    decreases |steps|
  {
    if steps != [] {
      AcceptedGrows(attempts, Next(attempts, s, steps[0]), steps[1..]);
      ReconnectsAreBounded(attempts, Next(attempts, s, steps[0]), steps[1..]);
    }
  }

  /** A failure ends the receive thread, and a receive thread that has ended leaves the input closed. */
  ghost predicate EndsClosed(s: System) {
    (s.link.error ==> s.link.receiver.Stopped?) && (s.link.receiver.Stopped? ==> s.input.closed)
  }

  lemma StepEndsClosed(attempts: nat, s: System, step: Step)
    requires EndsClosed(s) && Enabled(s, step)
    ensures EndsClosed(Next(attempts, s, step))
  {
    if step.Lose? {
      assert Next(attempts, s, step) == AfterLoss(attempts, s);
    }
  }

  lemma {:induction false} RunEndsClosed(attempts: nat, s: System, steps: seq<Step>)
    requires EndsClosed(s) && Legal(attempts, s, steps)
    ensures EndsClosed(Reached(attempts, s, steps))
    decreases |steps|
  {
    if steps != [] {
      StepEndsClosed(attempts, s, steps[0]);
      RunEndsClosed(attempts, Next(attempts, s, steps[0]), steps[1..]);
    }
  }

  /** Nobody closes the input in this run, and the capture thread does not fail. */
  predicate Undisturbed(steps: seq<Step>) {
    steps == [] || (!steps[0].CloseInput? && !steps[0].CaptureFails? && Undisturbed(steps[1..]))
  }

  ghost predicate Retrying(s: System) {
    !s.link.receiver.Stopped? && !s.link.error && !s.input.closed && s.microphone.alive
  }

  lemma StepKeepsRetrying(attempts: nat, s: System, step: Step)
    requires Enabled(s, step) && Retrying(s) && !step.CloseInput? && !step.CaptureFails?
    requires s.link.failures + (if step.Lose? then 1 else 0) < attempts
    ensures Retrying(Next(attempts, s, step))
    ensures Next(attempts, s, step).link.failures <= s.link.failures + if step.Lose? then 1 else 0
    ensures step.Lose? ==> Next(attempts, s, step).link.receiver.Offline?
  {
    if step.Lose? {
      assert Next(attempts, s, step) == AfterLoss(attempts, s);
    }
  }

  /** Fewer failures than the configured number never end the input: after each of them it can connect again. */
  lemma {:induction false} KeepsRetrying(attempts: nat, s: System, steps: seq<Step>)
    requires Legal(attempts, s, steps) && Undisturbed(steps) && Retrying(s)
    requires s.link.failures + Losses(steps) < attempts
    ensures Retrying(Reached(attempts, s, steps))
    decreases |steps|
  {
    if steps != [] {
      StepKeepsRetrying(attempts, s, steps[0]);
      KeepsRetrying(attempts, Next(attempts, s, steps[0]), steps[1..]);
    }
  }

  // ---------------------------------------------------------------- the object in the steps

  /** Every step does to the input object what it does to the input of the system. */
  method Deliver(attempts: nat, input: LiveSpeechInput, s: System, step: Step) returns (after: System)
    requires input.State() == s.input && Enabled(s, step)
    modifies input
    ensures after == Next(attempts, s, step) && input.State() == after.input
  {
    after := Next(attempts, s, step);
    match step {
      case Capture(reachable) =>
        var _ := input.Capture(s.microphone.hand.value, reachable);
      case Connect => input.Open();
      case Lose =>
        input.Drop();
        if after.input.closed {
          input.Close();
        }
      case Hear(event) =>
        var _ := input.Accept(event);
      case Take =>
        var _ := input.Listen();
      case PauseInput => input.Pause();
      case AskResume => input.Resume();
      case CloseInput => input.Close();
      case _ =>
    }
  }
}
