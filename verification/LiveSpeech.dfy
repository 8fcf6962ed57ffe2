/**
 The continuous speech input: a capture thread that feeds the recognition service, a receive thread that takes
 its sentences, and a slot for one sentence. Every member of this module is one region under the shared lock.
 */
module LiveSpeech {
  import opened Prelude

  const FRAME_SAMPLES: nat := 1600

  /** What goes out on a connection: silence that keeps it alive, or the frame that arrived at a given tick. */
  datatype Sound = Silence | Real(tick: nat)

  datatype Input = Input(
    paused: bool,
    resumeRequested: bool,
    text: Option<string>,
    streaming: bool,
    sentSamples: nat,
    acceptAfterMs: nat,
    sendFailed: bool,
    closed: bool)

  const OPENING := Input(false, false, None, false, 0, 0, false, false)

  /** What the locked region of the capture thread did with the frame it had read. */
  datatype Use = Discarded | Skipped | Sent(sound: Sound) | NotSent

  /** An event of the service; a malformed sentence breaks the connection. */
  datatype Event = Other | Malformed | Sentence(text: string, begin: int)

  datatype Verdict = Accepted | Ignored | Broken

  // ---------------------------------------------------------------- the locked regions as functions

  function Taken(i: Input): (Input, Option<string>) {
    (i.(text := None), i.text)
  }

  function Paused(i: Input): Input {
    i.(paused := true, resumeRequested := false)
  }

  function ResumeAsked(i: Input): Input {
    if i.closed then i else i.(resumeRequested := true)
  }

  /** A pending resume throws this frame and the backlog away; otherwise one frame goes out, real or silent. */
  function Captured(i: Input, tick: nat, reachable: bool): (Input, Use) {
    if i.resumeRequested then
      (i.(acceptAfterMs := i.sentSamples / 16, resumeRequested := false, paused := false), Discarded)
    else if !i.streaming then (i, Skipped)
    else if reachable then
      (i.(sentSamples := i.sentSamples + FRAME_SAMPLES), Sent(if i.paused then Silence else Real(tick)))
    else (i.(sendFailed := true, streaming := false), NotSent)
  }

  function Opened(i: Input): Input {
    i.(streaming := true, sentSamples := 0, acceptAfterMs := 0, sendFailed := false)
  }

  function Dropped(i: Input): Input {
    i.(streaming := false)
  }

  function Heard(i: Input, e: Event): (Input, Verdict) {
    match e
    case Other => (i, Ignored)
    case Malformed => (i, Broken)
    case Sentence(text, begin) =>
      if begin < 0 then (i, Broken)
      else if i.paused || begin < i.acceptAfterMs || Blank(text) then (i, Ignored)
      else (i.(paused := true, text := Some(text)), Accepted)
  }

  // ---------------------------------------------------------------- the object

  class LiveSpeechInput {
    var paused: bool
    var resumeRequested: bool
    var text: Option<string>
    var streaming: bool
    var sentSamples: nat
    var acceptAfterMs: nat
    var sendFailed: bool
    var closed: bool

    function State(): Input
      reads this
    {
      Input(paused, resumeRequested, text, streaming, sentSamples, acceptAfterMs, sendFailed, closed)
    }

    constructor ()
      ensures State() == OPENING
    {
      paused, resumeRequested, text, streaming := false, false, None, false;
      sentSamples, acceptAfterMs, sendFailed, closed := 0, 0, false, false;
    }

    method Listen() returns (sentence: Option<string>)
      modifies this`text
      ensures (State(), sentence) == Taken(old(State()))
    {
      sentence, text := text, None;
    }

    method Pause()
      modifies this`paused, this`resumeRequested
      ensures State() == Paused(old(State()))
    {
      paused := true;
      resumeRequested := false;
    }

    method Resume()
      modifies this`resumeRequested
      ensures State() == ResumeAsked(old(State()))
    {
      if !closed {
        resumeRequested := true;
      }
    }

    method Capture(tick: nat, reachable: bool) returns (use: Use)
      modifies this
      ensures (State(), use) == Captured(old(State()), tick, reachable)
    {
      if resumeRequested {
        acceptAfterMs := sentSamples / 16;
        resumeRequested := false;
        paused := false;
        return Discarded;
      }
      if !streaming {
        return Skipped;
      }
      if reachable {
        use := Sent(if paused then Silence else Real(tick));
        sentSamples := sentSamples + FRAME_SAMPLES;
      } else {
        use := NotSent;
        sendFailed := true;
        streaming := false;
      }
    }

    method Open()
      modifies this
      ensures State() == Opened(old(State()))
    {
      streaming := true;
      sentSamples := 0;
      acceptAfterMs := 0;
      sendFailed := false;
    }

    method Drop()
      modifies this`streaming
      ensures State() == Dropped(old(State()))
    {
      streaming := false;
    }

    method Close()
      modifies this`closed
      ensures State() == old(State()).(closed := true)
    {
      closed := true;
    }

    method Accept(event: Event) returns (verdict: Verdict)
      modifies this`paused, this`text
      ensures (State(), verdict) == Heard(old(State()), event)
    {
      match event {
        case Other => return Ignored;
        case Malformed => return Broken;
        case Sentence(sentence, begin) =>
          if begin < 0 {
            return Broken;
          }
          if paused || begin < acceptAfterMs || Blank(sentence) {
            return Ignored;
          }
          paused := true;
          text := Some(sentence);
          return Accepted;
      }
    }
  }
}
