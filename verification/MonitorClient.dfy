/**
 The client side of the registry: a worker thread that renews one identity and unregisters it at the end, and the
 thread that closes it. Reads and writes of the shared flags, polls and sends are separate steps.
 */
module MonitorClient {
  import opened ProcText

  datatype Request = Register(identity: Identity) | Unregister(identity: Identity)

  datatype Worker =
    | LoopHead
    | AwaitingService
    | ServiceReady
    | Registering
    | AwaitingReply
    | Resting
    | Leaving
    | AwaitingUnregisterService
    | Unregistering
    | AwaitingUnregisterReply
    | Ended

  datatype Closer = Open | Claimed | DeadlineStored | StopStored | Joined

  /** `unreachable` is set when the deadline passes before the unregister service was there. */
  datatype Client = Client(
    identity: Identity,
    worker: Worker,
    closer: Closer,
    stopping: bool,
    deadlineSet: bool,
    unreachable: bool,
    sent: seq<Request>)

  function Created(i: Identity): Client {
    Client(i, LoopHead, Open, false, false, false, [])
  }

  datatype Step =
    | CheckStopping
    | PollService(ready: bool)
    | Recheck
    | SendRegister
    | StopWaiting
    | Wake
    | ReadDeadline
    | PollUnregister(ready: bool, late: bool)
    | SendUnregister
    | EndUnregister
    | Close
    | StoreDeadline
    | StoreStopping
    | Join

  predicate Enabled(c: Client, step: Step) {
    match step
    case CheckStopping => c.worker.LoopHead?
    case PollService(_) => c.worker.AwaitingService?
    case Recheck => c.worker.ServiceReady?
    case SendRegister => c.worker.Registering?
    case StopWaiting => c.worker.AwaitingReply?
    case Wake => c.worker.Resting?
    case ReadDeadline => c.worker.Leaving?
    case PollUnregister(_, _) => c.worker.AwaitingUnregisterService?
    case SendUnregister => c.worker.Unregistering?
    case EndUnregister => c.worker.AwaitingUnregisterReply?
    case Close => true
    case StoreDeadline => c.closer.Claimed?
    case StoreStopping => c.closer.DeadlineStored?
    case Join => c.closer.StopStored? && c.worker.Ended?
  }

  function Next(c: Client, step: Step): Client
    requires Enabled(c, step)
  {
    match step
    case CheckStopping => c.(worker := if c.stopping then Leaving else AwaitingService)
    case PollService(ready) =>
      c.(worker := if c.stopping then Resting else if ready then ServiceReady else AwaitingService)
    case Recheck => c.(worker := if c.stopping then Resting else Registering)
    case SendRegister => c.(worker := AwaitingReply, sent := c.sent + [Register(c.identity)])
    case StopWaiting => c.(worker := Resting)
    case Wake => c.(worker := LoopHead)
    case ReadDeadline => c.(worker := if c.deadlineSet then AwaitingUnregisterService else Ended)
    case PollUnregister(ready, late) =>
      if ready then c.(worker := Unregistering)
      else if late then c.(worker := Ended, unreachable := true)
      else c
    case SendUnregister => c.(worker := AwaitingUnregisterReply, sent := c.sent + [Unregister(c.identity)])
    case EndUnregister => c.(worker := Ended)
    case Close => if c.closer.Open? then c.(closer := Claimed) else c
    case StoreDeadline => c.(closer := DeadlineStored, deadlineSet := true)
    case StoreStopping => c.(closer := StopStored, stopping := true)
    case Join => c.(closer := Joined)
  }

  ghost predicate Legal(c: Client, steps: seq<Step>)
    decreases |steps|
  {
    steps == [] || (Enabled(c, steps[0]) && Legal(Next(c, steps[0]), steps[1..]))
  }

  ghost function Reached(c: Client, steps: seq<Step>): Client
    requires Legal(c, steps)
    decreases |steps|
  {
    if steps == [] then c else Reached(Next(c, steps[0]), steps[1..])
  }

  // ---------------------------------------------------------------- what the worker sends

  predicate Over(w: Worker) {
    w.AwaitingUnregisterReply? || w.Ended?
  }

  ghost predicate OnlyRegisters(i: Identity, sent: seq<Request>) {
    forall k :: 0 <= k < |sent| ==> sent[k] == Register(i)
  }

  ghost predicate EndsWithUnregister(i: Identity, sent: seq<Request>) {
    sent != [] && sent[|sent| - 1] == Unregister(i) && OnlyRegisters(i, sent[..|sent| - 1])
  }

  ghost predicate Orderly(c: Client) {
    && (c.stopping <==> c.closer.StopStored? || c.closer.Joined?)
    && (c.deadlineSet <==> c.closer.DeadlineStored? || c.stopping)
    && (c.worker.Leaving? || c.worker.AwaitingUnregisterService? || c.worker.Unregistering? || Over(c.worker) ==> c.stopping)
    && (c.closer.Joined? ==> c.worker.Ended?)
    && (c.unreachable ==> c.worker.Ended?)
    && (if Over(c.worker) && !c.unreachable then EndsWithUnregister(c.identity, c.sent)
        else OnlyRegisters(c.identity, c.sent))
  }

  lemma StepKeepsOrder(c: Client, step: Step)
    requires Orderly(c) && Enabled(c, step)
    ensures Orderly(Next(c, step)) && Next(c, step).identity == c.identity
    ensures c.closer.Joined? ==> Next(c, step) == c
  {
    if step.SendUnregister? {
      assert Next(c, step).sent[..|c.sent|] == c.sent;
    }
  }

  lemma {:induction false} RunKeepsOrder(c: Client, steps: seq<Step>)
    requires Orderly(c) && Legal(c, steps)
    ensures Orderly(Reached(c, steps)) && Reached(c, steps).identity == c.identity
    ensures c.closer.Joined? ==> Reached(c, steps) == c
    decreases |steps|
  {
    if steps != [] {
      StepKeepsOrder(c, steps[0]);
      RunKeepsOrder(Next(c, steps[0]), steps[1..]);
    }
  }

  /**
   In every run the client sends register requests for its one identity and at most one unregister, after which it
   sends nothing; a worker that has ended did send it, unless the service was missing until the deadline.
   */
  lemma UnregisterIsLast(i: Identity, steps: seq<Step>)
    requires Legal(Created(i), steps)
    ensures var c := Reached(Created(i), steps);
            && (forall k :: 0 <= k < |c.sent| - 1 ==> c.sent[k] == Register(i))
            && (c.sent != [] ==> c.sent[|c.sent| - 1] in {Register(i), Unregister(i)})
            && (c.worker.Ended? && !c.unreachable ==> c.sent != [] && c.sent[|c.sent| - 1] == Unregister(i))
            && (c.sent != [] && c.sent[|c.sent| - 1] == Unregister(i) ==> c.stopping && Over(c.worker))
  {
    RunKeepsOrder(Created(i), steps);
  }

  /** As soon as the service is found the unregister goes out; it is only given up when missing at the deadline. */
  lemma UnregisterNeedsOnlyTheService(i: Identity, steps: seq<Step>, ready: bool, late: bool)
    requires Legal(Created(i), steps) && Enabled(Reached(Created(i), steps), PollUnregister(ready, late))
    ensures var c := Reached(Created(i), steps);
            var polled := Next(c, PollUnregister(ready, late));
            && !c.unreachable && (polled.unreachable <==> !ready && late)
            && (ready ==> Enabled(polled, SendUnregister) && Next(polled, SendUnregister).sent == c.sent + [Unregister(i)])
            && (!ready && !late ==> polled == c)
  {
    RunKeepsOrder(Created(i), steps);
  }

  /** Once the closing thread has joined the worker, no step sends or changes anything any more. */
  lemma NothingIsSentAfterClose(i: Identity, steps: seq<Step>, more: seq<Step>)
    requires Legal(Created(i), steps) && Reached(Created(i), steps).closer.Joined?
    requires Legal(Reached(Created(i), steps), more)
    ensures Reached(Reached(Created(i), steps), more) == Reached(Created(i), steps)
  {
    RunKeepsOrder(Created(i), steps);
    RunKeepsOrder(Reached(Created(i), steps), more);
  }

  // ---------------------------------------------------------------- every round renews

  function Rounds(steps: seq<Step>): nat {
    if steps == [] then 0 else (if steps[0].Wake? then 1 else 0) + Rounds(steps[1..])
  }

  /** The request of the round at work has gone out. */
  function SentThisRound(w: Worker): nat {
    if w.AwaitingReply? || w.Resting? then 1 else 0
  }

  lemma {:induction false} StaysStopped(c: Client, steps: seq<Step>)
    requires c.stopping && Legal(c, steps)
    ensures Reached(c, steps).stopping
    decreases |steps|
  {
    if steps != [] {
      StaysStopped(Next(c, steps[0]), steps[1..]);
    }
  }

  lemma {:induction false} RoundsRenew(c: Client, steps: seq<Step>)
    requires Orderly(c) && Legal(c, steps) && !Reached(c, steps).stopping
    ensures |Reached(c, steps).sent| + SentThisRound(c.worker)
            == |c.sent| + Rounds(steps) + SentThisRound(Reached(c, steps).worker)
    decreases |steps|
  {
    if steps != [] {
      var next := Next(c, steps[0]);
      StepKeepsOrder(c, steps[0]);
      if next.stopping {
        StaysStopped(next, steps[1..]);
      }
      RoundsRenew(next, steps[1..]);
    }
  }

  /** While nobody has stopped it, a worker has renewed its registration exactly once for every time it rested. */
  lemma EveryRoundRenews(i: Identity, steps: seq<Step>)
    requires Legal(Created(i), steps) && !Reached(Created(i), steps).stopping
    ensures var c := Reached(Created(i), steps);
            && |c.sent| == Rounds(steps) + SentThisRound(c.worker)
            && forall k :: 0 <= k < |c.sent| ==> c.sent[k] == Register(i)
  {
    RoundsRenew(Created(i), steps);
    RunKeepsOrder(Created(i), steps);
  }
}
