/**
 Executing a validated list against a device whose calls cannot be cancelled. A call that times out stays in
 flight; it blocks every later turn until its own receipt is reconciled.
 */
module ActionExecution {
  import opened Prelude
  import opened ActionRegistry

  datatype CallState = InFlight | Returned(receipt: Receipt) | Threw

  /** One device call: the turn and list position it was submitted for. Its index in the log is its identity. */
  datatype Call = Call(turn: nat, position: nat, command: Command, state: CallState)

  datatype Outcome = Outcome(command: Command, status: Status, detail: string, data: Option<string>)

  datatype Pending = Pending(call: nat, turn: nat, actions: seq<Outcome>)

  datatype Execution = Execution(pending: Option<Pending>, calls: seq<Call>)

  /** What the caller meets while it submits and waits for one command; a device may return anything. */
  datatype Answer =
    | SubmitFails
    | TimesOut
    | WaitFails
    | Throws
    | Returns(raw: RawReceipt)

  datatype TurnStatus = Completed | TurnFailed | Rejected | Busy

  /** A result holds a copy of the outcomes, as they were when it was made. */
  datatype Result = Result(turn: nat, status: TurnStatus, actions: seq<Outcome>)

  // ---------------------------------------------------------------- one turn

  function Planned(c: Command): Outcome {
    Outcome(c, NotExecuted, "", None)
  }

  const AWAITING := "submitted, waiting for the device"

  function Recorded(c: Command, answer: Answer): Outcome {
    match answer
    case SubmitFails => Outcome(c, Failed, "submission failed, nothing sent", None)
    case TimesOut => Outcome(c, Unknown, "timed out, outcome unknown", None)
    case WaitFails => Outcome(c, Unknown, AWAITING, None)
    case Throws => Outcome(c, Unknown, "raised, outcome unconfirmed", None)
    case Returns(raw) => Outcome(c, Normalised(raw).status, Normalised(raw).detail, Normalised(raw).data)
  }

  predicate Proceeds(answer: Answer) {
    answer.Returns? && ConfirmedSuccess(Normalised(answer.raw).status)
  }

  /** The device may still act, or what it did is not known. */
  predicate LeavesPending(answer: Answer) {
    answer.TimesOut? || answer.WaitFails? || answer.Throws? || (answer.Returns? && Normalised(answer.raw).status == Unknown)
  }

  function StateAfter(answer: Answer): CallState {
    match answer
    case Returns(raw) => Returned(Normalised(raw))
    case Throws => Threw
    case _ => InFlight
  }

  datatype Trace = Trace(calls: seq<Call>, outcomes: seq<Outcome>, pendingCall: Option<nat>, aborted: bool)

  ghost function Performed(calls: seq<Call>, commands: seq<Command>, answers: seq<Answer>, turn: nat, k: nat): Trace
    requires k <= |commands| == |answers|
    decreases |commands| - k
  {
    if k == |commands| then Trace(calls, [], None, false)
    else if answers[k].SubmitFails? then
      Trace(calls, [Recorded(commands[k], answers[k])] + PlannedFrom(commands, k + 1), None, false)
    else
      var called := calls + [Call(turn, k, commands[k], StateAfter(answers[k]))];
      if Proceeds(answers[k]) then
        var rest := Performed(called, commands, answers, turn, k + 1);
        rest.(outcomes := [Recorded(commands[k], answers[k])] + rest.outcomes)
      else
        Trace(called, [Recorded(commands[k], answers[k])] + PlannedFrom(commands, k + 1),
              if LeavesPending(answers[k]) then Some(|calls|) else None, answers[k].WaitFails?)
  }

  ghost function PlannedFrom(commands: seq<Command>, k: nat): (os: seq<Outcome>)
    requires k <= |commands|
    ensures |os| == |commands| - k && forall i :: 0 <= i < |os| ==> os[i] == Planned(commands[k + i])
  {
    seq(|commands| - k, i requires 0 <= i < |commands| - k => Planned(commands[k + i]))
  }

  ghost predicate AllSucceeded(outcomes: seq<Outcome>) {
    forall k :: 0 <= k < |outcomes| ==> ConfirmedSuccess(outcomes[k].status)
  }

  ghost function Reported(turn: nat, outcomes: seq<Outcome>): Result {
    Result(turn, if AllSucceeded(outcomes) then Completed else TurnFailed, outcomes)
  }

  ghost function Executed(s: Execution, commands: seq<Command>, turn: nat, answers: seq<Answer>): (Execution, Result)
    requires |commands| == |answers|
  {
    var t := Performed(s.calls, commands, answers, turn, 0);
    (Execution(if t.pendingCall.Some? then Some(Pending(t.pendingCall.value, turn, t.outcomes)) else None, t.calls),
     if t.aborted then Result(turn, TurnFailed, t.outcomes) else Reported(turn, t.outcomes))
  }

  predicate Confirmed(state: CallState) {
    state.Returned? && (ConfirmedSuccess(state.receipt.status) || state.receipt.status == Failed)
  }

  function FirstUnknown(outcomes: seq<Outcome>): (k: nat)
    ensures k <= |outcomes|
    ensures k < |outcomes| ==> outcomes[k].status == Unknown
    ensures forall i :: 0 <= i < k ==> outcomes[i].status != Unknown
  {
    if outcomes == [] || outcomes[0].status == Unknown then 0 else 1 + FirstUnknown(outcomes[1..])
  }

  function Settled(outcome: Outcome, receipt: Receipt): Outcome {
    outcome.(status := receipt.status, detail := receipt.detail,
             data := if receipt.data.Some? then receipt.data else outcome.data)
  }

  /** Reconciling looks at the recorded call only; it never submits. */
  ghost function Reconciled(s: Execution, turn: nat): (Execution, Result)
    requires Valid(s)
  {
    if s.pending.None? || s.pending.value.turn != turn then (s, Result(turn, Rejected, []))
    else
      var p := s.pending.value;
      var state := s.calls[p.call].state;
      if !Confirmed(state) then (s, Result(turn, TurnFailed, p.actions))
      else
        var k := FirstUnknown(p.actions);
        var settled := p.actions[k := Settled(p.actions[k], state.receipt)];
        (s.(pending := None), Reported(turn, settled))
  }

  // ---------------------------------------------------------------- the invariant between turns

  ghost predicate UnknownOnlyAt(outcomes: seq<Outcome>, k: nat) {
    k < |outcomes| && forall i :: 0 <= i < |outcomes| ==> (outcomes[i].status == Unknown <==> i == k)
  }

  /** Some successes, then at most one failure or unknown outcome, then nothing executed. */
  ghost predicate Shaped(outcomes: seq<Outcome>, k: nat) {
    && k <= |outcomes|
    && (forall i :: 0 <= i < k ==> ConfirmedSuccess(outcomes[i].status))
    && (k < |outcomes| ==> outcomes[k].status == Failed || outcomes[k].status == Unknown)
    && (forall i :: k < i < |outcomes| ==> outcomes[i].status == NotExecuted)
  }

  /** Later calls belong to later turns, or to later positions of the same turn. */
  ghost predicate InOrder(calls: seq<Call>) {
    forall i, j :: 0 <= i < j < |calls| ==>
      calls[i].turn < calls[j].turn || (calls[i].turn == calls[j].turn && calls[i].position < calls[j].position)
  }

  /** At most the pending call is in flight, and the pending record has exactly one unknown outcome: that call's. */
  ghost predicate Valid(s: Execution) {
    && (forall i :: 0 <= i < |s.calls| && s.calls[i].state.InFlight? ==> s.pending.Some? && i == s.pending.value.call)
    && (s.pending.Some? ==>
          var p := s.pending.value;
          && p.call < |s.calls| && s.calls[p.call].turn == p.turn
          && UnknownOnlyAt(p.actions, s.calls[p.call].position)
          && Shaped(p.actions, s.calls[p.call].position))
    && InOrder(s.calls)
    && (forall i :: 0 <= i < |s.calls| && s.calls[i].state.Returned? ==> s.calls[i].state.receipt.status != NotExecuted)
  }

  /** All calls of the log were submitted before turn `turn`. */
  ghost predicate Before(calls: seq<Call>, turn: nat) {
    forall i :: 0 <= i < |calls| ==> calls[i].turn < turn
  }

  /** The new calls are the first commands in order, each once. */
  ghost predicate CallsDone(calls: seq<Call>, commands: seq<Command>, turn: nat, k: nat, t: Trace)
    requires k <= |commands|
  {
    && calls <= t.calls && |t.calls| - |calls| <= |commands| - k
    && (forall i :: |calls| <= i < |t.calls| ==>
          && t.calls[i].turn == turn && t.calls[i].position == k + i - |calls|
          && t.calls[i].command == commands[t.calls[i].position])
    && (forall i :: |calls| <= i < |t.calls| && t.calls[i].state.Returned? ==> t.calls[i].state.receipt.status != NotExecuted)
  }

  ghost predicate OutcomesDone(commands: seq<Command>, k: nat, outcomes: seq<Outcome>)
    requires k <= |commands|
  {
    && |outcomes| == |commands| - k
    && (forall i :: 0 <= i < |outcomes| ==> outcomes[i].command == commands[k + i])
    && (exists m: nat :: Shaped(outcomes, m))
  }

  /** One new call may be left open, and then it is the last and its outcome is the one unknown. */
  ghost predicate PendingDone(calls: seq<Call>, k: nat, t: Trace) {
    && (forall i :: |calls| <= i < |t.calls| && t.calls[i].state.InFlight? ==> t.pendingCall == Some(i))
    && (t.pendingCall.Some? ==>
          && t.pendingCall.value == |t.calls| - 1 >= |calls|
          && t.calls[t.pendingCall.value].position >= k
          && UnknownOnlyAt(t.outcomes, t.calls[t.pendingCall.value].position - k)
          && Shaped(t.outcomes, t.calls[t.pendingCall.value].position - k))
    && (t.pendingCall.None? ==> forall i :: 0 <= i < |t.outcomes| ==> t.outcomes[i].status != Unknown)
    && (t.aborted ==> t.pendingCall.Some?)
  }

  /** What the loop has done after its turn: everything a reader of the log and of the outcomes may rely on. */
  ghost predicate TurnDone(calls: seq<Call>, commands: seq<Command>, turn: nat, k: nat, t: Trace) {
    && k <= |commands|
    && CallsDone(calls, commands, turn, k, t)
    && OutcomesDone(commands, k, t.outcomes)
    && PendingDone(calls, k, t)
  }

  lemma StopsHere(calls: seq<Call>, commands: seq<Command>, answers: seq<Answer>, turn: nat, k: nat)
    requires k < |commands| == |answers| && !Proceeds(answers[k])
    ensures TurnDone(calls, commands, turn, k, Performed(calls, commands, answers, turn, k))
  {
    var t := Performed(calls, commands, answers, turn, k);
    var recorded := Recorded(commands[k], answers[k]);
    assert t.outcomes == [recorded] + PlannedFrom(commands, k + 1);
    assert recorded.command == commands[k];
    assert Shaped(t.outcomes, 0);
    assert PendingDone(calls, k, t);
  }

  lemma CallsGoOn(calls: seq<Call>, call: Call, commands: seq<Command>, turn: nat, k: nat, t: Trace)
    requires k < |commands| && CallsDone(calls + [call], commands, turn, k + 1, t)
    requires call.turn == turn && call.position == k && call.command == commands[k]
    requires call.state.Returned? && call.state.receipt.status != NotExecuted
    ensures CallsDone(calls, commands, turn, k, t) && t.calls[|calls|] == call
  {
    assert calls <= calls + [call] <= t.calls;
    assert t.calls[|calls|] == (calls + [call])[|calls|];
  }

  lemma OutcomesGoOn(commands: seq<Command>, k: nat, outcome: Outcome, rest: seq<Outcome>)
    requires k < |commands| && OutcomesDone(commands, k + 1, rest)
    requires outcome.command == commands[k] && ConfirmedSuccess(outcome.status)
    ensures OutcomesDone(commands, k, [outcome] + rest)
  {
    var m: nat :| Shaped(rest, m);
    assert Shaped([outcome] + rest, m + 1);
  }

  lemma PendingGoesOn(calls: seq<Call>, call: Call, k: nat, outcome: Outcome, rest: Trace)
    requires calls + [call] <= rest.calls && PendingDone(calls + [call], k + 1, rest)
    requires rest.calls[|calls|] == call && call.state.Returned? && ConfirmedSuccess(outcome.status)
    requires forall i :: |calls| < i < |rest.calls| ==> rest.calls[i].position == k + i - |calls|
    ensures PendingDone(calls, k, rest.(outcomes := [outcome] + rest.outcomes))
  {
  }

  lemma GoesOn(calls: seq<Call>, call: Call, commands: seq<Command>, turn: nat, k: nat, outcome: Outcome, rest: Trace)
    requires k < |commands| && TurnDone(calls + [call], commands, turn, k + 1, rest)
    requires call.turn == turn && call.position == k && call.command == commands[k] && call.state.Returned?
    requires call.state.receipt.status != NotExecuted
    requires outcome.command == commands[k] && ConfirmedSuccess(outcome.status)
    ensures TurnDone(calls, commands, turn, k, rest.(outcomes := [outcome] + rest.outcomes))
  {
    var t := rest.(outcomes := [outcome] + rest.outcomes);
    CallsGoOn(calls, call, commands, turn, k, t);
    OutcomesGoOn(commands, k, outcome, rest.outcomes);
    PendingGoesOn(calls, call, k, outcome, rest);
  }

  /** A turn submits a prefix of its commands, in order and each once, and stops at the first that is not a success. */
  lemma {:induction false} TurnFacts(calls: seq<Call>, commands: seq<Command>, answers: seq<Answer>, turn: nat, k: nat)
    requires k <= |commands| == |answers|
    ensures TurnDone(calls, commands, turn, k, Performed(calls, commands, answers, turn, k))
    decreases |commands| - k
  {
    if k == |commands| {
      assert Shaped([], 0);
    } else if !Proceeds(answers[k]) {
      StopsHere(calls, commands, answers, turn, k);
    } else {
      var call := Call(turn, k, commands[k], StateAfter(answers[k]));
      TurnFacts(calls + [call], commands, answers, turn, k + 1);
      GoesOn(calls, call, commands, turn, k, Recorded(commands[k], answers[k]),
             Performed(calls + [call], commands, answers, turn, k + 1));
    }
  }

  // ---------------------------------------------------------------- what a turn answers

  ghost predicate Names(text: string, s: Status) {
    || (text == "simulated_success" && s == SimulatedSuccess)
    || (text == "real_success" && s == RealSuccess)
    || (text == "failed" && s == Failed)
    || (text == "unknown" && s == Unknown)
  }

  /** The four outcome texts are taken at their word, with detail and data; anything else is an unknown outcome. */
  ghost predicate Says(raw: RawReceipt, status: Status, detail: string, data: Option<string>) {
    if raw.Dictionary? && raw.status in {Some("simulated_success"), Some("real_success"), Some("failed"), Some("unknown")}
    then Names(raw.status.value, status) && detail == raw.detail && data == raw.data
    else status == Unknown
  }

  ghost predicate Succeeds(answer: Answer) {
    answer.Returns? && answer.raw.Dictionary? && answer.raw.status in {Some("simulated_success"), Some("real_success")}
  }

  /** The outcome is that of its own command and of the answer to its own call. */
  ghost predicate Tells(o: Outcome, c: Command, answer: Answer) {
    && o.command == c
    && (answer.SubmitFails? ==> o.status == Failed && o.data == None)
    && (answer.TimesOut? || answer.WaitFails? || answer.Throws? ==> o.status == Unknown && o.data == None)
    && (answer.Returns? ==> Says(answer.raw, o.status, o.detail, o.data))
  }

  /** What stays in the log of the call: its receipt, its exception, or that it is still in flight. */
  ghost predicate Leaves(state: CallState, answer: Answer) {
    if answer.Returns?
    then state.Returned? && Says(answer.raw, state.receipt.status, state.receipt.detail, state.receipt.data)
    else if answer.Throws? then state.Threw? else state.InFlight?
  }

  /** From position `k` on, the commands before `m` succeeded, `m` is the first that did not, and nothing follows it. */
  ghost predicate OutcomesTold(commands: seq<Command>, answers: seq<Answer>, k: nat, m: nat, outcomes: seq<Outcome>)
    requires |commands| == |answers|
  {
    && k <= m <= |commands| && |outcomes| == |commands| - k
    && (forall p :: k <= p < m ==> Succeeds(answers[p]) && Tells(outcomes[p - k], commands[p], answers[p]))
    && (m < |commands| ==> !Succeeds(answers[m]) && Tells(outcomes[m - k], commands[m], answers[m]))
    && (forall p :: m < p < |commands| ==> outcomes[p - k] == Outcome(commands[p], NotExecuted, "", None))
  }

  /** Every command up to `m` was submitted, unless submitting `m` failed, and its call was left as its answer says. */
  ghost predicate CallsTold(calls: seq<Call>, commands: seq<Command>, answers: seq<Answer>, turn: nat, k: nat, m: nat,
                            after: seq<Call>)
    requires |commands| == |answers| && k <= m <= |commands|
  {
    && calls <= after
    && |after| == |calls| + (m - k) + (if m < |commands| && !answers[m].SubmitFails? then 1 else 0)
    && forall i :: |calls| <= i < |after| ==>
         && after[i].turn == turn && after[i].position == k + i - |calls| < |commands|
         && after[i].command == commands[after[i].position] && Leaves(after[i].state, answers[after[i].position])
  }

  ghost predicate TraceTold(calls: seq<Call>, commands: seq<Command>, answers: seq<Answer>, turn: nat, k: nat, m: nat,
                            t: Trace)
    requires |commands| == |answers|
  {
    && OutcomesTold(commands, answers, k, m, t.outcomes)
    && CallsTold(calls, commands, answers, turn, k, m, t.calls)
    && (t.pendingCall.Some? <==> m < |commands| && t.outcomes[m - k].status == Unknown)
    && (t.pendingCall.Some? ==> t.pendingCall.value == |t.calls| - 1)
    && (t.aborted <==> m < |commands| && answers[m].WaitFails?)
  }

  lemma StopOutcomesTold(commands: seq<Command>, answers: seq<Answer>, k: nat)
    requires k < |commands| == |answers| && !Succeeds(answers[k])
    ensures OutcomesTold(commands, answers, k, k, [Recorded(commands[k], answers[k])] + PlannedFrom(commands, k + 1))
  {
    var planned := PlannedFrom(commands, k + 1);
    var outcomes := [Recorded(commands[k], answers[k])] + planned;
    assert Tells(outcomes[0], commands[k], answers[k]);
    forall p | k < p < |commands|
      ensures outcomes[p - k] == Outcome(commands[p], NotExecuted, "", None)
    {
      assert outcomes[p - k] == planned[p - (k + 1)];
    }
  }

  lemma StopCallsTold(calls: seq<Call>, commands: seq<Command>, answers: seq<Answer>, turn: nat, k: nat)
    requires k < |commands| == |answers|
    ensures CallsTold(calls, commands, answers, turn, k, k,
                      calls + if answers[k].SubmitFails? then [] else [Call(turn, k, commands[k], StateAfter(answers[k]))])
  {
  }

  lemma ProceedsMeansSuccess(answer: Answer)
    ensures Proceeds(answer) <==> Succeeds(answer)
  {
  }

  lemma StopIsTold(calls: seq<Call>, commands: seq<Command>, answers: seq<Answer>, turn: nat, k: nat)
    requires k < |commands| == |answers| && !Proceeds(answers[k])
    ensures TraceTold(calls, commands, answers, turn, k, k, Performed(calls, commands, answers, turn, k))
  {
    ProceedsMeansSuccess(answers[k]);
    StopOutcomesTold(commands, answers, k);
    StopCallsTold(calls, commands, answers, turn, k);
    assert calls + [] == calls;
  }

  lemma OutcomesToldOn(commands: seq<Command>, answers: seq<Answer>, k: nat, m: nat, outcome: Outcome, rest: seq<Outcome>)
    requires k < |commands| == |answers| && OutcomesTold(commands, answers, k + 1, m, rest)
    requires Succeeds(answers[k]) && Tells(outcome, commands[k], answers[k])
    ensures OutcomesTold(commands, answers, k, m, [outcome] + rest)
  {
    var outcomes := [outcome] + rest;
    forall p | k <= p < m
      ensures Succeeds(answers[p]) && Tells(outcomes[p - k], commands[p], answers[p])
    {
      if p > k {
        assert outcomes[p - k] == rest[p - (k + 1)];
      }
    }
    if m < |commands| {
      assert outcomes[m - k] == rest[m - (k + 1)];
    }
    forall p | m < p < |commands|
      ensures outcomes[p - k] == Outcome(commands[p], NotExecuted, "", None)
    {
      assert outcomes[p - k] == rest[p - (k + 1)];
    }
  }

  lemma CallsToldOn(calls: seq<Call>, call: Call, commands: seq<Command>, answers: seq<Answer>, turn: nat, k: nat, m: nat,
                    after: seq<Call>)
    requires k < |commands| == |answers| && k + 1 <= m <= |commands|
    requires CallsTold(calls + [call], commands, answers, turn, k + 1, m, after)
    requires call.turn == turn && call.position == k && call.command == commands[k] && Leaves(call.state, answers[k])
    ensures CallsTold(calls, commands, answers, turn, k, m, after)
  {
    assert calls <= calls + [call] <= after;
    assert after[|calls|] == (calls + [call])[|calls|];
  }

  lemma {:induction false} TraceIsTold(calls: seq<Call>, commands: seq<Command>, answers: seq<Answer>, turn: nat, k: nat)
    returns (m: nat)
    requires k <= |commands| == |answers|
    ensures TraceTold(calls, commands, answers, turn, k, m, Performed(calls, commands, answers, turn, k))
    decreases |commands| - k
  {
    m := k;
    if k < |commands| {
      ProceedsMeansSuccess(answers[k]);
      if Proceeds(answers[k]) {
        var call := Call(turn, k, commands[k], StateAfter(answers[k]));
        m := TraceIsTold(calls + [call], commands, answers, turn, k + 1);
        var rest := Performed(calls + [call], commands, answers, turn, k + 1);
        OutcomesToldOn(commands, answers, k, m, Recorded(commands[k], answers[k]), rest.outcomes);
        CallsToldOn(calls, call, commands, answers, turn, k, m, rest.calls);
      } else {
        StopIsTold(calls, commands, answers, turn, k);
      }
    }
  }

  lemma SuccessIsTold(o: Outcome, c: Command, answer: Answer)
    requires Tells(o, c, answer)
    ensures ConfirmedSuccess(o.status) <==> Succeeds(answer)
  {
  }

  /**
   What a turn answers, from the texts the device returned. It stops at the first command `m` whose answer is not a
   success, and is completed exactly when there is none; every outcome, and every call in the log, carries its own
   command's answer; and the turn blocks exactly when the outcome it stopped at is unknown.
   */
  lemma TurnIsTold(s: Execution, commands: seq<Command>, turn: nat, answers: seq<Answer>) returns (m: nat)
    requires |commands| == |answers| && s.pending.None?
    ensures var (s', r) := Executed(s, commands, turn, answers);
            && r.turn == turn && OutcomesTold(commands, answers, 0, m, r.actions)
            && r.status == (if m == |commands| then Completed else TurnFailed)
            && CallsTold(s.calls, commands, answers, turn, 0, m, s'.calls)
            && s'.pending == (if m < |commands| && r.actions[m].status == Unknown
                              then Some(Pending(|s'.calls| - 1, turn, r.actions)) else None)
    ensures Performed(s.calls, commands, answers, turn, 0).aborted <==> m < |commands| && answers[m].WaitFails?
  {
    m := TraceIsTold(s.calls, commands, answers, turn, 0);
    var t := Performed(s.calls, commands, answers, turn, 0);
    if m < |commands| {
      SuccessIsTold(t.outcomes[m - 0], commands[m], answers[m]);
    } else {
      forall i | 0 <= i < |t.outcomes|
        ensures ConfirmedSuccess(t.outcomes[i].status)
      {
        SuccessIsTold(t.outcomes[i - 0], commands[i], answers[i]);
      }
    }
  }

  /** Executing in a new turn, when nothing blocks, keeps the invariant and blocks exactly on an unknown outcome. */
  lemma ExecuteKeepsValid(s: Execution, commands: seq<Command>, turn: nat, answers: seq<Answer>)
    requires Valid(s) && s.pending.None? && Before(s.calls, turn)
    requires |commands| == |answers|
    ensures var (s', r) := Executed(s, commands, turn, answers);
            && Valid(s')
            && s.calls <= s'.calls && Before(s'.calls, turn + 1)
            && (exists m: nat :: Shaped(r.actions, m))
            && (s'.pending.Some? <==> exists i :: 0 <= i < |r.actions| && r.actions[i].status == Unknown)
            && (s'.pending.Some? ==> s'.pending.value.actions == r.actions && s'.pending.value.turn == turn)
  {
    TurnFacts(s.calls, commands, answers, turn, 0);
    var t := Performed(s.calls, commands, answers, turn, 0);
    assert forall i :: 0 <= i < |s.calls| ==> t.calls[i] == s.calls[i];
    if t.pendingCall.Some? {
      assert t.outcomes[t.calls[t.pendingCall.value].position].status == Unknown;
    }
  }

  /** The call has come back with a success or a failure; a receipt that says unknown settles nothing. */
  ghost predicate HasSettled(s: Execution, p: Pending)
    requires p.call < |s.calls|
  {
    var state := s.calls[p.call].state;
    state.Returned? && (state.receipt.status == SimulatedSuccess || state.receipt.status == RealSuccess
                        || state.receipt.status == Failed)
  }

  /** The unknown outcome carries the receipt of its call, and every other outcome is as it was. */
  ghost predicate SettledAt(s: Execution, p: Pending, k: nat, actions: seq<Outcome>)
    requires p.call < |s.calls| && s.calls[p.call].state.Returned?
  {
    var receipt := s.calls[p.call].state.receipt;
    && k < |p.actions| == |actions|
    && actions[k].command == p.actions[k].command
    && actions[k].status == receipt.status && actions[k].detail == receipt.detail
    && actions[k].data == (if receipt.data.Some? then receipt.data else p.actions[k].data)
    && forall i :: 0 <= i < |p.actions| && i != k ==> actions[i] == p.actions[i]
  }

  /**
   Only a reconcile of the same turn with a confirmed receipt unblocks. It replaces the one unknown outcome by that
   receipt, leaves every other outcome alone, and submits nothing; it completes the turn exactly when the receipt
   is a success and the turn had stopped at its last command. Without a matching record the request is rejected,
   and without a confirmed receipt the turn is still failed; neither changes anything.
   */
  lemma ReconcileFacts(s: Execution, turn: nat)
    requires Valid(s)
    ensures var (s', r) := Reconciled(s, turn);
            && Valid(s') && r.turn == turn
            && if s.pending.None? || s.pending.value.turn != turn
               then s' == s && r.status == Rejected && r.actions == []
               else if !HasSettled(s, s.pending.value)
               then s' == s && r.status == TurnFailed && r.actions == s.pending.value.actions
               else
                 var p := s.pending.value;
                 var k := s.calls[p.call].position;
                 && s' == s.(pending := None) && SettledAt(s, p, k, r.actions)
                 && r.status == (if s.calls[p.call].state.receipt.status != Failed && k == |p.actions| - 1
                                 then Completed else TurnFailed)
  {
    if s.pending.Some? && s.pending.value.turn == turn && HasSettled(s, s.pending.value) {
      var p := s.pending.value;
      var k := s.calls[p.call].position;
      assert FirstUnknown(p.actions) == k;
      var settled := p.actions[k := Settled(p.actions[k], s.calls[p.call].state.receipt)];
      if k < |p.actions| - 1 {
        assert settled[k + 1].status == NotExecuted;
      }
    }
  }

  // ---------------------------------------------------------------- the loop against the trace

  /** The whole trace, when `done` outcomes are recorded and `rest` is still to come. */
  ghost predicate Continues(whole: Trace, rest: Trace, done: seq<Outcome>) {
    whole == rest.(outcomes := done + rest.outcomes)
  }

  lemma StepTrace(whole: Trace, calls: seq<Call>, commands: seq<Command>, answers: seq<Answer>, turn: nat,
                  done: seq<Outcome>, k: nat)
    requires k < |commands| == |answers| && Proceeds(answers[k])
    requires Continues(whole, Performed(calls, commands, answers, turn, k), done)
    ensures Continues(whole,
                      Performed(calls + [Call(turn, k, commands[k], StateAfter(answers[k]))], commands, answers, turn, k + 1),
                      done + [Recorded(commands[k], answers[k])])
  {
    var rest := Performed(calls + [Call(turn, k, commands[k], StateAfter(answers[k]))], commands, answers, turn, k + 1);
    assert done + ([Recorded(commands[k], answers[k])] + rest.outcomes)
        == (done + [Recorded(commands[k], answers[k])]) + rest.outcomes;
  }

  lemma StoppedTrace(whole: Trace, calls: seq<Call>, commands: seq<Command>, answers: seq<Answer>, turn: nat,
                     done: seq<Outcome>, k: nat)
    requires k < |commands| == |answers| && !Proceeds(answers[k])
    requires Continues(whole, Performed(calls, commands, answers, turn, k), done)
    ensures whole.outcomes == (done + [Recorded(commands[k], answers[k])]) + PlannedFrom(commands, k + 1)
    ensures whole.calls == calls + (if answers[k].SubmitFails? then [] else [Call(turn, k, commands[k], StateAfter(answers[k]))])
    ensures whole.pendingCall == (if LeavesPending(answers[k]) then Some(|calls|) else None)
    ensures whole.aborted == answers[k].WaitFails?
  {
    var recorded, planned := Recorded(commands[k], answers[k]), PlannedFrom(commands, k + 1);
    assert Performed(calls, commands, answers, turn, k).outcomes == [recorded] + planned;
    assert done + ([recorded] + planned) == (done + [recorded]) + planned;
  }

  lemma OneMoreRecorded(before: seq<Outcome>, after: seq<Outcome>, commands: seq<Command>, k: nat, recorded: Outcome)
    requires k < |commands| == |before| && after == before[k := recorded] && before[k..] == PlannedFrom(commands, k)
    ensures after[..k + 1] == before[..k] + [recorded] && after[k + 1..] == PlannedFrom(commands, k + 1)
    ensures after == before[..k] + [recorded] + PlannedFrom(commands, k + 1)
  {
    assert after[k + 1..] == before[k..][1..];
  }

  // ---------------------------------------------------------------- the objects

  /** The futures handed out by the call threads; completing one is the environment's move. */
  class Device {
    var calls: seq<Call>

    constructor ()
      ensures calls == []
    {
      calls := [];
    }

    method Submit(turn: nat, position: nat, command: Command, state: CallState) returns (id: nat)
      modifies this
      ensures calls == old(calls) + [Call(turn, position, command, state)] && id == |old(calls)|
    {
      id := |calls|;
      calls := calls + [Call(turn, position, command, state)];
    }
  }

  /** The record keeps the very array the turn is filling in, not a copy. */
  datatype PendingAction = PendingAction(call: nat, turn: nat, actions: array<Outcome>)

  class ActionExecutor {
    const device: Device
    var pendingAction: Option<PendingAction>

    function State(): Execution
      reads this, device, if pendingAction.Some? then {pendingAction.value.actions} else {}
    {
      Execution(if pendingAction.Some?
                then Some(Pending(pendingAction.value.call, pendingAction.value.turn, pendingAction.value.actions[..]))
                else None,
                device.calls)
    }

    constructor (device: Device)
      ensures this.device == device && State() == Execution(None, device.calls)
    {
      this.device := device;
      pendingAction := None;
    }

    predicate Blocked()
      reads this
    {
      pendingAction.Some?
    }

    /** Runs the list; the result copies the outcomes, while the pending record shares them. */
    method Execute(commands: seq<Command>, turn: nat, answers: seq<Answer>) returns (result: Result, aborted: bool)
      requires !Blocked() && |commands| == |answers|
      modifies this, device
      ensures (State(), result) == Executed(old(State()), commands, turn, answers)
      ensures aborted == Performed(old(device.calls), commands, answers, turn, 0).aborted
      ensures pendingAction.Some? ==> fresh(pendingAction.value.actions)
    {
      var outcomes := new Outcome[|commands|](k requires 0 <= k < |commands| => Planned(commands[k]));
      aborted := ExecuteActions(commands, outcomes, turn, answers);
      if aborted {
        result := Result(turn, TurnFailed, outcomes[..]);
        return;
      }
      result := Report(turn, outcomes);
    }

    method ExecuteActions(commands: seq<Command>, outcomes: array<Outcome>, turn: nat, answers: seq<Answer>)
      returns (aborted: bool)
      requires !Blocked() && |commands| == |answers| == outcomes.Length
      requires forall i :: 0 <= i < |commands| ==> outcomes[i] == Planned(commands[i])
      modifies this, device, outcomes
      ensures var t := Performed(old(device.calls), commands, answers, turn, 0);
              && device.calls == t.calls && outcomes[..] == t.outcomes && aborted == t.aborted
              && pendingAction == (if t.pendingCall.Some?
                                   then Some(PendingAction(t.pendingCall.value, turn, outcomes)) else None)
    {
      ghost var whole := Performed(device.calls, commands, answers, turn, 0);
      for k := 0 to |commands|
        invariant !Blocked()
        invariant outcomes[k..] == PlannedFrom(commands, k)
        invariant Continues(whole, Performed(device.calls, commands, answers, turn, k), outcomes[..k])
      {
        ghost var before, calls := outcomes[..], device.calls;
        var proceeds := ExecuteOne(commands[k], k, outcomes, turn, answers[k]);
        OneMoreRecorded(before, outcomes[..], commands, k, Recorded(commands[k], answers[k]));
        if !proceeds {
          StoppedTrace(whole, calls, commands, answers, turn, before[..k], k);
          return answers[k].WaitFails?;
        }
        StepTrace(whole, calls, commands, answers, turn, before[..k], k);
      }
      assert outcomes[..] == outcomes[..|commands|];
      return false;
    }

    /** Submits one command and waits for it; the record is pessimistic before the device is asked. */
    method ExecuteOne(command: Command, k: nat, outcomes: array<Outcome>, turn: nat, answer: Answer)
      returns (proceeds: bool)
      requires !Blocked() && k < outcomes.Length
      modifies this, device, outcomes
      ensures outcomes[..] == old(outcomes[..])[k := Recorded(command, answer)]
      ensures device.calls == old(device.calls)
                              + if answer.SubmitFails? then [] else [Call(turn, k, command, StateAfter(answer))]
      ensures pendingAction == if LeavesPending(answer) then Some(PendingAction(|old(device.calls)|, turn, outcomes)) else None
      ensures proceeds == Proceeds(answer)
    {
      outcomes[k] := Outcome(command, Unknown, AWAITING, None);
      if answer.SubmitFails? {
        outcomes[k] := Recorded(command, answer);
        return false;
      }
      var call := device.Submit(turn, k, command, StateAfter(answer));
      pendingAction := Some(PendingAction(call, turn, outcomes));
      outcomes[k] := Recorded(command, answer);
      if outcomes[k].status == Unknown {
        return false;
      }
      pendingAction := None;
      return ConfirmedSuccess(outcomes[k].status);
    }

    method Report(turn: nat, outcomes: array<Outcome>) returns (result: Result)
      ensures result == Reported(turn, outcomes[..])
      ensures result.actions == outcomes[..] && result.turn == turn
      ensures result.status == Completed <==>
                forall k :: 0 <= k < outcomes.Length ==>
                  outcomes[k].status == SimulatedSuccess || outcomes[k].status == RealSuccess
      ensures result.status == Completed || result.status == TurnFailed
    {
      var completed := true;
      for k := 0 to outcomes.Length
        invariant completed <==> forall i :: 0 <= i < k ==> ConfirmedSuccess(outcomes[i].status)
      {
        completed := completed && ConfirmedSuccess(outcomes[k].status);
      }
      assert AllSucceeded(outcomes[..]) <==> completed;
      result := Result(turn, if completed then Completed else TurnFailed, outcomes[..]);
    }

    method Reconcile(turn: nat) returns (result: Result)
      requires Valid(State())
      modifies this, if pendingAction.Some? then {pendingAction.value.actions} else {}
      ensures (State(), result) == Reconciled(old(State()), turn)
    {
      if pendingAction.None? || pendingAction.value.turn != turn {
        return Result(turn, Rejected, []);
      }
      var actions := pendingAction.value.actions;
      var state := device.calls[pendingAction.value.call].state;
      if !Confirmed(state) {
        return Result(turn, TurnFailed, actions[..]);
      }
      var k := FirstUnknown(actions[..]);
      actions[k] := Settled(actions[k], state.receipt);
      pendingAction := None;
      result := Report(turn, actions);
    }
  }
}
