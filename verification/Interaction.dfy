/**
 One caller submits turns, reconciles late receipts and clears the memory; device calls and model calls that
 timed out go on in the background and complete whenever they like. Turn identifiers are numbered here.
 */
module Interaction {
  import opened Prelude
  import opened ActionRegistry
  import opened ActionExecution
  import opened ConversationMemory

  const MAX_INPUT_LENGTH := 8192

  /** The sizes of the memory, and how one function text of the model is parsed and checked. */
  datatype Setup = Setup(limits: Limits, accept: string -> Check)

  /**
   The model call of the caller: none yet, over, or still running for a reply or for a memory update. An update
   first puts the exchange into the recent list and then asks for a summary.
   */
  datatype ProviderCall = NoCall | Finished | Replying | Remembering(e: Exchange, appended: bool)

  predicate Running(p: ProviderCall) {
    p.Replying? || p.Remembering?
  }

  /** How the model call of a turn ends for the caller; a reply brings whatever its function field held. */
  datatype Talk =
    | StartFails
    | TimesOut
    | Fails(status: TurnStatus)
    | Replies(functions: Option<seq<string>>)

  /** Everything around one turn: the model, the device, and the summary call that may follow. */
  datatype Script = Script(
    text: string,
    reply: string,
    talk: Talk,
    answers: seq<Answer>,
    remembersInTime: bool,
    attempt: Attempt,
    saves: bool)

  ghost predicate WellScripted(s: Script) {
    && (s.talk.Replies? && s.talk.functions.Some? ==> |s.answers| == |s.talk.functions.value|)
    && (s.talk.Fails? ==> s.talk.status == Rejected || s.talk.status == TurnFailed)
  }

  predicate ValidText(text: string) {
    !Blank(text) && |text| <= MAX_INPUT_LENGTH
  }

  datatype Agent = Agent(execution: Execution, provider: ProviderCall, memory: Memory, turns: nat)

  // ---------------------------------------------------------------- the caller's operations

  ghost function Remembered(l: Limits, a: Agent, s: Script): Agent {
    var e := Exchange(s.text, s.reply);
    if s.remembersInTime
    then a.(memory := AfterRecord(l, a.memory, e, s.attempt, s.saves).0, provider := Finished)
    else a.(provider := Remembering(e, false))
  }

  /** The turn once the list of the model is validated. */
  ghost function Acted(l: Limits, a: Agent, turn: nat, commands: seq<Command>, s: Script): (Agent, Result)
    requires |s.answers| == |commands|
  {
    if commands == [] then (Remembered(l, a, s), Result(turn, Completed, []))
    else
      var (execution, result) := Executed(a.execution, commands, turn, s.answers);
      var acted := a.(execution := execution);
      if Performed(a.execution.calls, commands, s.answers, turn, 0).aborted then (acted, result)
      else (Remembered(l, acted, s), result)
  }

  ghost function Submitted(u: Setup, a: Agent, s: Script): (Agent, Result)
    requires WellScripted(s)
  {
    var turn, next := a.turns, a.(turns := a.turns + 1);
    if a.execution.pending.Some? || Running(a.provider) then (next, Result(turn, Busy, []))
    else if !ValidText(s.text) then (next.(provider := NoCall), Result(turn, Rejected, []))
    else
      match s.talk
      case StartFails => (next.(provider := NoCall), Result(turn, TurnFailed, []))
      case TimesOut => (next.(provider := Replying), Result(turn, TurnFailed, []))
      case Fails(status) => (next.(provider := Finished), Result(turn, status, []))
      case Replies(functions) =>
        var talked := next.(provider := Finished);
        match ValidationOf(functions, u.accept)
        case BadList => (talked, Result(turn, Rejected, []))
        case BrokenCheck => (talked, Result(turn, TurnFailed, []))
        case Commands(commands) => Acted(u.limits, talked, turn, commands, s)
  }

  ghost function Cleared(a: Agent, saves: bool): (Agent, TurnStatus) {
    var next := a.(turns := a.turns + 1);
    if Running(a.provider) then (next, Busy)
    else (next.(memory := AfterClear(a.memory, saves).0), if saves then Completed else TurnFailed)
  }

  /** A late device call hands back anything, or raises; a late model call goes on where the caller left it. */
  datatype Step =
    | Submit(script: Script)
    | Reconcile(turn: nat)
    | ClearMemory(saves: bool)
    | DeviceReplies(call: nat, raw: Option<RawReceipt>)
    | ProviderAppends
    | ProviderEnds(attempt: Attempt, saves: bool)

  ghost predicate Possible(a: Agent, step: Step) {
    match step
    case Submit(script) => WellScripted(script)
    case Reconcile(_) => true
    case ClearMemory(_) => true
    case DeviceReplies(call, _) => call < |a.execution.calls| && a.execution.calls[call].state.InFlight?
    case ProviderAppends => a.provider.Remembering? && !a.provider.appended
    case ProviderEnds(_, _) => a.provider.Replying? || (a.provider.Remembering? && a.provider.appended)
  }

  function LateState(raw: Option<RawReceipt>): CallState {
    if raw.Some? then Returned(Normalised(raw.value)) else Threw
  }

  ghost function Next(u: Setup, a: Agent, step: Step): Agent
    requires Valid(a.execution) && Possible(a, step)
  {
    match step
    case Submit(script) => Submitted(u, a, script).0
    case Reconcile(turn) => a.(execution := Reconciled(a.execution, turn).0)
    case ClearMemory(saves) => Cleared(a, saves).0
    case DeviceReplies(call, raw) =>
      var late := a.execution.calls[call].(state := LateState(raw));
      a.(execution := a.execution.(calls := a.execution.calls[call := late]))
    case ProviderAppends =>
      a.(memory := Appended(u.limits, a.memory, a.provider.e), provider := a.provider.(appended := true))
    case ProviderEnds(attempt, saves) =>
      if a.provider.Remembering?
      then a.(memory := Summarised(u.limits, a.memory, attempt, saves).0, provider := Finished)
      else a.(provider := Finished)
  }

  // ---------------------------------------------------------------- safety over every run

  ghost predicate Safe(a: Agent) {
    Valid(a.execution) && Before(a.execution.calls, a.turns)
  }

  /** Only a submit of an idle agent makes calls, all for its new turn and for texts of a list accepted as a whole. */
  ghost predicate OnlyNewTurnActs(u: Setup, a: Agent, step: Step, a': Agent) {
    && |a.execution.calls| <= |a'.execution.calls|
    && (forall i :: 0 <= i < |a.execution.calls| ==>
          a'.execution.calls[i] == a.execution.calls[i].(state := a'.execution.calls[i].state))
    && (forall i :: |a.execution.calls| <= i < |a'.execution.calls| ==>
          var c := a'.execution.calls[i];
          && step.Submit? && c.turn == a.turns
          && a.execution.pending.None? && !Running(a.provider)
          && step.script.talk.Replies? && step.script.talk.functions.Some?
          && AllAccepted(step.script.talk.functions.value, u.accept)
          && c.position == i - |a.execution.calls| < |step.script.talk.functions.value|
          && u.accept(step.script.talk.functions.value[c.position]) == Accepted(c.command))
  }

  /** A turn that executes appends calls of its own, for its commands in order, and leaves the agent safe. */
  lemma ExecutionIsSafe(e: Execution, commands: seq<Command>, turn: nat, answers: seq<Answer>)
    requires Valid(e) && Before(e.calls, turn) && e.pending.None?
    requires |answers| == |commands|
    ensures var (e', r) := Executed(e, commands, turn, answers);
            && Valid(e') && Before(e'.calls, turn + 1) && e.calls <= e'.calls
            && (exists m: nat :: Shaped(r.actions, m))
            && (forall i :: |e.calls| <= i < |e'.calls| ==>
                  && e'.calls[i].turn == turn
                  && e'.calls[i].position == i - |e.calls| < |commands|
                  && e'.calls[i].command == commands[i - |e.calls|])
  {
    ExecuteKeepsValid(e, commands, turn, answers);
    TurnFacts(e.calls, commands, answers, turn, 0);
  }

  /** The device is reached only by an idle agent whose model replied with a nonempty list, accepted as a whole. */
  ghost predicate Acts(u: Setup, a: Agent, s: Script) {
    && a.execution.pending.None? && !Running(a.provider) && ValidText(s.text)
    && s.talk.Replies? && ValidationOf(s.talk.functions, u.accept).Commands? && s.talk.functions.value != []
  }

  lemma SubmitActsOnlyThen(u: Setup, a: Agent, s: Script)
    requires WellScripted(s)
    ensures var (a', r) := Submitted(u, a, s);
            && a'.turns == a.turns + 1
            && if Acts(u, a, s)
               then (a'.execution, r)
                    == Executed(a.execution, ValidationOf(s.talk.functions, u.accept).commands, a.turns, s.answers)
               else a'.execution == a.execution && r.actions == []
  {
  }

  lemma ActingIsSafe(u: Setup, a: Agent, s: Script, a': Agent)
    requires Safe(a) && WellScripted(s) && a'.turns == a.turns + 1
    requires a'.execution == if Acts(u, a, s)
                             then Executed(a.execution, ValidationOf(s.talk.functions, u.accept).commands, a.turns, s.answers).0
                             else a.execution
    ensures Safe(a') && OnlyNewTurnActs(u, a, Submit(s), a')
  {
    if Acts(u, a, s) {
      var texts, commands := s.talk.functions.value, ValidationOf(s.talk.functions, u.accept).commands;
      CheckedIsAllOrNothing(texts, u.accept);
      ExecutionIsSafe(a.execution, commands, a.turns, s.answers);
      assert AllAccepted(texts, u.accept);
      forall i | |a.execution.calls| <= i < |a'.execution.calls|
        ensures var c := a'.execution.calls[i];
                && c.turn == a.turns && c.position == i - |a.execution.calls| < |texts|
                && u.accept(texts[c.position]) == Accepted(c.command)
      {
        var c := a'.execution.calls[i];
        assert c.position == i - |a.execution.calls| < |commands| && c.command == commands[c.position];
      }
    }
  }

  lemma SubmitIsSafe(u: Setup, a: Agent, s: Script)
    requires Safe(a) && WellScripted(s)
    ensures Safe(Submitted(u, a, s).0)
    ensures OnlyNewTurnActs(u, a, Submit(s), Submitted(u, a, s).0)
    ensures exists m: nat :: Shaped(Submitted(u, a, s).1.actions, m)
  {
    SubmitActsOnlyThen(u, a, s);
    ActingIsSafe(u, a, s, Submitted(u, a, s).0);
    if Acts(u, a, s) {
      ExecutionIsSafe(a.execution, ValidationOf(s.talk.functions, u.accept).commands, a.turns, s.answers);
    } else {
      assert Shaped([], 0);
    }
  }

  lemma StepIsSafe(u: Setup, a: Agent, step: Step)
    requires Safe(a) && Possible(a, step)
    ensures Safe(Next(u, a, step)) && OnlyNewTurnActs(u, a, step, Next(u, a, step))
  {
    match step
    case Submit(script) => SubmitIsSafe(u, a, script);
    case Reconcile(turn) => ReconcileFacts(a.execution, turn);
    case ClearMemory(_) =>
    case DeviceReplies(_, _) =>
    case ProviderAppends =>
    case ProviderEnds(_, _) =>
  }

  ghost predicate Legal(u: Setup, a: Agent, steps: seq<Step>)
    requires Safe(a)
    decreases |steps|
  {
    steps == [] || (Possible(a, steps[0]) && (StepIsSafe(u, a, steps[0]); Legal(u, Next(u, a, steps[0]), steps[1..])))
  }

  ghost function Reached(u: Setup, a: Agent, steps: seq<Step>): Agent
    requires Safe(a) && Legal(u, a, steps)
    decreases |steps|
  {
    if steps == [] then a
    else
      StepIsSafe(u, a, steps[0]);
      Reached(u, Next(u, a, steps[0]), steps[1..])
  }

  lemma {:induction false} RunIsSafe(u: Setup, a: Agent, steps: seq<Step>)
    requires Safe(a) && Legal(u, a, steps)
    ensures Safe(Reached(u, a, steps))
    decreases |steps|
  {
    if steps != [] {
      StepIsSafe(u, a, steps[0]);
      RunIsSafe(u, Next(u, a, steps[0]), steps[1..]);
    }
  }

  /**
   Over any run, no command of any turn is submitted twice, the commands of a turn are submitted in list order
   and never after a later turn has begun, at most one device call is in flight, and the agent is blocked
   exactly when its record holds one unknown outcome.
   */
  lemma NeverRepeatsOrOverlaps(u: Setup, start: Memory, steps: seq<Step>)
    requires Legal(u, Agent(Execution(None, []), NoCall, start, 0), steps)
    ensures var a := Reached(u, Agent(Execution(None, []), NoCall, start, 0), steps);
            var calls := a.execution.calls;
            && (forall i, j :: 0 <= i < j < |calls| ==>
                  calls[i].turn < calls[j].turn || (calls[i].turn == calls[j].turn && calls[i].position < calls[j].position))
            && (forall i, j :: 0 <= i < |calls| && 0 <= j < |calls| && calls[i].state.InFlight? && calls[j].state.InFlight?
                  ==> i == j)
            && (a.execution.pending.Some? ==>
                  exists k :: UnknownOnlyAt(a.execution.pending.value.actions, k))
  {
    RunIsSafe(u, Agent(Execution(None, []), NoCall, start, 0), steps);
  }

  /** A list with one unacceptable text, a list that is too long or no list at all: the device is never called. */
  lemma InvalidListSubmitsNone(u: Setup, a: Agent, s: Script)
    requires WellScripted(s) && s.talk.Replies?
    requires s.talk.functions.None? || |s.talk.functions.value| > MAX_ACTIONS
             || exists k :: 0 <= k < |s.talk.functions.value| && !u.accept(s.talk.functions.value[k]).Accepted?
    ensures var (a', r) := Submitted(u, a, s);
            && a'.execution == a.execution && a'.memory == a.memory
            && r.actions == [] && r.status in {Busy, Rejected, TurnFailed}
  {
    if s.talk.functions.Some? {
      CheckedIsAllOrNothing(s.talk.functions.value, u.accept);
    }
  }

  /** A busy agent, an unusable text and a failed model call leave the device and the memory alone, too. */
  lemma NoReplySubmitsNone(u: Setup, a: Agent, s: Script)
    requires WellScripted(s)
    requires !s.talk.Replies? || !ValidText(s.text) || a.execution.pending.Some? || Running(a.provider)
    ensures var (a', r) := Submitted(u, a, s);
            a'.execution == a.execution && a'.memory == a.memory && r.actions == [] && r.status != Completed
  {
  }

  /** Busy means that an outcome is unknown or a model call still runs; otherwise the first obstacle decides. */
  lemma RefusalsAreTold(u: Setup, a: Agent, s: Script)
    requires WellScripted(s)
    ensures var (a', r) := Submitted(u, a, s);
            && r.turn == a.turns && a'.turns == a.turns + 1
            && (r.status == Busy <==> a.execution.pending.Some? || Running(a.provider))
            && (r.status != Busy && (Blank(s.text) || |s.text| > 8192) ==> r.status == Rejected && a'.provider == NoCall)
            && (r.status != Busy && !Blank(s.text) && |s.text| <= 8192 ==>
                  match s.talk
                  case StartFails => r.status == TurnFailed && a'.provider == NoCall
                  case TimesOut => r.status == TurnFailed && a'.provider == Replying
                  case Fails(status) => r.status == status && a'.provider == Finished
                  case Replies(functions) =>
                    && (functions.None? || |functions.value| > 64 ==> r.status == Rejected && a'.provider == Finished)
                    && (functions.Some? && |functions.value| <= 64 ==>
                          forall k: nat :: FirstRefused(functions.value, u.accept, k) ==>
                            && a'.provider == Finished
                            && r.status == if u.accept(functions.value[k]).Invalid? then Rejected else TurnFailed))
  {
    if s.talk.Replies? && s.talk.functions.Some? && |s.talk.functions.value| <= 64 {
      var texts := s.talk.functions.value;
      forall k: nat | FirstRefused(texts, u.accept, k)
        ensures Checked(texts, u.accept) == if u.accept(texts[k]).Invalid? then BadList else BrokenCheck
      {
        FirstRefusedDecides(texts, u.accept, k);
      }
    }
    NotBusyOnceActing(u, a, s);
  }

  lemma NotBusyOnceActing(u: Setup, a: Agent, s: Script)
    requires WellScripted(s)
    ensures Acts(u, a, s) ==> Submitted(u, a, s).1.status != Busy && Submitted(u, a, s).1.turn == a.turns
  {
  }

  /** The exchange of a turn is in the memory at once, or left to the update that goes on in the background. */
  ghost predicate ReachesMemory(u: Setup, a: Agent, s: Script, a': Agent) {
    if s.remembersInTime
    then a'.memory == AfterRecord(u.limits, a.memory, Exchange(s.text, s.reply), s.attempt, s.saves).0 && a'.provider == Finished
    else a'.memory == a.memory && a'.provider == Remembering(Exchange(s.text, s.reply), false)
  }

  /** An idle agent whose model replied to a usable text with a list of at most 64 texts, each of them accepted. */
  ghost predicate Agreed(u: Setup, a: Agent, s: Script) {
    && a.execution.pending.None? && !Running(a.provider) && !Blank(s.text) && |s.text| <= 8192
    && s.talk.Replies? && s.talk.functions.Some? && AllAccepted(s.talk.functions.value, u.accept)
  }

  lemma AgreedMeansCommands(u: Setup, a: Agent, s: Script)
    requires WellScripted(s) && Agreed(u, a, s)
    ensures ValidationOf(s.talk.functions, u.accept).Commands?
    ensures var commands := ValidationOf(s.talk.functions, u.accept).commands;
            && |commands| == |s.talk.functions.value| == |s.answers|
            && (forall k :: 0 <= k < |commands| ==> u.accept(s.talk.functions.value[k]) == Accepted(commands[k]))
            && Submitted(u, a, s) == Acted(u.limits, a.(turns := a.turns + 1, provider := Finished), a.turns, commands, s)
  {
    CheckedIsAllOrNothing(s.talk.functions.value, u.accept);
  }

  /**
   A list accepted as a whole is acted on: its outcomes and calls are those its answers tell, up to the first command
   `m` that is not a success, and the exchange reaches the memory unless waiting for a call broke down.
   */
  lemma AgreedListIsDone(u: Setup, a: Agent, s: Script) returns (commands: seq<Command>, m: nat)
    requires WellScripted(s) && Agreed(u, a, s)
    ensures |commands| == |s.talk.functions.value| == |s.answers|
    ensures forall k :: 0 <= k < |commands| ==> u.accept(s.talk.functions.value[k]) == Accepted(commands[k])
    ensures var (a', r) := Submitted(u, a, s);
            && r.turn == a.turns && OutcomesTold(commands, s.answers, 0, m, r.actions)
            && r.status == (if m == |commands| then Completed else TurnFailed)
            && CallsTold(a.execution.calls, commands, s.answers, a.turns, 0, m, a'.execution.calls)
            && (a'.execution.pending.Some? <==> m < |commands| && r.actions[m].status == Unknown)
            && if m < |commands| && s.answers[m].WaitFails?
               then a'.memory == a.memory && a'.provider == Finished
               else ReachesMemory(u, a, s, a')
  {
    AgreedMeansCommands(u, a, s);
    commands := ValidationOf(s.talk.functions, u.accept).commands;
    var talked := a.(turns := a.turns + 1, provider := Finished);
    if commands == [] {
      m := 0;
    } else {
      m := TurnIsTold(a.execution, commands, a.turns, s.answers);
      ActedParts(u, talked, a.turns, commands, s);
    }
  }

  lemma ActedParts(u: Setup, a: Agent, turn: nat, commands: seq<Command>, s: Script)
    requires |s.answers| == |commands| && commands != []
    ensures var (a', r) := Acted(u.limits, a, turn, commands, s);
            && (a'.execution, r) == Executed(a.execution, commands, turn, s.answers)
            && if Performed(a.execution.calls, commands, s.answers, turn, 0).aborted
               then a'.memory == a.memory && a'.provider == a.provider else ReachesMemory(u, a, s, a')
  {
  }

  /** Clearing is refused while a model call runs; otherwise nothing is left, and it is completed if it was saved. */
  lemma ClearForgets(a: Agent, saves: bool)
    ensures var (a', status) := Cleared(a, saves);
            && a'.execution == a.execution && a'.provider == a.provider
            && (status == Busy <==> Running(a.provider))
            && (status == Busy ==> a'.memory == a.memory)
            && (status != Busy ==> a'.memory == Memory([], "", None) && (status == Completed <==> saves))
  {
  }

  /**
   A call that is still in flight ends late, with whatever it hands back or an exception; a reconcile of its turn then
   unblocks the agent exactly when it handed back one of the three texts for a success or a failure.
   */
  lemma LateReceiptSettles(u: Setup, a: Agent, raw: Option<RawReceipt>)
    requires Safe(a) && a.execution.pending.Some? && a.execution.calls[a.execution.pending.value.call].state.InFlight?
    ensures var p := a.execution.pending.value;
            var late := Next(u, a, DeviceReplies(p.call, raw));
            && Safe(late) && late.execution.pending == Some(p)
            && (Next(u, late, Step.Reconcile(p.turn)).execution.pending.None? <==>
                  raw.Some? && raw.value.Dictionary?
                  && raw.value.status in {Some("simulated_success"), Some("real_success"), Some("failed")})
  {
    var p := a.execution.pending.value;
    StepIsSafe(u, a, DeviceReplies(p.call, raw));
    var late := Next(u, a, DeviceReplies(p.call, raw));
    assert late.execution.calls[p.call].state == LateState(raw);
    ReconcileFacts(late.execution, p.turn);
  }

  /**
   Only the running call writes the memory: the caller itself while none of its model calls is running, and
   otherwise the update that is running, first with its exchange and then with its summary.
   */
  lemma MemoryHasOneWriter(u: Setup, a: Agent, step: Step)
    requires Safe(a) && Possible(a, step) && Next(u, a, step).memory != a.memory
    ensures if Running(a.provider) then a.provider.Remembering? && (step.ProviderAppends? || step.ProviderEnds?)
            else step.Submit? || step.ClearMemory?
  {
  }

  /** An update the caller gave up on does the same to the memory as one it waited for. */
  lemma LateUpdateIsTheSame(u: Setup, a: Agent, e: Exchange, attempt: Attempt, saves: bool)
    requires Safe(a) && a.provider == Remembering(e, false)
    ensures Next(u, Next(u, a, ProviderAppends), ProviderEnds(attempt, saves)).memory
            == AfterRecord(u.limits, a.memory, e, attempt, saves).0
    ensures !Running(Next(u, Next(u, a, ProviderAppends), ProviderEnds(attempt, saves)).provider)
  {
  }

  /** A reply that comes after the caller gave up on it is dropped, and the agent is free for the next turn. */
  lemma LateReplyIsDropped(u: Setup, a: Agent, attempt: Attempt, saves: bool)
    requires Safe(a) && a.provider.Replying?
    ensures var a' := Next(u, a, ProviderEnds(attempt, saves));
            a'.execution == a.execution && a'.memory == a.memory && !Running(a'.provider)
  {
  }

  /** Once cleared, the memory stays empty until another turn is submitted: no older summary is written back. */
  lemma {:induction false} ClearedStaysEmpty(u: Setup, a: Agent, steps: seq<Step>)
    requires Safe(a) && Legal(u, a, steps)
    requires !Running(a.provider) && a.memory.recent == [] && a.memory.summary == ""
    requires forall k :: 0 <= k < |steps| ==> !steps[k].Submit?
    ensures Reached(u, a, steps).memory.recent == [] && Reached(u, a, steps).memory.summary == ""
    decreases |steps|
  {
    if steps != [] {
      StepIsSafe(u, a, steps[0]);
      ClearedStaysEmpty(u, Next(u, a, steps[0]), steps[1..]);
    }
  }

  // ---------------------------------------------------------------- the object

  class OnlineInteraction {
    const execution: ActionExecutor
    const memory: Conversation
    const accept: string -> Check
    var providerCall: ProviderCall
    var turns: nat

    function State(): Agent
      reads this, execution, execution.device, memory
      reads if execution.pendingAction.Some? then {execution.pendingAction.value.actions} else {}
    {
      Agent(execution.State(), providerCall, memory.State(), turns)
    }

    ghost function Settings(): Setup {
      Setup(memory.limits, accept)
    }

    constructor (execution: ActionExecutor, memory: Conversation, accept: string -> Check)
      ensures this.execution == execution && this.memory == memory && this.accept == accept
      ensures providerCall == NoCall && turns == 0
    {
      this.execution, this.memory, this.accept := execution, memory, accept;
      providerCall, turns := NoCall, 0;
    }

    method Submit(s: Script) returns (result: Result)
      requires WellScripted(s)
      modifies this, execution, execution.device, memory
      ensures (State(), result) == Submitted(Settings(), old(State()), s)
    {
      var turn := turns;
      turns := turns + 1;
      if execution.Blocked() {
        return Result(turn, Busy, []);
      }
      if Running(providerCall) {
        return Result(turn, Busy, []);
      }
      providerCall := NoCall;
      if !ValidText(s.text) {
        return Result(turn, Rejected, []);
      }
      match s.talk {
        case StartFails => return Result(turn, TurnFailed, []);
        case TimesOut =>
          providerCall := Replying;
          return Result(turn, TurnFailed, []);
        case Fails(status) =>
          providerCall := Finished;
          return Result(turn, status, []);
        case Replies(functions) =>
          providerCall := Finished;
          var validation := Validate(functions, accept);
          match validation {
            case BadList => return Result(turn, Rejected, []);
            case BrokenCheck => return Result(turn, TurnFailed, []);
            case Commands(commands) => result := Act(commands, turn, s);
          }
      }
    }

    method Act(commands: seq<Command>, turn: nat, s: Script) returns (result: Result)
      requires !execution.Blocked() && |s.answers| == |commands|
      modifies this`providerCall, execution, execution.device, memory
      ensures (State(), result) == Acted(memory.limits, old(State()), turn, commands, s)
    {
      if commands == [] {
        Remember(s);
        return Result(turn, Completed, []);
      }
      var aborted;
      result, aborted := execution.Execute(commands, turn, s.answers);
      if !aborted {
        Remember(s);
      }
    }

    /** Checking a late receipt goes straight to the execution: no model call, no memory, no new turn. */
    method Reconcile(turn: nat) returns (result: Result)
      requires Valid(execution.State())
      modifies execution
      modifies if execution.pendingAction.Some? then {execution.pendingAction.value.actions} else {}
      ensures (execution.State(), result) == Reconciled(old(execution.State()), turn)
    {
      result := execution.Reconcile(turn);
    }

    /** The update runs in the background; within the time limit the caller sees it end. */
    method Remember(s: Script)
      modifies this`providerCall, memory
      ensures memory.State() == if s.remembersInTime
                                then AfterRecord(memory.limits, old(memory.State()), Exchange(s.text, s.reply), s.attempt, s.saves).0
                                else old(memory.State())
      ensures providerCall == if s.remembersInTime then Finished else Remembering(Exchange(s.text, s.reply), false)
    {
      providerCall := Remembering(Exchange(s.text, s.reply), false);
      if s.remembersInTime {
        var _ := memory.Record(s.text, s.reply, s.attempt, s.saves);
        providerCall := Finished;
      }
    }

    /** The first half of an update that the caller no longer waits for. */
    method ProviderAppends()
      requires providerCall.Remembering? && !providerCall.appended && Valid(execution.State())
      modifies this`providerCall, memory
      ensures State() == Next(Settings(), old(State()), Step.ProviderAppends)
    {
      var _ := memory.Append(providerCall.e.user, providerCall.e.assistant);
      providerCall := Remembering(providerCall.e, true);
    }

    method ProviderEnds(attempt: Attempt, saves: bool)
      requires providerCall.Replying? || (providerCall.Remembering? && providerCall.appended)
      requires Valid(execution.State())
      modifies this`providerCall, memory
      ensures State() == Next(Settings(), old(State()), Step.ProviderEnds(attempt, saves))
    {
      if providerCall.Remembering? {
        var _ := memory.Summarise(attempt, saves);
      }
      providerCall := Finished;
    }

    method ClearMemory(saves: bool) returns (status: TurnStatus)
      modifies this`turns, memory
      ensures (State(), status) == Cleared(old(State()), saves)
    {
      turns := turns + 1;
      if Running(providerCall) {
        return Busy;
      }
      var notices := memory.Clear(saves);
      return if notices == [] then Completed else TurnFailed;
    }
  }
}
