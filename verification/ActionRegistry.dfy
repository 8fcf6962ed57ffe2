/** Whole-list validation before anything runs, and the normalisation of device receipts. */
module ActionRegistry {
  import opened Prelude

  const MAX_ACTIONS := 64

  /** A validated action; parsing and the per-device checks are the function passed to `Validate`. */
  datatype Command = Command(name: string, parameters: string)

  datatype Status = SimulatedSuccess | RealSuccess | Failed | Unknown | NotExecuted

  datatype Receipt = Receipt(status: Status, detail: string, data: Option<string>)

  /** What an adapter hands back: anything at all, or a dictionary with some status text. */
  datatype RawReceipt = NotADictionary | Dictionary(status: Option<string>, detail: string, data: Option<string>)

  predicate ConfirmedSuccess(s: Status) {
    s == SimulatedSuccess || s == RealSuccess
  }

  function DeviceOutcome(text: string): (s: Option<Status>)
    ensures s.Some? ==> s.value != NotExecuted
  {
    if text == "simulated_success" then Some(SimulatedSuccess)
    else if text == "real_success" then Some(RealSuccess)
    else if text == "failed" then Some(Failed)
    else if text == "unknown" then Some(Unknown)
    else None
  }

  /** Only the four device outcomes pass; every other answer is an unknown outcome. */
  function Normalised(raw: RawReceipt): (r: Receipt)
    ensures r.status != NotExecuted
    ensures raw.Dictionary? && raw.status.Some? && DeviceOutcome(raw.status.value).Some? ==>
              r == Receipt(DeviceOutcome(raw.status.value).value, raw.detail, raw.data)
    ensures !(raw.Dictionary? && raw.status.Some? && DeviceOutcome(raw.status.value).Some?) ==> r.status == Unknown
  {
    match raw
    case NotADictionary => Receipt(Unknown, "no valid receipt", None)
    case Dictionary(status, detail, data) =>
      if status.Some? && DeviceOutcome(status.value).Some?
      then Receipt(DeviceOutcome(status.value).value, detail, data)
      else Receipt(Unknown, "no valid receipt", None)
  }

  /** One function text: a command, a ValueError, TypeError or SyntaxError, or any other exception. */
  datatype Check = Accepted(command: Command) | Invalid | Crashes

  datatype Validation = Commands(commands: seq<Command>) | BadList | BrokenCheck

  predicate AllAccepted(functions: seq<string>, accept: string -> Check) {
    |functions| <= MAX_ACTIONS && forall k :: 0 <= k < |functions| ==> accept(functions[k]).Accepted?
  }

  /** The texts one after the other; the first that is not accepted decides. */
  function Checked(functions: seq<string>, accept: string -> Check): (v: Validation)
    ensures v.Commands? ==> |v.commands| == |functions|
  {
    if functions == [] then Commands([])
    else
      match accept(functions[0])
      case Invalid => BadList
      case Crashes => BrokenCheck
      case Accepted(c) =>
        var rest := Checked(functions[1..], accept);
        if rest.Commands? then Commands([c] + rest.commands) else rest
  }

  /** What is not a list, or too long, is refused before any text is looked at. */
  function ValidationOf(functions: Option<seq<string>>, accept: string -> Check): (v: Validation)
    ensures v.Commands? ==> functions.Some? && |v.commands| == |functions.value|
  {
    if functions.None? || |functions.value| > MAX_ACTIONS then BadList else Checked(functions.value, accept)
  }

  /** All or nothing: one command per text, in order, exactly when every text is accepted. */
  lemma {:induction false} CheckedIsAllOrNothing(functions: seq<string>, accept: string -> Check)
    ensures Checked(functions, accept).Commands? <==>
              forall k :: 0 <= k < |functions| ==> accept(functions[k]).Accepted?
    ensures Checked(functions, accept).Commands? ==>
              forall k :: 0 <= k < |functions| ==>
                accept(functions[k]) == Accepted(Checked(functions, accept).commands[k])
  {
    if functions != [] {
      CheckedIsAllOrNothing(functions[1..], accept);
      assert forall k :: 1 <= k < |functions| ==> functions[k] == functions[1..][k - 1];
    }
  }

  ghost predicate FirstRefused(functions: seq<string>, accept: string -> Check, k: nat) {
    k < |functions| && !accept(functions[k]).Accepted? && forall i :: 0 <= i < k ==> accept(functions[i]).Accepted?
  }

  /** The first text that is not accepted decides which error the list is refused with. */
  lemma {:induction false} FirstRefusedDecides(functions: seq<string>, accept: string -> Check, k: nat)
    requires FirstRefused(functions, accept, k)
    ensures Checked(functions, accept) == if accept(functions[k]).Invalid? then BadList else BrokenCheck
  {
    if k > 0 {
      FirstRefusedDecides(functions[1..], accept, k - 1);
    }
  }

  method Validate(functions: Option<seq<string>>, accept: string -> Check) returns (v: Validation)
    ensures v == ValidationOf(functions, accept)
    ensures v.Commands? <==> functions.Some? && AllAccepted(functions.value, accept)
    ensures v.Commands? ==>
              && |v.commands| == |functions.value|
              && forall k :: 0 <= k < |functions.value| ==> accept(functions.value[k]) == Accepted(v.commands[k])
    ensures v.BrokenCheck? ==>
              functions.Some? && |functions.value| <= MAX_ACTIONS
              && exists k: nat :: FirstRefused(functions.value, accept, k) && accept(functions.value[k]).Crashes?
  {
    if functions.None? || |functions.value| > MAX_ACTIONS {
      return BadList;
    }
    var texts, commands := functions.value, [];
    CheckedIsAllOrNothing(texts, accept);
    for k := 0 to |texts|
      invariant |commands| == k
      invariant forall i :: 0 <= i < k ==> accept(texts[i]) == Accepted(commands[i])
    {
      var check := accept(texts[k]);
      if !check.Accepted? {
        assert FirstRefused(texts, accept, k);
        FirstRefusedDecides(texts, accept, k);
      }
      match check {
        case Invalid => return BadList;
        case Crashes => return BrokenCheck;
        case Accepted(command) => commands := commands + [command];
      }
    }
    assert commands == Checked(texts, accept).commands;
    return Commands(commands);
  }
}
