/**
 What a request comes to, said on the registry before and after its step, and what renewing does for an owner:
 the recorded time of a name is that of its owner's latest accepted request, and an owner that keeps renewing stays.
 */
module RegistryLeases {
  import opened ProcText
  import opened ProcessMonitor
  import opened RegistryProtocol
  import opened RegistryLedger

  // ---------------------------------------------------------------- one step

  /** The process of the name's owner lives, and its lease has not run out at time `at`. */
  ghost predicate Stays(l: Limits, s: System, name: string, at: int) {
    && name in s.registry.registered
    && Owner(s.registry.registered[name].owner) in s.world.live
    && at - s.registry.registered[name].lastRegistration <= l.lease
  }

  /** The tombstones whose key leads to a living process. */
  ghost function StandingTombstones(s: System): set<string> {
    set key <- s.registry.tombstones | KeyProcess(key).Some? && KeyProcess(key).value in s.world.live
  }

  /** The entry under this name: nothing, or one record. */
  ghost predicate Files(s: System, name: string, record: Record) {
    name in s.registry.registered && s.registry.registered[name] == record
  }

  /** What was filed under this name stays if its owner lives within its lease, and goes otherwise. */
  ghost predicate OnlyPruned(l: Limits, s: System, s': System, name: string, at: int) {
    if Stays(l, s, name, at) then Files(s', name, s.registry.registered[name]) else name !in s'.registry.registered
  }

  lemma SweepOnlyPrunes(l: Limits, s: System, at: int, order: seq<string>, name: string)
    requires Enumerates(order, Leaving(l, s.registry, s.world.live, at))
    ensures var s' := Swept(l, s, at, order);
            OnlyPruned(l, s, s', name, at) && s'.registry.tombstones == StandingTombstones(s) && s'.world == s.world
  {
    PruneLeavesLiveRecords(l, s.registry, s.world.live, at, order, name);
    PruneLeavesLiveTombstones(l, s.registry, s.world.live, at, order);
  }

  /** The record a register request leaves under its name; the name of the process is kept when none is given. */
  ghost function Renewed(r: Record, a: Admission): Record {
    Record(if a.processName == "" then r.processName else a.processName, r.owner, a.at)
  }

  ghost function Fresh(a: Admission): Record {
    Record(if a.processName == "" then a.identity.name else a.processName, a.identity, a.at)
  }

  lemma EntryDecides(l: Limits, s: System, a: Admission)
    requires WellFormed(a.identity) && Valid(l, s.registry)
    ensures var i, s' := a.identity, Entered(l, s, a).0;
            && s'.registry.tombstones == s.registry.tombstones
            && (forall name :: name != i.name ==>
                  (name in s'.registry.registered <==> name in s.registry.registered)
                  && (name in s.registry.registered ==> Files(s', name, s.registry.registered[name])))
            && (if IdentityKey(i) in s.registry.tombstones then s'.registry.registered == s.registry.registered
                else if Owns(s, i) then Files(s', i.name, Renewed(s.registry.registered[i.name], a))
                else if i.name in s.registry.registered then s'.registry.registered == s.registry.registered
                else if |s.registry.tombstones| < l.maxTombstones then Files(s', i.name, Fresh(a))
                else i.name !in s'.registry.registered)
  {
  }

  /**
   What a register request does. Its prune comes first. A tombstone that still stands refuses it; an owner that is
   still there is renewed, to the time and the process name of the request; a name that someone else still holds
   stays with them; a free name is given to the client as long as there is room for a tombstone.
   */
  lemma RegisterDecides(l: Limits, s: System, a: Admission, order: seq<string>)
    requires Possible(l, s, Register(a, order)) && Valid(l, s.registry)
    ensures var i, s' := a.identity, Next(l, s, Register(a, order));
            && s'.registry.tombstones == StandingTombstones(s)
            && (if IdentityKey(i) in StandingTombstones(s) then OnlyPruned(l, s, s', i.name, a.at)
                else if Owns(s, i) && Stays(l, s, i.name, a.at)
                  then Files(s', i.name, Renewed(s.registry.registered[i.name], a))
                else if Stays(l, s, i.name, a.at) then Files(s', i.name, s.registry.registered[i.name])
                else if |StandingTombstones(s)| < l.maxTombstones then Files(s', i.name, Fresh(a))
                else i.name !in s'.registry.registered)
  {
    SweepOnlyPrunes(l, s, a.at, order, a.identity.name);
    PruneKeepsValid(l, s.registry, s.world.live, a.at, order);
    EntryDecides(l, Swept(l, s, a.at, order), a);
  }

  lemma TerminationDecides(l: Limits, s: System, i: Identity)
    requires WellFormed(i) && Valid(l, s.registry)
    ensures var s' := Terminated(l, s, i).0;
            && (forall name :: name != i.name ==>
                  (name in s'.registry.registered <==> name in s.registry.registered)
                  && (name in s.registry.registered ==> Files(s', name, s.registry.registered[name])))
            && (if IdentityKey(i) in s.registry.tombstones
                then s'.registry == s.registry && s'.ledger.terminated == s.ledger.terminated + {i}
                else if Owner(i) !in s.world.live || |s.registry.tombstones| >= l.maxTombstones
                then s'.registry == s.registry && s'.ledger.terminated == s.ledger.terminated
                else && s'.registry.tombstones == s.registry.tombstones + {IdentityKey(i)}
                     && s'.ledger.terminated == s.ledger.terminated + {i}
                     && (if Owns(s, i) then i.name !in s'.registry.registered
                         else s'.registry.registered == s.registry.registered))
  {
  }

  /**
   What an unregister request does, again after its prune. Of a living process it is accepted as long as there is
   room for a tombstone: the identity then has its tombstone and is not registered. A repeated request is accepted
   and changes nothing; any other request changes nothing and is not accepted.
   */
  lemma UnregisterDecides(l: Limits, s: System, i: Identity, at: int, order: seq<string>)
    requires Possible(l, s, Unregister(i, at, order)) && Valid(l, s.registry)
    ensures var s' := Next(l, s, Unregister(i, at, order));
            var standing := StandingTombstones(s);
            if IdentityKey(i) in standing
            then && s'.registry.tombstones == standing && OnlyPruned(l, s, s', i.name, at)
                 && s'.ledger.terminated == s.ledger.terminated + {i}
            else if Owner(i) !in s.world.live || |standing| >= l.maxTombstones
            then && s'.registry.tombstones == standing && OnlyPruned(l, s, s', i.name, at)
                 && s'.ledger.terminated == s.ledger.terminated
            else && s'.registry.tombstones == standing + {IdentityKey(i)}
                 && s'.ledger.terminated == s.ledger.terminated + {i}
                 && (if Owns(s, i) then i.name !in s'.registry.registered else OnlyPruned(l, s, s', i.name, at))
  {
    SweepOnlyPrunes(l, s, at, order, i.name);
    PruneKeepsValid(l, s.registry, s.world.live, at, order);
    TerminationDecides(l, Swept(l, s, at, order), i);
  }

  /** No step does more to a name than prune it, unless it is a request about that name. */
  lemma OtherNamesAreOnlyPruned(l: Limits, s: System, step: Step, name: string)
    requires Possible(l, s, step) && Valid(l, s.registry)
    requires step.Register? ==> step.admission.identity.name != name
    requires step.Unregister? ==> step.identity.name != name
    ensures if Prunes(step) then OnlyPruned(l, s, Next(l, s, step), name, PruneTime(step))
            else Next(l, s, step).registry.registered == s.registry.registered
                 && Next(l, s, step).registry.tombstones == s.registry.tombstones
  {
    if Prunes(step) {
      SweepOnlyPrunes(l, s, PruneTime(step), step.order, name);
      PruneKeepsValid(l, s.registry, s.world.live, PruneTime(step), step.order);
      if step.Register? {
        EntryDecides(l, Swept(l, s, step.admission.at, step.order), step.admission);
      } else if step.Unregister? {
        TerminationDecides(l, Swept(l, s, step.at, step.order), step.identity);
      }
    }
  }

  lemma EntryKeepsValid(l: Limits, s: System, a: Admission)
    requires WellFormed(a.identity) && Valid(l, s.registry)
    ensures Valid(l, Entered(l, s, a).0.registry)
  {
  }

  lemma TerminationKeepsValid(l: Limits, s: System, i: Identity)
    requires WellFormed(i) && Valid(l, s.registry)
    ensures Valid(l, Terminated(l, s, i).0.registry)
  {
  }

  lemma StepKeepsValid(l: Limits, s: System, step: Step)
    requires Possible(l, s, step) && Valid(l, s.registry)
    ensures Valid(l, Next(l, s, step).registry)
  {
    match step
    case Register(a, order) =>
      PruneKeepsValid(l, s.registry, s.world.live, a.at, order);
      EntryKeepsValid(l, Swept(l, s, a.at, order), a);
    case Unregister(i, at, order) =>
      PruneKeepsValid(l, s.registry, s.world.live, at, order);
      TerminationKeepsValid(l, Swept(l, s, at, order), i);
    case Sweep(at, order) => PruneKeepsValid(l, s.registry, s.world.live, at, order);
    case _ =>
  }

  // ---------------------------------------------------------------- whole runs

  /** This step is a register request of the identity, and it is accepted. */
  ghost predicate Accepts(l: Limits, s: System, step: Step, i: Identity)
    requires Possible(l, s, step)
  {
    && step.Register? && step.admission.identity == i
    && Owns(Next(l, s, step), i) && IdentityKey(i) !in Next(l, s, step).registry.tombstones
  }

  /** The time of the latest accepted request of the identity in this run, and `last` if there is none. */
  ghost function Stamp(l: Limits, s: System, steps: seq<Step>, i: Identity, last: int): int
    requires Legal(l, s, steps)
    decreases |steps|
  {
    if steps == [] then last
    else
      Stamp(l, Next(l, s, steps[0]), steps[1..], i, if Accepts(l, s, steps[0], i) then steps[0].admission.at else last)
  }

  /** What is recorded for the identity, if it owns its name, is this time. */
  ghost predicate StampedAt(s: System, i: Identity, last: int) {
    Owns(s, i) ==> s.registry.registered[i.name].lastRegistration == last
  }

  lemma StepKeepsStamp(l: Limits, s: System, step: Step, i: Identity, last: int)
    requires Possible(l, s, step) && Valid(l, s.registry) && StampedAt(s, i, last)
    ensures StampedAt(Next(l, s, step), i, if Accepts(l, s, step, i) then step.admission.at else last)
  {
    if step.Register? && step.admission.identity.name == i.name {
      RegisterDecides(l, s, step.admission, step.order);
    } else if step.Unregister? && step.identity.name == i.name {
      UnregisterDecides(l, s, step.identity, step.at, step.order);
    } else {
      OtherNamesAreOnlyPruned(l, s, step, i.name);
    }
  }

  lemma {:induction false} RunKeepsStamp(l: Limits, s: System, steps: seq<Step>, i: Identity, last: int)
    requires Legal(l, s, steps) && Valid(l, s.registry) && StampedAt(s, i, last)
    ensures StampedAt(Reached(l, s, steps), i, Stamp(l, s, steps, i, last)) && Valid(l, Reached(l, s, steps).registry)
    decreases |steps|
  {
    if steps != [] {
      StepKeepsValid(l, s, steps[0]);
      StepKeepsStamp(l, s, steps[0], i, last);
      RunKeepsStamp(l, Next(l, s, steps[0]), steps[1..], i,
                    if Accepts(l, s, steps[0], i) then steps[0].admission.at else last);
    }
  }

  /** Over every run, the recorded time of a name is the time of its owner's latest accepted request. */
  lemma RecordedTimeIsLatestRequest(l: Limits, steps: seq<Step>, i: Identity)
    requires Legal(l, START, steps) && Owns(Reached(l, START, steps), i)
    ensures Reached(l, START, steps).registry.registered[i.name].lastRegistration == Stamp(l, START, steps, i, 0)
  {
    RunKeepsStamp(l, START, steps, i, 0);
  }

  /** The owner neither exits nor unregisters, and no prune comes later than a lease after its latest accepted request. */
  ghost predicate Faithful(l: Limits, s: System, steps: seq<Step>, i: Identity, last: int)
    requires Legal(l, s, steps)
    decreases |steps|
  {
    steps == []
    || (&& (steps[0].Unregister? ==> steps[0].identity != i)
        && (Prunes(steps[0]) ==> Owner(i) in s.world.live && PruneTime(steps[0]) - last <= l.lease)
        && Faithful(l, Next(l, s, steps[0]), steps[1..], i,
                    if Accepts(l, s, steps[0], i) then steps[0].admission.at else last))
  }

  lemma StepKeepsFaithfulOwner(l: Limits, s: System, step: Step, i: Identity, last: int)
    requires Possible(l, s, step) && Valid(l, s.registry) && StampedAt(s, i, last) && Owns(s, i)
    requires step.Unregister? ==> step.identity != i
    requires Prunes(step) ==> Owner(i) in s.world.live && PruneTime(step) - last <= l.lease
    ensures Owns(Next(l, s, step), i)
  {
    if step.Register? && step.admission.identity.name == i.name {
      RegisterDecides(l, s, step.admission, step.order);
    } else if step.Unregister? && step.identity.name == i.name {
      UnregisterDecides(l, s, step.identity, step.at, step.order);
    } else {
      OtherNamesAreOnlyPruned(l, s, step, i.name);
    }
  }

  lemma {:induction false} FaithfulRunKeepsOwner(l: Limits, s: System, steps: seq<Step>, i: Identity, last: int)
    requires Legal(l, s, steps) && Valid(l, s.registry) && StampedAt(s, i, last) && Owns(s, i)
    requires Faithful(l, s, steps, i, last)
    ensures Owns(Reached(l, s, steps), i)
    decreases |steps|
  {
    if steps != [] {
      StepKeepsValid(l, s, steps[0]);
      StepKeepsStamp(l, s, steps[0], i, last);
      StepKeepsFaithfulOwner(l, s, steps[0], i, last);
      FaithfulRunKeepsOwner(l, Next(l, s, steps[0]), steps[1..], i,
                            if Accepts(l, s, steps[0], i) then steps[0].admission.at else last);
    }
  }

  /**
   An owner whose process lives, that does not unregister, and that renews in time for every prune keeps its name
   through the rest of the run, whatever all other clients request.
   */
  lemma FaithfulOwnerStays(l: Limits, before: seq<Step>, after: seq<Step>, i: Identity)
    requires Legal(l, START, before) && Owns(Reached(l, START, before), i)
    requires Legal(l, Reached(l, START, before), after)
    requires Faithful(l, Reached(l, START, before), after, i, Stamp(l, START, before, i, 0))
    ensures Owns(Reached(l, Reached(l, START, before), after), i)
  {
    RunKeepsStamp(l, START, before, i, 0);
    FaithfulRunKeepsOwner(l, Reached(l, START, before), after, i, Stamp(l, START, before, i, 0));
  }
}
