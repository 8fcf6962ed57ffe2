/** What the registry owes its clients over whole runs: who owns a name, why a record leaves, and the events. */
module RegistryLedger {
  import opened ProcText
  import opened ProcessMonitor
  import opened RegistryProtocol

  // ---------------------------------------------------------------- counting

  lemma {:induction false} EnumerationCounts(order: seq<string>, names: set<string>)
    requires Enumerates(order, names)
    ensures |order| == |names|
    decreases |order|
  {
    if order == [] {
      assert names == {};
    } else {
      var k := |order| - 1;
      assert forall name :: name in names - {order[k]} <==> name in order[..k];
      EnumerationCounts(order[..k], names - {order[k]});
    }
  }

  /** Every record either stays or is one of the reported ones. */
  lemma PruneSplitsTheTable(l: Limits, g: Registry, live: set<Process>, now: int, order: seq<string>)
    requires Enumerates(order, Leaving(l, g, live, now))
    ensures |Pruned(l, g, live, now, order).registered| + |NewEvents(l, g, live, now, order)| == |g.registered|
    ensures Pruned(l, g, live, now, order).events == g.events + NewEvents(l, g, live, now, order)
  {
    EnumerationCounts(order, Leaving(l, g, live, now));
    assert NewEvents(l, g, live, now, order) == Notices(g, live, order);
    assert g.registered.Keys == Pruned(l, g, live, now, order).registered.Keys + Leaving(l, g, live, now);
  }

  /** Events come out in order and once; each registration is current, unregistered, or the subject of one event. */
  ghost predicate Balanced(s: System) {
    && s.ledger.raised == s.ledger.handed + s.registry.events
    && |s.registry.registered| + |s.ledger.raised| + s.ledger.left == s.ledger.entered
  }

  lemma SweepKeepsBalance(l: Limits, s: System, at: int, order: seq<string>)
    requires Balanced(s) && Enumerates(order, Leaving(l, s.registry, s.world.live, at))
    ensures Balanced(Swept(l, s, at, order))
  {
    PruneSplitsTheTable(l, s.registry, s.world.live, at, order);
  }

  lemma EntryKeepsBalance(l: Limits, s: System, a: Admission)
    requires WellFormed(a.identity) && Balanced(s)
    ensures Balanced(Entered(l, s, a).0)
  {
    var g, g' := s.registry, Entered(l, s, a).0.registry;
    assert g'.registered.Keys == g.registered.Keys || g'.registered.Keys == g.registered.Keys + {a.identity.name};
  }

  lemma TerminationKeepsBalance(l: Limits, s: System, i: Identity)
    requires WellFormed(i) && Balanced(s)
    ensures Balanced(Terminated(l, s, i).0)
  {
    var g, g' := s.registry, Terminated(l, s, i).0.registry;
    assert g'.registered == g.registered || g'.registered.Keys == g.registered.Keys - {i.name};
  }

  lemma StepKeepsBalance(l: Limits, s: System, step: Step)
    requires Balanced(s) && Possible(l, s, step)
    ensures Balanced(Next(l, s, step))
  {
    match step
    case Register(a, order) =>
      SweepKeepsBalance(l, s, a.at, order);
      EntryKeepsBalance(l, Swept(l, s, a.at, order), a);
    case Unregister(i, at, order) =>
      SweepKeepsBalance(l, s, at, order);
      TerminationKeepsBalance(l, Swept(l, s, at, order), i);
    case Sweep(at, order) => SweepKeepsBalance(l, s, at, order);
    case _ =>
  }

  lemma {:induction false} RunKeepsBalance(l: Limits, s: System, steps: seq<Step>)
    requires Balanced(s) && Legal(l, s, steps)
    ensures Balanced(Reached(l, s, steps))
    decreases |steps|
  {
    if steps != [] {
      StepKeepsBalance(l, s, steps[0]);
      RunKeepsBalance(l, Next(l, s, steps[0]), steps[1..]);
    }
  }

  lemma BooksBalance(l: Limits, steps: seq<Step>)
    requires Legal(l, START, steps)
    ensures Balanced(Reached(l, START, steps))
  {
    RunKeepsBalance(l, START, steps);
  }

  // ---------------------------------------------------------------- ownership

  ghost predicate Owns(s: System, i: Identity) {
    IsRegisteredAs(s.registry, i)
  }

  predicate Prunes(step: Step) {
    step.Register? || step.Unregister? || step.Sweep?
  }

  function PruneTime(step: Step): int
    requires Prunes(step)
  {
    if step.Register? then step.admission.at else step.at
  }

  ghost predicate Reported(l: Limits, s: System, step: Step, name: string)
    requires Possible(l, s, step) && Prunes(step)
  {
    var added := NewEvents(l, s.registry, s.world.live, PruneTime(step), step.order);
    && Next(l, s, step).ledger.raised == s.ledger.raised + added
    && exists k :: ReportedAt(l, s.registry, s.world.live, PruneTime(step), added, name, k)
  }

  lemma SweepKeepsOwner(l: Limits, s: System, at: int, order: seq<string>, i: Identity)
    requires Enumerates(order, Leaving(l, s.registry, s.world.live, at))
    requires Owns(s, i) && i.name !in Leaving(l, s.registry, s.world.live, at)
    ensures Owns(Swept(l, s, at, order), i)
  {
  }

  lemma EntryKeepsOwner(l: Limits, s: System, a: Admission, i: Identity)
    requires WellFormed(a.identity) && Owns(s, i)
    ensures Owns(Entered(l, s, a).0, i)
  {
  }

  lemma TerminationEndsItsOwn(l: Limits, s: System, j: Identity, i: Identity)
    requires WellFormed(j) && Owns(s, i) && !Owns(Terminated(l, s, j).0, i)
    ensures j == i && i.name !in Terminated(l, s, j).0.registry.registered
  {
  }

  /** The events of a step are those of its prune. */
  lemma StepRaisesItsPrune(l: Limits, s: System, step: Step)
    requires Possible(l, s, step) && Prunes(step)
    ensures Next(l, s, step).ledger.raised
            == s.ledger.raised + NewEvents(l, s.registry, s.world.live, PruneTime(step), step.order)
  {
  }

  /**
   An owner loses its name in a step only through its own unregister, or because its process has exited or its
   lease has run out by the time of that step; in the latter two cases exactly one event of that step says which.
   */
  lemma OwnershipEndsForACause(l: Limits, s: System, step: Step, i: Identity)
    requires Possible(l, s, step) && Owns(s, i) && !Owns(Next(l, s, step), i)
    ensures Prunes(step)
    ensures if i.name in Leaving(l, s.registry, s.world.live, PruneTime(step)) then Reported(l, s, step, i.name)
            else step.Unregister? && step.identity == i && i.name !in Next(l, s, step).registry.registered
  {
    assert Prunes(step);
    var at := PruneTime(step);
    if i.name in Leaving(l, s.registry, s.world.live, at) {
      LeavingIsReportedOnce(l, s.registry, s.world.live, at, step.order, i.name);
      StepRaisesItsPrune(l, s, step);
    } else {
      SweepKeepsOwner(l, s, at, step.order, i);
      var swept := Swept(l, s, at, step.order);
      match step
      case Register(a, _) => EntryKeepsOwner(l, swept, a, i);
      case Unregister(j, _, _) => TerminationEndsItsOwn(l, swept, j, i);
      case _ =>
    }
  }

  lemma SweepMakesNoOwner(l: Limits, s: System, at: int, order: seq<string>, i: Identity)
    requires Enumerates(order, Leaving(l, s.registry, s.world.live, at))
    ensures Owns(Swept(l, s, at, order), i) ==> Owns(s, i)
    ensures i.name in s.registry.registered && i.name !in Swept(l, s, at, order).registry.registered ==>
              i.name in Leaving(l, s.registry, s.world.live, at)
  {
  }

  lemma TerminationMakesNoOwner(l: Limits, s: System, j: Identity, i: Identity)
    requires WellFormed(j)
    ensures Owns(Terminated(l, s, j).0, i) ==> Owns(s, i)
  {
  }

  lemma EntryMakesOneOwner(l: Limits, s: System, a: Admission, i: Identity)
    requires WellFormed(a.identity) && !Owns(s, i) && Owns(Entered(l, s, a).0, i)
    ensures a.identity == i && i.name !in s.registry.registered
    ensures Entered(l, s, a).0.ledger.entered == s.ledger.entered + 1
    ensures Entered(l, s, a).0.registry.registered[i.name].lastRegistration == a.at
  {
  }

  /** A name changes hands only in a register request of the new owner that enters it afresh. */
  lemma OwnershipBeginsByRegister(l: Limits, s: System, step: Step, i: Identity)
    requires Possible(l, s, step) && !Owns(s, i) && Owns(Next(l, s, step), i)
    ensures step.Register? && step.admission.identity == i
    ensures Next(l, s, step).ledger.entered == s.ledger.entered + 1
    ensures Next(l, s, step).registry.registered[i.name].lastRegistration == step.admission.at
    ensures i.name in s.registry.registered ==> i.name in Leaving(l, s.registry, s.world.live, step.admission.at)
  {
    match step
    case Register(a, order) =>
      SweepMakesNoOwner(l, s, a.at, order, i);
      EntryMakesOneOwner(l, Swept(l, s, a.at, order), a, i);
    case Unregister(j, at, order) =>
      SweepMakesNoOwner(l, s, at, order, i);
      TerminationMakesNoOwner(l, Swept(l, s, at, order), j, i);
    case Sweep(at, order) => SweepMakesNoOwner(l, s, at, order, i);
    case _ =>
  }
}
