/**
 Runs of the registry: processes start and exit, time passes, and requests of any client arrive late, repeated and
 in any order. A register request is admitted, with its time and liveness check, before it takes the lock.
 */
module RegistryProtocol {
  import opened Prelude
  import opened ProcText
  import opened ProcessMonitor

  datatype Admission = Admission(identity: Identity, processName: string, at: int)

  /**
   `ever` holds every process that has started; a start time never comes back once its process has exited, and
   no two living processes have the same number.
   */
  datatype World = World(live: set<Process>, ever: set<Process>, now: int)

  /** `raised` is every event so far, `handed` the ones a caller has taken, `terminated` the accepted unregisters. */
  datatype Ledger = Ledger(raised: seq<Event>, handed: seq<Event>, terminated: set<Identity>, entered: nat, left: nat)

  datatype System = System(registry: Registry, world: World, admitted: multiset<Admission>, ledger: Ledger)

  const START := System(EMPTY, World({}, {}, 0), multiset{}, Ledger([], [], {}, 0, 0))

  datatype Step =
    | Wait(duration: nat)
    | Start(process: Process)
    | Exit(process: Process)
    | Admit(identity: Identity, processName: string)
    | Register(admission: Admission, order: seq<string>)
    | Unregister(identity: Identity, at: int, order: seq<string>)
    | Sweep(at: int, order: seq<string>)
    | Collect

  ghost predicate Possible(l: Limits, s: System, step: Step) {
    match step
    case Wait(_) => true
    case Start(p) => p !in s.world.ever && forall q :: q in s.world.live ==> q.pid != p.pid
    case Exit(p) => p in s.world.live
    case Admit(i, _) => WellFormed(i) && Owner(i) in s.world.live
    case Register(a, order) =>
      a in s.admitted && WellFormed(a.identity)
      && Enumerates(order, Leaving(l, s.registry, s.world.live, a.at))
    case Unregister(i, at, order) =>
      WellFormed(i) && at <= s.world.now && Enumerates(order, Leaving(l, s.registry, s.world.live, at))
    case Sweep(at, order) => at <= s.world.now && Enumerates(order, Leaving(l, s.registry, s.world.live, at))
    case Collect => true
  }

  ghost function Swept(l: Limits, s: System, at: int, order: seq<string>): System
    requires Enumerates(order, Leaving(l, s.registry, s.world.live, at))
  {
    s.(registry := Pruned(l, s.registry, s.world.live, at, order),
       ledger := s.ledger.(raised := s.ledger.raised + NewEvents(l, s.registry, s.world.live, at, order)))
  }

  ghost function Entered(l: Limits, s: System, a: Admission): (System, Reply)
    requires WellFormed(a.identity)
  {
    var (registry, reply) := AfterRegister(l, s.registry, a.identity, a.processName, a.at);
    (s.(registry := registry, admitted := s.admitted - multiset{a},
        ledger := s.ledger.(entered := s.ledger.entered + if reply.Registered? then 1 else 0)), reply)
  }

  ghost function Terminated(l: Limits, s: System, i: Identity): (System, Reply)
    requires WellFormed(i)
  {
    var (registry, reply) := AfterUnregister(l, s.registry, s.world.live, i);
    (s.(registry := registry,
        ledger := s.ledger.(terminated := s.ledger.terminated + if Unregisters(reply) then {i} else {},
                            left := s.ledger.left + if reply.Unregistered? then 1 else 0)), reply)
  }

  ghost function Next(l: Limits, s: System, step: Step): System
    requires Possible(l, s, step)
  {
    match step
    case Wait(d) => s.(world := s.world.(now := s.world.now + d))
    case Start(p) => s.(world := s.world.(live := s.world.live + {p}, ever := s.world.ever + {p}))
    case Exit(p) => s.(world := s.world.(live := s.world.live - {p}))
    case Admit(i, name) => s.(admitted := s.admitted + multiset{Admission(i, name, s.world.now)})
    case Register(a, order) => Entered(l, Swept(l, s, a.at, order), a).0
    case Unregister(i, at, order) => Terminated(l, Swept(l, s, at, order), i).0
    case Sweep(at, order) => Swept(l, s, at, order)
    case Collect =>
      s.(registry := s.registry.(events := []), ledger := s.ledger.(handed := s.ledger.handed + s.registry.events))
  }

  ghost predicate Legal(l: Limits, s: System, steps: seq<Step>)
    decreases |steps|
  {
    steps == [] || (Possible(l, s, steps[0]) && Legal(l, Next(l, s, steps[0]), steps[1..]))
  }

  ghost function Reached(l: Limits, s: System, steps: seq<Step>): System
    requires Legal(l, s, steps)
    decreases |steps|
  {
    if steps == [] then s else Reached(l, Next(l, s, steps[0]), steps[1..])
  }

  ghost predicate IsRegisteredAs(g: Registry, i: Identity) {
    i.name in g.registered && g.registered[i.name].owner == i
  }

  // ---------------------------------------------------------------- terminated identities stay out

  /** Pruning reads the process of this identity back from its key. */
  predicate Recoverable(i: Identity)
    requires i.pid >= 0
  {
    KeyProcess(IdentityKey(i)) == Some(Owner(i))
  }

  /** Any other identity with the same key belongs to a process that can never live beside this one's. */
  ghost predicate Distinct(i: Identity)
    requires i.pid >= 0
  {
    forall j :: WellFormed(j) && IdentityKey(j) == IdentityKey(i) ==>
      j == i || (j.pid == i.pid && j.start != i.start)
  }

  /** Names and registration identifiers without NUL, as all clients send them, make a recoverable, distinct key. */
  lemma PlainIdentitiesAreSafe(i: Identity)
    requires i.pid >= 0 && NulFree(i.name) && NulFree(i.id)
    ensures Recoverable(i) && Distinct(i)
  {
    KeyRecoversProcess(i);
    forall j | WellFormed(j) && IdentityKey(j) == IdentityKey(i)
      ensures j == i
    {
      PlainKeyIsUnique(i, j);
    }
  }

  ghost predicate OnePerNumber(live: set<Process>) {
    forall p, q :: p in live && q in live && p.pid == q.pid ==> p == q
  }

  /** What holds of one identity throughout: it is never both registered and terminated while its process lives. */
  ghost predicate Guarded(l: Limits, s: System, i: Identity)
    requires WellFormed(i)
  {
    && Valid(l, s.registry) && s.world.live <= s.world.ever && OnePerNumber(s.world.live)
    && (IdentityKey(i) in s.registry.tombstones ==> !IsRegisteredAs(s.registry, i))
    && (i in s.ledger.terminated ==>
          && Owner(i) in s.world.ever
          && (Owner(i) in s.world.live ==> IdentityKey(i) in s.registry.tombstones))
  }

  lemma SweepKeepsGuard(l: Limits, s: System, at: int, order: seq<string>, i: Identity)
    requires WellFormed(i) && Recoverable(i) && Guarded(l, s, i)
    requires Enumerates(order, Leaving(l, s.registry, s.world.live, at))
    ensures Guarded(l, Swept(l, s, at, order), i)
    ensures IdentityKey(i) in Swept(l, s, at, order).registry.tombstones ==> Owner(i) in s.world.live
    ensures IsRegisteredAs(Swept(l, s, at, order).registry, i) ==> Owner(i) in s.world.live
  {
    PruneKeepsValid(l, s.registry, s.world.live, at, order);
  }

  lemma EntryKeepsGuard(l: Limits, s: System, a: Admission, i: Identity)
    requires WellFormed(i) && WellFormed(a.identity) && Guarded(l, s, i)
    ensures Guarded(l, Entered(l, s, a).0, i)
  {
  }

  lemma TerminationKeepsGuard(l: Limits, s: System, j: Identity, i: Identity)
    requires WellFormed(i) && WellFormed(j) && Distinct(i) && Guarded(l, s, i)
    requires IdentityKey(i) in s.registry.tombstones ==> Owner(i) in s.world.live
    requires IsRegisteredAs(s.registry, i) ==> Owner(i) in s.world.live
    ensures Guarded(l, Terminated(l, s, j).0, i)
  {
  }

  lemma StepKeepsGuard(l: Limits, s: System, step: Step, i: Identity)
    requires WellFormed(i) && Recoverable(i) && Distinct(i) && Guarded(l, s, i) && Possible(l, s, step)
    ensures Guarded(l, Next(l, s, step), i)
  {
    match step
    case Register(a, order) =>
      SweepKeepsGuard(l, s, a.at, order, i);
      EntryKeepsGuard(l, Swept(l, s, a.at, order), a, i);
    case Unregister(j, at, order) =>
      SweepKeepsGuard(l, s, at, order, i);
      TerminationKeepsGuard(l, Swept(l, s, at, order), j, i);
    case Sweep(at, order) => SweepKeepsGuard(l, s, at, order, i);
    case _ =>
  }

  lemma {:induction false} RunKeepsGuard(l: Limits, s: System, steps: seq<Step>, i: Identity)
    requires WellFormed(i) && Recoverable(i) && Distinct(i) && Guarded(l, s, i) && Legal(l, s, steps)
    ensures Guarded(l, Reached(l, s, steps), i)
    decreases |steps|
  {
    if steps != [] {
      StepKeepsGuard(l, s, steps[0], i);
      RunKeepsGuard(l, Next(l, s, steps[0]), steps[1..], i);
    }
  }

  /** In this state the identity has been unregistered, its process is alive, and yet it is registered. */
  ghost predicate Revived(s: System, i: Identity) {
    i in s.ledger.terminated && Owner(i) in s.world.live && IsRegisteredAs(s.registry, i)
  }

  ghost predicate NeverRevived(l: Limits, i: Identity) {
    forall steps :: Legal(l, START, steps) ==> !Revived(Reached(l, START, steps), i)
  }

  /**
   Over every run, with requests late, repeated and reordered at will: once the unregister of an identity without
   NUL has been accepted, the identity is not registered in any state where its process is still alive, it is
   never registered while its tombstone stands, and the tombstones stay within their limit.
   */
  lemma TerminatedStaysOut(l: Limits, steps: seq<Step>, i: Identity)
    requires WellFormed(i) && NulFree(i.name) && NulFree(i.id) && Legal(l, START, steps)
    ensures var s := Reached(l, START, steps);
            && !Revived(s, i)
            && !(IdentityKey(i) in s.registry.tombstones && IsRegisteredAs(s.registry, i))
            && |s.registry.tombstones| <= l.maxTombstones
  {
    PlainIdentitiesAreSafe(i);
    RunKeepsGuard(l, START, steps, i);
  }

  // ---------------------------------------------------------------- and exactly those stay out

  ghost predicate CanRevive(l: Limits, s: System, i: Identity) {
    exists steps :: Legal(l, s, steps) && Revived(Reached(l, s, steps), i)
  }

  lemma ReviveAfter(l: Limits, s: System, first: Step, i: Identity)
    requires Possible(l, s, first)
    requires Revived(Next(l, s, first), i) || CanRevive(l, Next(l, s, first), i)
    ensures CanRevive(l, s, i)
  {
    if Revived(Next(l, s, first), i) {
      assert Legal(l, Next(l, s, first), []);
    }
    var rest :| Legal(l, Next(l, s, first), rest) && Revived(Reached(l, Next(l, s, first), rest), i);
    assert ([first] + rest)[1..] == rest;
    assert Legal(l, s, [first] + rest);
  }

  /** At time zero: the processes of the identities run, and the registry holds what is given. */
  ghost function At(registered: map<string, Record>, tombstones: set<string>, live: set<Process>,
                    admitted: multiset<Admission>, terminated: set<Identity>, entered: nat, left: nat): System {
    System(Registry(registered, tombstones, []), World(live, live, 0), admitted,
           Ledger([], [], terminated, entered, left))
  }

  ghost function Own(i: Identity): map<string, Record> {
    map[i.name := Record(i.name, i, 0)]
  }

  /** While every record is fresh and alive, a step at time zero prunes no record. */
  lemma NothingLeaves(l: Limits, s: System, i: Identity)
    requires l.lease > 0 && Owner(i) in s.world.live && s.registry.registered in {map[], Own(i)}
    ensures Leaving(l, s.registry, s.world.live, 0) == {} && Enumerates([], Leaving(l, s.registry, s.world.live, 0))
    ensures Pruned(l, s.registry, s.world.live, 0, [])
            == s.registry.(tombstones := Standing(s.world.live, s.registry.tombstones, {}))
    ensures NewEvents(l, s.registry, s.world.live, 0, []) == []
  {
  }

  lemma ReviveAfterStart(l: Limits, p: Process, live: set<Process>, i: Identity)
    requires p !in live && (forall q :: q in live ==> q.pid != p.pid)
    requires CanRevive(l, At(map[], {}, live + {p}, multiset{}, {}, 0, 0), i)
    ensures CanRevive(l, At(map[], {}, live, multiset{}, {}, 0, 0), i)
  {
    ReviveAfter(l, At(map[], {}, live, multiset{}, {}, 0, 0), Step.Start(p), i);
  }

  lemma ReviveAfterAdmission(l: Limits, i: Identity, live: set<Process>, admitted: multiset<Admission>)
    requires WellFormed(i) && Owner(i) in live
    requires CanRevive(l, At(map[], {}, live, admitted + multiset{Admission(i, "", 0)}, {}, 0, 0), i)
    ensures CanRevive(l, At(map[], {}, live, admitted, {}, 0, 0), i)
  {
    ReviveAfter(l, At(map[], {}, live, admitted, {}, 0, 0), Admit(i, ""), i);
  }

  lemma ReviveAfterRegister(l: Limits, i: Identity, live: set<Process>, others: multiset<Admission>)
    requires WellFormed(i) && Owner(i) in live && l.lease > 0 && l.maxTombstones > 0
    requires CanRevive(l, At(Own(i), {}, live, others, {}, 1, 0), i)
    ensures CanRevive(l, At(map[], {}, live, others + multiset{Admission(i, "", 0)}, {}, 0, 0), i)
  {
    var s := At(map[], {}, live, others + multiset{Admission(i, "", 0)}, {}, 0, 0);
    NothingLeaves(l, s, i);
    assert s.admitted - multiset{Admission(i, "", 0)} == others;
    assert Next(l, s, Register(Admission(i, "", 0), [])) == At(Own(i), {}, live, others, {}, 1, 0);
    ReviveAfter(l, s, Register(Admission(i, "", 0), []), i);
  }

  lemma ReviveAfterUnregister(l: Limits, i: Identity, late: multiset<Admission>)
    requires WellFormed(i) && l.lease > 0 && l.maxTombstones > 0
    requires CanRevive(l, At(map[], {IdentityKey(i)}, {Owner(i)}, late, {i}, 1, 1), i)
    ensures CanRevive(l, At(Own(i), {}, {Owner(i)}, late, {}, 1, 0), i)
  {
    var s := At(Own(i), {}, {Owner(i)}, late, {}, 1, 0);
    NothingLeaves(l, s, i);
    assert Own(i) - {i.name} == map[];
    assert Next(l, s, Unregister(i, 0, [])) == At(map[], {IdentityKey(i)}, {Owner(i)}, late, {i}, 1, 1);
    ReviveAfter(l, s, Unregister(i, 0, []), i);
  }

  lemma LateRegisterRevives(l: Limits, i: Identity)
    requires WellFormed(i) && !Recoverable(i) && l.lease > 0 && l.maxTombstones > 0
    ensures CanRevive(l, At(map[], {IdentityKey(i)}, {Owner(i)}, multiset{Admission(i, "", 0)}, {i}, 1, 1), i)
  {
    var s := At(map[], {IdentityKey(i)}, {Owner(i)}, multiset{Admission(i, "", 0)}, {i}, 1, 1);
    NothingLeaves(l, s, i);
    assert !Stands({Owner(i)}, IdentityKey(i));
    ReviveAfter(l, s, Register(Admission(i, "", 0), []), i);
  }

  /** A late second request of a client whose key does not lead back to its process registers it again. */
  lemma UnrecoverableIsRevived(l: Limits, i: Identity)
    requires WellFormed(i) && !Recoverable(i) && l.lease > 0 && l.maxTombstones > 0
    ensures CanRevive(l, START, i)
  {
    var late := multiset{Admission(i, "", 0)};
    LateRegisterRevives(l, i);
    ReviveAfterUnregister(l, i, late);
    ReviveAfterRegister(l, i, {Owner(i)}, late);
    ReviveAfterAdmission(l, i, {Owner(i)}, late);
    assert multiset{} + late == late;
    ReviveAfterAdmission(l, i, {Owner(i)}, multiset{});
    assert {} + {Owner(i)} == {Owner(i)};
    ReviveAfterStart(l, Owner(i), {}, i);
  }

  lemma ForeignTombstone(l: Limits, i: Identity, j: Identity, live: set<Process>)
    requires WellFormed(j) && i != j && i.pid >= 0 && IdentityKey(i) == IdentityKey(j) && Owner(j) in live
    requires l.maxTombstones > 0
    ensures AfterUnregister(l, Registry(Own(i), {}, []), live, j) == (Registry(Own(i), {IdentityKey(i)}, []), TombstonedOnly)
  {
  }

  lemma ReviveAfterForeignUnregister(l: Limits, i: Identity, j: Identity)
    requires WellFormed(i) && WellFormed(j) && i != j && IdentityKey(i) == IdentityKey(j)
    requires l.lease > 0 && l.maxTombstones > 0
    requires CanRevive(l, At(Own(i), {IdentityKey(i)}, {Owner(i), Owner(j)}, multiset{}, {j}, 1, 0), i)
    ensures CanRevive(l, At(Own(i), {}, {Owner(i), Owner(j)}, multiset{}, {}, 1, 0), i)
  {
    var s := At(Own(i), {}, {Owner(i), Owner(j)}, multiset{}, {}, 1, 0);
    NothingLeaves(l, s, i);
    ForeignTombstone(l, i, j, s.world.live);
    assert Standing(s.world.live, {}, {}) == {};
    assert Next(l, s, Unregister(j, 0, [])) == At(Own(i), {IdentityKey(i)}, s.world.live, multiset{}, {j}, 1, 0);
    ReviveAfter(l, s, Unregister(j, 0, []), i);
  }

  lemma DeafUnregisterRevives(l: Limits, i: Identity, j: Identity)
    requires WellFormed(i) && Recoverable(i) && l.lease > 0 && l.maxTombstones > 0
    ensures CanRevive(l, At(Own(i), {IdentityKey(i)}, {Owner(i), Owner(j)}, multiset{}, {j}, 1, 0), i)
  {
    var s := At(Own(i), {IdentityKey(i)}, {Owner(i), Owner(j)}, multiset{}, {j}, 1, 0);
    NothingLeaves(l, s, i);
    assert Stands(s.world.live, IdentityKey(i));
    ReviveAfter(l, s, Unregister(i, 0, []), i);
  }

  /** When an identity that can live beside it has the same key, its unregister makes that of the owner do nothing. */
  lemma SharedKeyIsRevived(l: Limits, i: Identity, j: Identity)
    requires WellFormed(i) && WellFormed(j) && i != j && IdentityKey(i) == IdentityKey(j)
    requires i.pid != j.pid || i.start == j.start
    requires Recoverable(i) && l.lease > 0 && l.maxTombstones > 0
    ensures CanRevive(l, START, i)
  {
    var live := {Owner(i), Owner(j)};
    DeafUnregisterRevives(l, i, j);
    ReviveAfterForeignUnregister(l, i, j);
    ReviveAfterRegister(l, i, live, multiset{});
    ReviveAfterAdmission(l, i, live, multiset{});
    if Owner(i) != Owner(j) {
      assert {Owner(i)} + {Owner(j)} == live;
      ReviveAfterStart(l, Owner(j), {Owner(i)}, i);
    } else {
      assert live == {Owner(i)};
    }
    assert {} + {Owner(i)} == {Owner(i)};
    ReviveAfterStart(l, Owner(i), {}, i);
  }

  /** A registry without room for tombstones accepts nothing at all. */
  ghost predicate Untouched(s: System) {
    s.registry.registered == map[] && s.registry.tombstones == {} && s.ledger.terminated == {}
  }

  lemma {:induction false} NoRoomNoEntry(l: Limits, s: System, steps: seq<Step>)
    requires l.maxTombstones == 0 && Untouched(s) && Legal(l, s, steps)
    ensures Untouched(Reached(l, s, steps))
    decreases |steps|
  {
    if steps != [] {
      NoRoomNoEntry(l, Next(l, s, steps[0]), steps[1..]);
    }
  }

  /**
   The registry keeps a terminated identity out in every run exactly when its key leads back to its process and
   no identity that could live beside it has the same key, or when there is no room for any tombstone. The
   constructor never leaves a lease that is not positive.
   */
  lemma ExactlyRecoverableDistinctStayOut(l: Limits, i: Identity)
    requires WellFormed(i) && l.lease > 0
    ensures NeverRevived(l, i) <==> (Recoverable(i) && Distinct(i)) || l.maxTombstones == 0
  {
    if l.maxTombstones == 0 {
      forall steps | Legal(l, START, steps)
        ensures !Revived(Reached(l, START, steps), i)
      {
        NoRoomNoEntry(l, START, steps);
      }
    } else if !Recoverable(i) {
      UnrecoverableIsRevived(l, i);
    } else if !Distinct(i) {
      var j :| WellFormed(j) && IdentityKey(j) == IdentityKey(i) && j != i && (j.pid != i.pid || j.start == i.start);
      SharedKeyIsRevived(l, i, j);
    } else {
      forall steps | Legal(l, START, steps)
        ensures !Revived(Reached(l, START, steps), i)
      {
        RunKeepsGuard(l, START, steps, i);
      }
    }
  }

  /** Both conditions fail for some identities: a NUL in the name hides the process of any of them. */
  lemma NulInNameIsRevived(l: Limits, pid: Pid, start: Ticks, id: string)
    requires pid > 0 && start > 0 && id != [] && l.lease > 0 && l.maxTombstones > 0
    ensures !NeverRevived(l, Identity("a\0b", pid, start, id))
  {
    NulInNameHidesTheProcess(pid, start, id);
    ExactlyRecoverableDistinctStayOut(l, Identity("a\0b", pid, start, id));
  }
}
