/**
 The registry of live nodes: one owner per node name under a lease, and a table of terminated identities that
 keeps late renewals out. Each public operation is one region under the lock; it prunes first.
 */
module ProcessMonitor {
  import opened Prelude
  import opened ProcText

  datatype Record = Record(processName: string, owner: Identity, lastRegistration: int)

  datatype Cause = ProcessExit | LeaseExpired

  datatype Event = Event(cause: Cause, name: string, pid: Pid)

  datatype Registry = Registry(registered: map<string, Record>, tombstones: set<string>, events: seq<Event>)

  const EMPTY := Registry(map[], {}, [])

  datatype Limits = Limits(lease: int, maxTombstones: nat)

  datatype Reply =
    | InvalidIdentity
    | NotLive
    | AlreadyTerminated
    | Refreshed
    | OwnedByOther
    | TableFull
    | Registered
    | Unregistered
    | TombstonedOnly

  // ---------------------------------------------------------------- liveness

  /** What ReadProcSnapshot finds for every process that has a readable stat line. */
  type Proc = map<Pid, Snapshot>

  predicate Running(s: Snapshot) {
    s.state != 'Z' && s.state != 'X'
  }

  function Live(proc: Proc): set<Process> {
    set pid <- proc | pid > 0 && Running(proc[pid]) :: Process(pid, proc[pid].start)
  }

  function ReadAll(statLines: map<Pid, string>): Proc {
    map pid <- statLines | ParsedStat(statLines[pid]).Some? :: ParsedStat(statLines[pid]).value
  }

  /**
   The start time a client reads from its own stat line makes an identity that the monitor finds alive, whatever
   the command name in that line; a zombie or dead process is not alive under any start time.
   */
  lemma ClientIdentityIsLive(statLines: map<Pid, string>, pid: Pid, comm: string, fields: seq<string>,
                             state: char, user: Ticks, system: Ticks, start: Ticks)
    requires pid > 0 && pid in statLines && statLines[pid] == StatLine(pid, comm, fields)
    requires StatFields(fields, state, user, system, start) && start > 0
    ensures OwnStart(statLines[pid]) == Some(start)
    ensures forall t: Ticks :: Process(pid, t) in Live(ReadAll(statLines)) <==> t == start && state != 'Z' && state != 'X'
  {
    StatRoundTrip(pid, comm, fields, state, user, system, start);
    assert pid in ReadAll(statLines) && ReadAll(statLines)[pid].start == start;
  }

  method IsLiveIdentity(proc: Proc, pid: Pid, start: Ticks) returns (live: bool)
    ensures live == (Process(pid, start) in Live(proc))
  {
    return pid > 0 && pid in proc && Running(proc[pid]) && proc[pid].start == start;
  }

  // ---------------------------------------------------------------- pruning

  predicate Keeps(l: Limits, live: set<Process>, now: int, r: Record) {
    Owner(r.owner) in live && now - r.lastRegistration <= l.lease
  }

  predicate Stands(live: set<Process>, key: string) {
    KeyProcess(key).Some? && KeyProcess(key).value in live
  }

  /** The tombstones while pruning has yet to visit some of the keys. */
  ghost function Standing(live: set<Process>, tombstones: set<string>, unvisited: set<string>): set<string> {
    set key <- tombstones | key in unvisited || Stands(live, key)
  }

  lemma StandingStart(live: set<Process>, tombstones: set<string>)
    ensures Standing(live, tombstones, tombstones) == tombstones
  {
  }

  lemma StandingStep(live: set<Process>, tombstones: set<string>, unvisited: set<string>, key: string)
    requires key in unvisited
    ensures Standing(live, tombstones, unvisited - {key})
            == Standing(live, tombstones, unvisited) - if Stands(live, key) then {} else {key}
  {
  }

  function Leaving(l: Limits, g: Registry, live: set<Process>, now: int): set<string> {
    set name <- g.registered | !Keeps(l, live, now, g.registered[name])
  }

  function NoticeOf(r: Record, live: set<Process>, name: string): Event {
    Event(if Owner(r.owner) in live then LeaseExpired else ProcessExit, name, r.owner.pid)
  }

  function Notice(g: Registry, live: set<Process>, name: string): Event
    requires name in g.registered
  {
    NoticeOf(g.registered[name], live, name)
  }

  /** The table is unordered, so its records are visited in some order that names each leaving record once. */
  ghost predicate Enumerates(order: seq<string>, names: set<string>) {
    && (forall i, j :: 0 <= i < j < |order| ==> order[i] != order[j])
    && (forall name :: name in names <==> name in order)
  }

  ghost function Notices(g: Registry, live: set<Process>, order: seq<string>): (events: seq<Event>)
    requires forall name :: name in order ==> name in g.registered
    ensures |events| == |order|
    ensures forall k :: 0 <= k < |order| ==> events[k] == Notice(g, live, order[k])
  {
    if order == [] then []
    else Notices(g, live, order[..|order| - 1]) + [Notice(g, live, order[|order| - 1])]
  }

  ghost function Pruned(l: Limits, g: Registry, live: set<Process>, now: int, order: seq<string>): Registry
    requires Enumerates(order, Leaving(l, g, live, now))
  {
    var kept := map name <- g.registered | Keeps(l, live, now, g.registered[name]) :: g.registered[name];
    Registry(kept, Standing(live, g.tombstones, {}), g.events + Notices(g, live, order))
  }

  /** Pruning has visited the records in some order and has yet to visit some of the names. */
  ghost predicate Visited(l: Limits, g: Registry, live: set<Process>, now: int,
                          order: seq<string>, unvisited: set<string>, registered: map<string, Record>, events: seq<Event>) {
    && registered == (map name <- g.registered
                        | name in unvisited || Keeps(l, live, now, g.registered[name]) :: g.registered[name])
    && Enumerates(order, Leaving(l, g, live, now) - unvisited)
    && events == g.events + Notices(g, live, order)
  }

  lemma VisitStart(l: Limits, g: Registry, live: set<Process>, now: int)
    ensures Visited(l, g, live, now, [], g.registered.Keys, g.registered, g.events)
  {
  }

  lemma VisitStep(l: Limits, g: Registry, live: set<Process>, now: int, order: seq<string>, unvisited: set<string>,
                  registered: map<string, Record>, events: seq<Event>, name: string)
    requires Visited(l, g, live, now, order, unvisited, registered, events)
    requires name in unvisited && unvisited <= g.registered.Keys
    ensures name in registered && registered[name] == g.registered[name]
    ensures if Keeps(l, live, now, g.registered[name])
            then Visited(l, g, live, now, order, unvisited - {name}, registered, events)
            else Visited(l, g, live, now, order + [name], unvisited - {name}, registered - {name},
                         events + [Notice(g, live, name)])
  {
    if !Keeps(l, live, now, g.registered[name]) {
      assert (order + [name])[..|order|] == order;
      assert forall other :: other in order + [name] <==> other in order || other == name;
    }
  }

  lemma VisitEnd(l: Limits, g: Registry, live: set<Process>, now: int, order: seq<string>,
                 registered: map<string, Record>, events: seq<Event>)
    requires Visited(l, g, live, now, order, {}, registered, events)
    ensures Enumerates(order, Leaving(l, g, live, now))
    ensures registered == Pruned(l, g, live, now, order).registered
    ensures events == Pruned(l, g, live, now, order).events
  {
    assert Leaving(l, g, live, now) - {} == Leaving(l, g, live, now);
  }

  // ---------------------------------------------------------------- the operations after pruning

  function AfterRegister(l: Limits, g: Registry, i: Identity, processName: string, now: int): (Registry, Reply)
    requires WellFormed(i)
  {
    if IdentityKey(i) in g.tombstones then (g, AlreadyTerminated)
    else if i.name in g.registered then
      var r := g.registered[i.name];
      if r.owner == i.(name := r.owner.name) then
        var renewed := r.(lastRegistration := now, processName := if processName == "" then r.processName else processName);
        (g.(registered := g.registered[i.name := renewed]), Refreshed)
      else (g, OwnedByOther)
    else if |g.tombstones| >= l.maxTombstones then (g, TableFull)
    else
      var r := Record(if processName == "" then i.name else processName, i, now);
      (g.(registered := g.registered[i.name := r]), Registered)
  }

  function AfterUnregister(l: Limits, g: Registry, live: set<Process>, i: Identity): (Registry, Reply)
    requires WellFormed(i)
  {
    if IdentityKey(i) in g.tombstones then (g, AlreadyTerminated)
    else if Owner(i) !in live then (g, NotLive)
    else if |g.tombstones| >= l.maxTombstones then (g, TableFull)
    else
      var marked := g.(tombstones := g.tombstones + {IdentityKey(i)});
      if i.name in g.registered && g.registered[i.name].owner == i.(name := g.registered[i.name].owner.name)
      then (marked.(registered := g.registered - {i.name}), Unregistered)
      else (marked, TombstonedOnly)
  }

  predicate Unregisters(reply: Reply) {
    reply.AlreadyTerminated? || reply.Unregistered? || reply.TombstonedOnly?
  }

  /** Records are filed under the name of their owner, whose identity was checked when it came in. */
  predicate Valid(l: Limits, g: Registry) {
    && (forall name :: name in g.registered ==>
          g.registered[name].owner.name == name && WellFormed(g.registered[name].owner))
    && |g.tombstones| <= l.maxTombstones
  }

  lemma SubsetIsSmaller<T>(a: set<T>, b: set<T>)
    requires a <= b
    ensures |a| <= |b|
  {
    if a != {} {
      var x :| x in a;
      SubsetIsSmaller(a - {x}, b - {x});
    }
  }

  lemma PruneKeepsValid(l: Limits, g: Registry, live: set<Process>, now: int, order: seq<string>)
    requires Valid(l, g) && Enumerates(order, Leaving(l, g, live, now))
    ensures Valid(l, Pruned(l, g, live, now, order))
  {
    SubsetIsSmaller(Pruned(l, g, live, now, order).tombstones, g.tombstones);
  }

  /** The k-th new event reports that the record of this name left, and names the cause that applied. */
  ghost predicate ReportedAt(l: Limits, g: Registry, live: set<Process>, now: int, added: seq<Event>, name: string, k: int) {
    && 0 <= k < |added| && name in g.registered
    && added[k].name == name && added[k].pid == g.registered[name].owner.pid
    && (added[k].cause.ProcessExit? <==> Owner(g.registered[name].owner) !in live)
    && (added[k].cause.LeaseExpired? ==> now - g.registered[name].lastRegistration > l.lease)
    && forall j :: 0 <= j < |added| && added[j].name == name ==> j == k
  }

  ghost function NewEvents(l: Limits, g: Registry, live: set<Process>, now: int, order: seq<string>): seq<Event>
    requires Enumerates(order, Leaving(l, g, live, now))
  {
    Pruned(l, g, live, now, order).events[|g.events|..]
  }

  /** A prune leaves exactly the records whose process lives and whose lease has not run out, each as it was. */
  lemma PruneLeavesLiveRecords(l: Limits, g: Registry, live: set<Process>, now: int, order: seq<string>, name: string)
    requires Enumerates(order, Leaving(l, g, live, now))
    ensures var kept := Pruned(l, g, live, now, order).registered;
            && (name in kept <==>
                  && name in g.registered
                  && Owner(g.registered[name].owner) in live && now - g.registered[name].lastRegistration <= l.lease)
            && (name in kept ==> kept[name] == g.registered[name])
  {
  }

  /** A prune leaves exactly the tombstones whose key leads to a living process. */
  lemma PruneLeavesLiveTombstones(l: Limits, g: Registry, live: set<Process>, now: int, order: seq<string>)
    requires Enumerates(order, Leaving(l, g, live, now))
    ensures Pruned(l, g, live, now, order).tombstones
            == set key <- g.tombstones | KeyProcess(key).Some? && KeyProcess(key).value in live
  {
  }

  /** Every record that leaves in a prune is reported by exactly one event, with the cause that applied. */
  lemma LeavingIsReportedOnce(l: Limits, g: Registry, live: set<Process>, now: int, order: seq<string>, name: string)
    requires Enumerates(order, Leaving(l, g, live, now))
    requires name in g.registered && name !in Pruned(l, g, live, now, order).registered
    ensures exists k :: ReportedAt(l, g, live, now, NewEvents(l, g, live, now, order), name, k)
  {
    var added := NewEvents(l, g, live, now, order);
    assert added == Notices(g, live, order);
    assert name in Leaving(l, g, live, now);
    var k :| 0 <= k < |order| && order[k] == name;
    assert added[k] == Notice(g, live, order[k]);
    assert ReportedAt(l, g, live, now, added, name, k);
  }

  /** Every new event of a prune is about a record that left in it. */
  lemma EventsAreAboutTheLeaving(l: Limits, g: Registry, live: set<Process>, now: int, order: seq<string>, k: nat)
    requires Enumerates(order, Leaving(l, g, live, now)) && k < |NewEvents(l, g, live, now, order)|
    ensures var name := NewEvents(l, g, live, now, order)[k].name;
            name in g.registered && name !in Pruned(l, g, live, now, order).registered
  {
    assert NewEvents(l, g, live, now, order) == Notices(g, live, order);
    assert order[k] in Leaving(l, g, live, now);
  }

  // ---------------------------------------------------------------- the object

  class ProcessMonitor {
    const limits: Limits
    var registered: map<string, Record>
    var tombstones: set<string>
    var cleanupEvents: seq<Event>

    function State(): Registry
      reads this
    {
      Registry(registered, tombstones, cleanupEvents)
    }

    /** A lease that is not positive is replaced by ten seconds. */
    constructor (lease: int, maxTombstones: nat)
      ensures State() == EMPTY
      ensures limits == Limits(if lease > 0 then lease else 10, maxTombstones) && Valid(limits, State())
    {
      limits := Limits(if lease > 0 then lease else 10, maxTombstones);
      registered, tombstones, cleanupEvents := map[], {}, [];
    }

    /** The exit of the process is looked at before the lease, so a record that fails both is reported as an exit. */
    method PruneRecord(name: string, now: int, proc: Proc) returns (leaves: bool)
      requires name in registered
      modifies this`registered, this`cleanupEvents
      ensures leaves == !Keeps(limits, Live(proc), now, old(registered)[name])
      ensures registered == if leaves then old(registered) - {name} else old(registered)
      ensures cleanupEvents
              == old(cleanupEvents) + if leaves then [NoticeOf(old(registered)[name], Live(proc), name)] else []
    {
      var record := registered[name];
      var alive := IsLiveIdentity(proc, record.owner.pid, record.owner.start);
      if !alive {
        cleanupEvents := cleanupEvents + [Event(ProcessExit, name, record.owner.pid)];
        registered := registered - {name};
        return true;
      }
      if now - record.lastRegistration > limits.lease {
        cleanupEvents := cleanupEvents + [Event(LeaseExpired, name, record.owner.pid)];
        registered := registered - {name};
        return true;
      }
      return false;
    }

    method PruneRecords(now: int, proc: Proc) returns (ghost order: seq<string>)
      modifies this`registered, this`cleanupEvents
      ensures Enumerates(order, Leaving(limits, old(State()), Live(proc), now))
      ensures registered == Pruned(limits, old(State()), Live(proc), now, order).registered
      ensures cleanupEvents == Pruned(limits, old(State()), Live(proc), now, order).events
    {
      ghost var g, live := State(), Live(proc);
      order := [];
      var names := registered.Keys;
      VisitStart(limits, g, live, now);
      while names != {}
        invariant names <= g.registered.Keys
        invariant Visited(limits, g, live, now, order, names, registered, cleanupEvents)
        decreases names
      {
        var name :| name in names;
        VisitStep(limits, g, live, now, order, names, registered, cleanupEvents, name);
        var leaves := PruneRecord(name, now, proc);
        if leaves {
          order := order + [name];
        }
        names := names - {name};
      }
      VisitEnd(limits, g, live, now, order, registered, cleanupEvents);
    }

    /** A key that leads to no process stands for nothing that could still be alive. */
    static method StillStands(key: string, proc: Proc) returns (stands: bool)
      ensures stands == Stands(Live(proc), key)
    {
      var parsed := KeyProcess(key);
      if parsed.None? {
        return false;
      }
      stands := IsLiveIdentity(proc, parsed.value.pid, parsed.value.start);
    }

    method PruneTombstones(proc: Proc)
      modifies this`tombstones
      ensures tombstones == Standing(Live(proc), old(tombstones), {})
    {
      ghost var before, live := tombstones, Live(proc);
      var keys := tombstones;
      StandingStart(live, before);
      while keys != {}
        invariant keys <= before
        invariant tombstones == Standing(live, before, keys)
        decreases keys
      {
        var key :| key in keys;
        var stands := StillStands(key, proc);
        StandingStep(live, before, keys, key);
        if !stands {
          tombstones := tombstones - {key};
        }
        keys := keys - {key};
      }
    }

    method Prune(now: int, proc: Proc) returns (ghost order: seq<string>)
      requires Valid(limits, State())
      modifies this
      ensures Valid(limits, State())
      ensures Enumerates(order, Leaving(limits, old(State()), Live(proc), now))
      ensures State() == Pruned(limits, old(State()), Live(proc), now, order)
    {
      ghost var g := State();
      order := PruneRecords(now, proc);
      PruneTombstones(proc);
      PruneKeepsValid(limits, g, Live(proc), now, order);
    }

    /** What RegisterNode does under the lock; `now` and the liveness check come from before the lock was taken. */
    method RegisterChecked(i: Identity, processName: string, now: int, proc: Proc)
      returns (reply: Reply, ghost order: seq<string>)
      requires Valid(limits, State()) && WellFormed(i)
      modifies this
      ensures Valid(limits, State())
      ensures Enumerates(order, Leaving(limits, old(State()), Live(proc), now))
      ensures (State(), reply)
              == AfterRegister(limits, Pruned(limits, old(State()), Live(proc), now, order), i, processName, now)
      ensures reply.Registered? || reply.Refreshed? ==>
                i.name in registered && registered[i.name].owner == i && registered[i.name].lastRegistration == now
      ensures reply.Refreshed? ==> i.name in old(registered) && old(registered)[i.name].owner == i
      ensures reply.Registered? ==> i.name !in old(registered) || i.name in Leaving(limits, old(State()), Live(proc), now)
      ensures reply.AlreadyTerminated? <==> IdentityKey(i) in tombstones
      ensures reply.OwnedByOther? ==> i.name in registered && registered[i.name].owner != i
      ensures reply.TableFull? ==> i.name !in registered && |tombstones| >= limits.maxTombstones
      ensures reply in {Registered, Refreshed, AlreadyTerminated, OwnedByOther, TableFull}
    {
      order := Prune(now, proc);
      reply := Enter(i, processName, now);
    }

    method Enter(i: Identity, processName: string, now: int) returns (reply: Reply)
      requires Valid(limits, State()) && WellFormed(i)
      modifies this`registered
      ensures Valid(limits, State())
      ensures (State(), reply) == AfterRegister(limits, old(State()), i, processName, now)
    {
      if IdentityKey(i) in tombstones {
        return AlreadyTerminated;
      }
      if i.name in registered {
        var record := registered[i.name];
        if record.owner.pid != i.pid || record.owner.start != i.start || record.owner.id != i.id {
          return OwnedByOther;
        }
        record := record.(lastRegistration := now);
        if processName != "" {
          record := record.(processName := processName);
        }
        registered := registered[i.name := record];
        return Refreshed;
      }
      if |tombstones| >= limits.maxTombstones {
        return TableFull;
      }
      registered := registered[i.name := Record(if processName == "" then i.name else processName, i, now)];
      return Registered;
    }

    /** The checks of RegisterNode that need no lock: on a refusal nothing under the lock happens. */
    method AdmitRegister(i: Identity, proc: Proc) returns (refusal: Option<Reply>)
      ensures refusal == if !WellFormed(i) then Some(InvalidIdentity)
                         else if Owner(i) !in Live(proc) then Some(NotLive) else None
    {
      if !WellFormed(i) {
        return Some(InvalidIdentity);
      }
      var live := IsLiveIdentity(proc, i.pid, i.start);
      return if live then None else Some(NotLive);
    }

    method UnregisterNode(i: Identity, now: int, proc: Proc) returns (reply: Reply, ghost order: seq<string>)
      requires Valid(limits, State())
      modifies this
      ensures Valid(limits, State())
      ensures !WellFormed(i) ==> reply == InvalidIdentity && State() == old(State())
      ensures WellFormed(i) ==>
                && Enumerates(order, Leaving(limits, old(State()), Live(proc), now))
                && (State(), reply)
                   == AfterUnregister(limits, Pruned(limits, old(State()), Live(proc), now, order), Live(proc), i)
      ensures reply.Unregistered? ==>
                && IdentityKey(i) in tombstones && i.name !in registered
                && i.name in old(registered) && old(registered)[i.name].owner == i
      ensures reply.TombstonedOnly? ==>
                IdentityKey(i) in tombstones && (i.name in registered ==> registered[i.name].owner != i)
      ensures reply.AlreadyTerminated? ==> IdentityKey(i) in tombstones
      ensures reply.NotLive? ==> WellFormed(i) && Owner(i) !in Live(proc) && IdentityKey(i) !in tombstones
      ensures reply.TableFull? ==> IdentityKey(i) !in tombstones && |tombstones| >= limits.maxTombstones
      ensures reply in {InvalidIdentity, Unregistered, TombstonedOnly, AlreadyTerminated, NotLive, TableFull}
    {
      order := [];
      if !WellFormed(i) {
        return InvalidIdentity, order;
      }
      order := Prune(now, proc);
      reply := Terminate(i, proc);
    }

    /** The tombstone is written before the record is taken out. */
    method Terminate(i: Identity, proc: Proc) returns (reply: Reply)
      requires Valid(limits, State()) && WellFormed(i)
      modifies this`registered, this`tombstones
      ensures Valid(limits, State())
      ensures (State(), reply) == AfterUnregister(limits, old(State()), Live(proc), i)
    {
      if IdentityKey(i) in tombstones {
        return AlreadyTerminated;
      }
      var live := IsLiveIdentity(proc, i.pid, i.start);
      if !live {
        return NotLive;
      }
      if |tombstones| >= limits.maxTombstones {
        return TableFull;
      }
      tombstones := tombstones + {IdentityKey(i)};
      if i.name in registered {
        var owner := registered[i.name].owner;
        if owner.pid == i.pid && owner.start == i.start && owner.id == i.id {
          registered := registered - {i.name};
          return Unregistered;
        }
      }
      return TombstonedOnly;
    }

    method IsRegistered(name: string, now: int, proc: Proc) returns (known: bool, ghost order: seq<string>)
      requires Valid(limits, State())
      modifies this
      ensures Valid(limits, State())
      ensures Enumerates(order, Leaving(limits, old(State()), Live(proc), now))
      ensures State() == Pruned(limits, old(State()), Live(proc), now, order)
      ensures known == (name in State().registered)
    {
      order := Prune(now, proc);
      return name in registered, order;
    }

    method TakeCleanupEvents() returns (events: seq<Event>)
      modifies this`cleanupEvents
      ensures events == old(cleanupEvents) && cleanupEvents == []
    {
      events, cleanupEvents := cleanupEvents, [];
    }
  }
}
