/** The drop-oldest queue between two threads; every operation is one locked region. */
module BoundedQueues {
  import opened Prelude

  datatype Queue<+T> = Queue(items: seq<T>, closed: bool)

  /** A closed queue hands the value straight back; a full one gives up its oldest item. */
  function Pushed<T>(q: Queue<T>, capacity: nat, value: T): (Queue<T>, Option<T>)
    requires capacity > 0
  {
    if q.closed then (q, Some(value))
    else if |q.items| >= capacity then (q.(items := q.items[1..] + [value]), Some(q.items[0]))
    else (q.(items := q.items + [value]), None)
  }

  /** A waiter proceeds once there is an item, or once nothing more will come. */
  predicate Ready<T>(q: Queue<T>) {
    q.closed || q.items != []
  }

  function Popped<T>(q: Queue<T>): (Queue<T>, Option<T>)
    requires Ready(q)
  {
    if q.items == [] then (q, None) else (q.(items := q.items[1..]), Some(q.items[0]))
  }

  class BoundedQueue<T> {
    const capacity: nat
    var queue: seq<T>
    var closed: bool

    function State(): Queue<T>
      reads this
    {
      Queue(queue, closed)
    }

    constructor (capacity: nat)
      requires capacity > 0
      ensures this.capacity == capacity && State() == Queue([], false)
    {
      this.capacity := capacity;
      queue, closed := [], false;
    }

    method Push(value: T) returns (dropped: Option<T>)
      requires capacity > 0
      modifies this
      ensures (State(), dropped) == Pushed(old(State()), capacity, value)
    {
      if closed {
        return Some(value);
      }
      dropped := None;
      if |queue| >= capacity {
        dropped := Some(queue[0]);
        queue := queue[1..];
      }
      queue := queue + [value];
    }

    /** The locked region after the wait. */
    method WaitAndPop() returns (value: Option<T>)
      requires Ready(State())
      modifies this
      ensures (State(), value) == Popped(old(State()))
    {
      if queue == [] {
        return None;
      }
      value := Some(queue[0]);
      queue := queue[1..];
    }

    method Close()
      modifies this
      ensures State() == old(State()).(closed := true)
    {
      closed := true;
    }
  }

  // ---------------------------------------------------------------- runs of one queue

  datatype Operation<+T> = Push(value: T) | Pop | Close

  ghost function AfterOps<T>(capacity: nat, ops: seq<Operation<T>>): Queue<T>
    requires capacity > 0
  {
    if ops == [] then Queue([], false)
    else
      var q := AfterOps(capacity, ops[..|ops| - 1]);
      match ops[|ops| - 1]
      case Push(v) => Pushed(q, capacity, v).0
      case Pop => if Ready(q) then Popped(q).0 else q
      case Close => q.(closed := true)
  }

  /** The values pushed before the queue was closed. */
  ghost function AcceptedPushes<T>(ops: seq<Operation<T>>): seq<T> {
    if ops == [] then []
    else
      var before := AcceptedPushes(ops[..|ops| - 1]);
      if ops[|ops| - 1].Push? && Close !in ops[..|ops| - 1] then before + [ops[|ops| - 1].value] else before
  }

  ghost predicate IsNewestOf<T>(items: seq<T>, accepted: seq<T>) {
    |items| <= |accepted| && items == accepted[|accepted| - |items|..]
  }

  lemma PushKeepsNewest<T>(q: Queue<T>, capacity: nat, value: T, accepted: seq<T>)
    requires capacity > 0 && !q.closed && |q.items| <= capacity && IsNewestOf(q.items, accepted)
    ensures var q' := Pushed(q, capacity, value).0;
            |q'.items| <= capacity && IsNewestOf(q'.items, accepted + [value])
  {
    var kept := if |q.items| >= capacity then q.items[1..] else q.items;
    assert kept == accepted[|accepted| - |kept|..];
    assert (accepted + [value])[|accepted| - |kept|..] == kept + [value];
  }

  /** The queue holds the newest of what it accepted, in order, and never more than its capacity. */
  lemma {:induction false} HoldsNewest<T>(capacity: nat, ops: seq<Operation<T>>)
    requires capacity > 0
    ensures var q, accepted := AfterOps(capacity, ops), AcceptedPushes(ops);
            && |q.items| <= capacity && IsNewestOf(q.items, accepted)
            && (q.closed <==> Close in ops)
  {
    if ops != [] {
      var before := ops[..|ops| - 1];
      assert ops == before + [ops[|ops| - 1]];
      HoldsNewest(capacity, before);
      var q, last := AfterOps(capacity, before), ops[|ops| - 1];
      if last.Push? && !q.closed {
        PushKeepsNewest(q, capacity, last.value, AcceptedPushes(before));
      }
    }
  }

  ghost function OptionToSeq<T>(o: Option<T>): seq<T> {
    if o.Some? then [o.value] else []
  }

  /** The values that have left the open or closed queue, popped or displaced, in the order of their leaving. */
  ghost function LeftInOrder<T>(capacity: nat, ops: seq<Operation<T>>): seq<T>
    requires capacity > 0
  {
    if ops == [] then []
    else
      var before, q := LeftInOrder(capacity, ops[..|ops| - 1]), AfterOps(capacity, ops[..|ops| - 1]);
      match ops[|ops| - 1]
      case Push(v) => if q.closed then before else before + OptionToSeq(Pushed(q, capacity, v).1)
      case Pop => if Ready(q) then before + OptionToSeq(Popped(q).1) else before
      case Close => before
  }

  lemma LeavingStep<T>(capacity: nat, q: Queue<T>, left: seq<T>, op: Operation<T>)
    requires capacity > 0
    ensures op.Push? && !q.closed ==>
              var (q', dropped) := Pushed(q, capacity, op.value);
              && (left + OptionToSeq(dropped)) + q'.items == (left + q.items) + [op.value]
              && (dropped.Some? <==> |q.items| >= capacity)
    ensures op.Pop? && Ready(q) ==>
              var (q', popped) := Popped(q);
              (left + OptionToSeq(popped)) + q'.items == left + q.items && (popped.None? <==> q.items == [])
  {
    if q.items != [] {
      assert q.items == [q.items[0]] + q.items[1..];
    }
  }

  /** First in, first out, each value once: what has left and what is still held make up what was accepted. */
  lemma {:induction false} LeavesInOrder<T>(capacity: nat, ops: seq<Operation<T>>)
    requires capacity > 0
    ensures LeftInOrder(capacity, ops) + AfterOps(capacity, ops).items == AcceptedPushes(ops)
  {
    if ops != [] {
      var before, last := ops[..|ops| - 1], ops[|ops| - 1];
      LeavesInOrder(capacity, before);
      HoldsNewest(capacity, before);
      LeavingStep(capacity, AfterOps(capacity, before), LeftInOrder(capacity, before), last);
    }
  }

  /** An open queue with room keeps everything it holds when a value is pushed. */
  lemma RoomDisplacesNothing<T>(capacity: nat, ops: seq<Operation<T>>, value: T)
    requires capacity > 0 && Close !in ops && |AfterOps(capacity, ops).items| < capacity
    ensures AfterOps(capacity, ops + [Push(value)]).items == AfterOps(capacity, ops).items + [value]
  {
    var longer := ops + [Push(value)];
    assert longer[..|longer| - 1] == ops;
    HoldsNewest(capacity, ops);
  }
}
