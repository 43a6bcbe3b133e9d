/**
 * The bounded ring behind every no_std channel and reply slot.
 *
 * `RingIndex` holds the wrap-around arithmetic, `RingBuffer` the object as one
 * thread sees it, and `RingSteps` the same code cut into its individual loads,
 * slot accesses and index stores, interleaved between any number of producers
 * (serialised by the channel's push lock) and one consumer.
 */
module RingIndex {
  /** The slot that the `i`-th message ever pushed occupies. */
  function Slot(i: nat, capacity: nat): (k: nat)
    requires capacity > 0
    ensures k < capacity
  {
    i % capacity
  }

  /** Two messages less than one lap apart never share a slot. */
  lemma SlotInjective(i: nat, j: nat, capacity: nat)
    requires capacity > 0
    requires i < j < i + capacity
    ensures Slot(i, capacity) != Slot(j, capacity)
  {
    var d := j / capacity - i / capacity;
    assert d * capacity == (j - j % capacity) - (i - i % capacity);
    MultipleBounds(d, capacity);
  }

  /** Advancing an index and wrapping it names the slot of the next message. */
  lemma SlotNext(i: nat, capacity: nat)
    requires capacity > 0
    ensures (Slot(i, capacity) + 1) % capacity == Slot(i + 1, capacity)
  {
    var q, r := i / capacity, i % capacity;
    assert i == q * capacity + r;
    if r + 1 < capacity {
      SlotUnique(i + 1, q, r + 1, capacity);
      SlotUnique(r + 1, 0, r + 1, capacity);
    } else {
      assert (q + 1) * capacity == q * capacity + capacity;
      SlotUnique(i + 1, q + 1, 0, capacity);
      SlotUnique(r + 1, 1, 0, capacity);
    }
  }

  /** A whole lap later the slot is the same. */
  lemma SlotLap(i: nat, capacity: nat)
    requires capacity > 0
    ensures Slot(i + capacity, capacity) == Slot(i, capacity)
  {
    var q, r := i / capacity, i % capacity;
    assert (q + 1) * capacity == q * capacity + capacity;
    SlotUnique(i + capacity, q + 1, r, capacity);
  }

  lemma SlotUnique(i: nat, q: nat, r: nat, capacity: nat)
    requires capacity > 0
    requires r < capacity
    requires i == q * capacity + r
    ensures Slot(i, capacity) == r
  {
    var d := i / capacity - q;
    assert d * capacity == r - i % capacity;
    MultipleBounds(d, capacity);
  }

  /** No non-zero multiple of `c` lies strictly between `-c` and `c`. */
  lemma MultipleBounds(d: int, c: int)
    requires c > 0
    ensures d >= 1 ==> d * c >= c
    ensures d <= -1 ==> d * c <= -c
  {
  }
}

module RingBuffer {
  import opened Wrappers
  import opened RingIndex

  /** A slot that holds `None` is uninitialised memory: reading it would be undefined. */
  class RingBuffer<T> {
    const capacity: nat
    const buffer: array<Option<T>>
    var head: nat
    var tail: nat
    ghost var pushed: seq<T>
    ghost var popped: nat

    ghost predicate Valid()
      reads this, buffer
    {
      && buffer.Length == capacity > 0
      && popped <= |pushed| < popped + capacity
      && head == Slot(|pushed|, capacity)
      && tail == Slot(popped, capacity)
      && (forall i {:trigger Slot(i, capacity)} :: popped <= i < |pushed| ==>
            buffer[Slot(i, capacity)] == Some(pushed[i]))
    }

    /** The queued items, oldest first. */
    ghost function Contents(): seq<T>
      requires Valid()
      reads this, buffer
    {
      pushed[popped..]
    }

    constructor (capacity: nat)
      ensures this.capacity == capacity && fresh(buffer)
      ensures capacity > 0 ==> Valid() && Contents() == []
    {
      this.capacity := capacity;
      buffer := new Option<T>[capacity](_ => None);
      head, tail := 0, 0;
      pushed, popped := [], 0;
    }

    method TryPush(item: T) returns (ok: bool)
      requires Valid()
      modifies this, buffer
      ensures Valid()
      ensures ok <==> |old(Contents())| < capacity - 1
      ensures Contents() == if ok then old(Contents()) + [item] else old(Contents())
    {
      SlotNext(|pushed|, capacity);
      var next := (head + 1) % capacity;
      if |pushed| + 1 < popped + capacity {
        SlotInjective(popped, |pushed| + 1, capacity);
      } else {
        SlotLap(popped, capacity);
      }
      if next == tail {
        return false;
      }
      forall i {:trigger Slot(i, capacity)} | popped <= i < |pushed|
        ensures Slot(i, capacity) != head
      {
        SlotInjective(i, |pushed|, capacity);
      }
      buffer[head] := Some(item);
      head := next;
      pushed := pushed + [item];
      return true;
    }

    method Pop() returns (item: Option<T>)
      requires Valid()
      modifies this
      ensures Valid()
      ensures item.None? <==> old(Contents()) == []
      ensures item.None? ==> Contents() == []
      ensures item.Some? ==> old(Contents()) == [item.value] + Contents()
    {
      if popped < |pushed| {
        SlotInjective(popped, |pushed|, capacity);
      }
      if tail == head {
        return None;
      }
      item := buffer[tail];
      SlotNext(popped, capacity);
      tail := (tail + 1) % capacity;
      popped := popped + 1;
    }

    method IsEmpty() returns (empty: bool)
      requires Valid()
      ensures empty <==> Contents() == []
    {
      if popped < |pushed| {
        SlotInjective(popped, |pushed|, capacity);
      }
      empty := tail == head;
    }

    /** Exact when nobody else is between its loads and its store. */
    method Len() returns (n: nat)
      requires Valid()
      ensures n == |Contents()|
    {
      Distance(popped, |pushed|, capacity);
      n := if head >= tail then head - tail else head + capacity - tail;
    }
  }

  lemma Distance(from: nat, to: nat, capacity: nat)
    requires capacity > 0
    requires from <= to < from + capacity
    ensures var h, t := Slot(to, capacity), Slot(from, capacity);
            to - from == if h >= t then h - t else h + capacity - t
  {
    var q, t := from / capacity, Slot(from, capacity);
    var n := to - from;
    assert (q + 1) * capacity == q * capacity + capacity;
    if t + n < capacity {
      SlotUnique(to, q, t + n, capacity);
    } else {
      SlotUnique(to, q + 1, t + n - capacity, capacity);
    }
  }
}

module RingSteps {
  import opened Wrappers
  import opened RingIndex

  type ThreadId = nat

  /** Where the thread that holds the push lock is inside `try_push`. */
  datatype Producer<+M> =
    | Unlocked
    | Locked(owner: ThreadId, item: M)
    | HeadLoaded(owner: ThreadId, item: M, head: nat)
    | HasRoom(owner: ThreadId, item: M, head: nat)
    | SlotWritten(owner: ThreadId, item: M, head: nat)
    | Pushed(owner: ThreadId)
    | Rejected(owner: ThreadId, item: M)

  /** Where the consumer is inside `pop`. */
  datatype Consumer<+M> =
    | Outside
    | TailLoaded(tail: nat)
    | SawItem(tail: nat)
    | SlotRead(tail: nat, item: M)
    | Popped(item: M)
    | SawEmpty

  /**
   * `sent` and `received` record the messages whose index store has happened;
   * `fault` is set by a read of an uninitialised slot or a write over a live one.
   */
  datatype State<+M> = State(
    capacity: nat,
    slots: seq<Option<M>>,
    head: nat,
    tail: nat,
    producer: Producer<M>,
    consumer: Consumer<M>,
    sent: seq<M>,
    received: seq<M>,
    fault: bool
  )

  datatype Action<+M> =
    | Lock(thread: ThreadId, item: M)
    | LoadHead
    | LoadTail
    | WriteSlot
    | StoreHead
    | Unlock
    | ConsumerLoadTail
    | ConsumerLoadHead
    | ReadSlot
    | StoreTail
    | Return

  /** What a step does to the abstract queue. */
  datatype Event<+M> = Silent | Enqueue(item: M) | Dequeue(item: M) | ReportFull | ReportEmpty

  function Init<M>(capacity: nat): State<M> {
    State(capacity, seq(capacity, _ => None), 0, 0, Unlocked, Outside, [], [], false)
  }

  /** The indices stay inside the buffer; every step needs this to be well defined. */
  predicate InBounds<M>(s: State<M>) {
    && |s.slots| == s.capacity > 0
    && s.head < s.capacity
    && s.tail < s.capacity
    && (s.producer.HasRoom? || s.producer.SlotWritten? || s.producer.HeadLoaded? ==> s.producer.head < s.capacity)
    && (s.consumer.TailLoaded? || s.consumer.SawItem? || s.consumer.SlotRead? ==> s.consumer.tail < s.capacity)
  }

  /** One atomic action; `None` when the action is not the next one of its thread. */
  function Next<M>(s: State<M>, a: Action<M>): Option<State<M>>
    requires InBounds(s)
  {
    match a
    case Lock(t, m) =>
      if s.producer.Unlocked? then Some(s.(producer := Locked(t, m))) else None
    case LoadHead =>
      if s.producer.Locked? then Some(s.(producer := HeadLoaded(s.producer.owner, s.producer.item, s.head))) else None
    case LoadTail =>
      if s.producer.HeadLoaded? then
        var p := s.producer;
        Some(s.(producer := if (p.head + 1) % s.capacity == s.tail then Rejected(p.owner, p.item)
                  else HasRoom(p.owner, p.item, p.head)))
      else None
    case WriteSlot =>
      if s.producer.HasRoom? then
        var p := s.producer;
        Some(s.(slots := s.slots[p.head := Some(p.item)],
                producer := SlotWritten(p.owner, p.item, p.head),
                fault := s.fault || s.slots[p.head].Some?))
      else None
    case StoreHead =>
      if s.producer.SlotWritten? then
        var p := s.producer;
        Some(s.(head := (p.head + 1) % s.capacity, producer := Pushed(p.owner), sent := s.sent + [p.item]))
      else None
    case Unlock =>
      if s.producer.Pushed? || s.producer.Rejected? then Some(s.(producer := Unlocked)) else None
    case ConsumerLoadTail =>
      if s.consumer.Outside? then Some(s.(consumer := TailLoaded(s.tail))) else None
    case ConsumerLoadHead =>
      if s.consumer.TailLoaded? then
        Some(s.(consumer := if s.consumer.tail == s.head then SawEmpty else SawItem(s.consumer.tail)))
      else None
    case ReadSlot =>
      if s.consumer.SawItem? then
        var c := s.consumer;
        match s.slots[c.tail] {
          case Some(m) => Some(s.(slots := s.slots[c.tail := None], consumer := SlotRead(c.tail, m)))
          case None => Some(s.(fault := true))
        }
      else None
    case StoreTail =>
      if s.consumer.SlotRead? then
        var c := s.consumer;
        Some(s.(tail := (c.tail + 1) % s.capacity, consumer := Popped(c.item), received := s.received + [c.item]))
      else None
    case Return =>
      if s.consumer.Popped? || s.consumer.SawEmpty? then Some(s.(consumer := Outside)) else None
  }

  function EventOf<M>(s: State<M>, a: Action<M>): Event<M>
    requires InBounds(s)
  {
    if a.StoreHead? && s.producer.SlotWritten? then Enqueue(s.producer.item)
    else if a.StoreTail? && s.consumer.SlotRead? then Dequeue(s.consumer.item)
    else if a.LoadTail? && s.producer.HeadLoaded? && (s.producer.head + 1) % s.capacity == s.tail then ReportFull
    else if a.ConsumerLoadHead? && s.consumer.TailLoaded? && s.consumer.tail == s.head then ReportEmpty
    else Silent
  }

  /** What the slot of message number `i` must hold. */
  ghost function Expected<M>(s: State<M>, i: nat): Option<M> {
    if i < |s.sent| then
      if i == |s.received| && s.consumer.SlotRead? then None else Some(s.sent[i])
    else if i == |s.sent| && s.producer.SlotWritten? then Some(s.producer.item)
    else None
  }

  /** The window of one lap that starts at the oldest queued message is laid out as expected. */
  ghost predicate SlotsAgree<M>(s: State<M>)
    requires |s.slots| == s.capacity > 0
  {
    forall i {:trigger Slot(i, s.capacity)} :: |s.received| <= i < |s.received| + s.capacity ==>
      s.slots[Slot(i, s.capacity)] == Expected(s, i)
  }

  ghost predicate ProducerAgrees<M>(s: State<M>) {
    match s.producer
    case HeadLoaded(_, _, h) => h == s.head
    case HasRoom(_, _, h) => h == s.head && |s.sent| + 1 < |s.received| + s.capacity
    case SlotWritten(_, _, h) => h == s.head && |s.sent| + 1 < |s.received| + s.capacity
    case _ => true
  }

  ghost predicate ConsumerAgrees<M>(s: State<M>) {
    match s.consumer
    case TailLoaded(t) => t == s.tail
    case SawItem(t) => t == s.tail && |s.received| < |s.sent|
    case SlotRead(t, m) => t == s.tail && |s.received| < |s.sent| && m == s.sent[|s.received|]
    case _ => true
  }

  ghost predicate Inv<M>(s: State<M>) {
    && InBounds(s)
    && !s.fault
    && s.received <= s.sent
    && |s.sent| < |s.received| + s.capacity
    && s.head == Slot(|s.sent|, s.capacity)
    && s.tail == Slot(|s.received|, s.capacity)
    && ProducerAgrees(s)
    && ConsumerAgrees(s)
    && SlotsAgree(s)
  }

  /** The abstract queue: everything whose head store happened and whose tail store did not. */
  ghost function Contents<M>(s: State<M>): seq<M>
    requires |s.received| <= |s.sent|
  {
    s.sent[|s.received|..]
  }

  lemma InitInv<M>(capacity: nat)
    requires capacity > 0
    ensures Inv(Init<M>(capacity)) && Contents(Init<M>(capacity)) == []
  {
    var s := Init<M>(capacity);
    assert Slot(0, capacity) == 0;
  }

  /** Every atomic action keeps the ring consistent and moves no message it should not. */
  lemma StepKeepsInv<M>(s: State<M>, a: Action<M>)
    requires Inv(s) && Next(s, a).Some?
    ensures Inv(Next(s, a).value)
  {
    match a {
      case WriteSlot => WriteSlotKeepsInv(s);
      case StoreHead => StoreHeadKeepsInv(s);
      case ReadSlot => ReadSlotKeepsInv(s);
      case StoreTail => StoreTailKeepsInv(s);
      case _ => LoadKeepsInv(s, a);
    }
  }

  /** Loads and lock operations change only where their thread is. */
  lemma LoadKeepsInv<M>(s: State<M>, a: Action<M>)
    requires Inv(s) && Next(s, a).Some?
    requires !a.WriteSlot? && !a.StoreHead? && !a.ReadSlot? && !a.StoreTail?
    ensures Inv(Next(s, a).value)
  {
    var s' := Next(s, a).value;
    if a.LoadTail? {
      LoadTailIsExact(s);
    } else if a.ConsumerLoadHead? {
      LoadHeadIsExact(s);
    }
    assert forall i: nat :: Expected(s', i) == Expected(s, i);
  }

  lemma StoreHeadKeepsInv<M>(s: State<M>)
    requires Inv(s) && s.producer.SlotWritten?
    ensures Inv(Next(s, StoreHead).value)
  {
    SlotNext(|s.sent|, s.capacity);
    assert forall i: nat :: Expected(Next(s, StoreHead).value, i) == Expected(s, i);
  }

  /** The producer's full check is exact although the consumer may be moving. */
  lemma LoadTailIsExact<M>(s: State<M>)
    requires Inv(s) && s.producer.HeadLoaded?
    ensures (s.producer.head + 1) % s.capacity == s.tail <==> |s.sent| + 1 == |s.received| + s.capacity
  {
    SlotNext(|s.sent|, s.capacity);
    if |s.sent| + 1 < |s.received| + s.capacity {
      SlotInjective(|s.received|, |s.sent| + 1, s.capacity);
    } else {
      SlotLap(|s.received|, s.capacity);
    }
  }

  /** The consumer's empty check is exact although producers may be moving. */
  lemma LoadHeadIsExact<M>(s: State<M>)
    requires Inv(s) && s.consumer.TailLoaded?
    ensures s.consumer.tail == s.head <==> s.received == s.sent
  {
    if |s.received| < |s.sent| {
      SlotInjective(|s.received|, |s.sent|, s.capacity);
    }
  }

  lemma WriteSlotKeepsInv<M>(s: State<M>)
    requires Inv(s) && s.producer.HasRoom?
    ensures s.slots[s.producer.head].None?
    ensures Inv(Next(s, WriteSlot).value)
  {
    var n := |s.sent|;
    var s' := Next(s, WriteSlot).value;
    assert s.slots[Slot(n, s.capacity)] == Expected(s, n);
    forall i {:trigger Slot(i, s.capacity)} | |s.received| <= i < |s.received| + s.capacity
      ensures s'.slots[Slot(i, s.capacity)] == Expected(s', i)
    {
      if i < n {
        SlotInjective(i, n, s.capacity);
      } else if n < i {
        SlotInjective(n, i, s.capacity);
      }
    }
  }

  lemma ReadSlotKeepsInv<M>(s: State<M>)
    requires Inv(s) && s.consumer.SawItem?
    ensures s.slots[s.consumer.tail] == Some(s.sent[|s.received|])
    ensures Inv(Next(s, ReadSlot).value)
  {
    var n := |s.received|;
    var s' := Next(s, ReadSlot).value;
    assert s.slots[Slot(n, s.capacity)] == Expected(s, n);
    forall i {:trigger Slot(i, s.capacity)} | n <= i < n + s.capacity
      ensures s'.slots[Slot(i, s.capacity)] == Expected(s', i)
    {
      if n < i {
        SlotInjective(n, i, s.capacity);
      }
    }
  }

  lemma StoreTailKeepsInv<M>(s: State<M>)
    requires Inv(s) && s.consumer.SlotRead?
    ensures Inv(Next(s, StoreTail).value)
  {
    var n := |s.received|;
    var s' := Next(s, StoreTail).value;
    SlotNext(n, s.capacity);
    SlotLap(n, s.capacity);
    assert s.slots[Slot(n, s.capacity)] == Expected(s, n);
    forall i {:trigger Slot(i, s.capacity)} | n + 1 <= i < n + 1 + s.capacity
      ensures s'.slots[Slot(i, s.capacity)] == Expected(s', i)
    {
      if i == n + s.capacity {
        assert s'.slots[Slot(i, s.capacity)] == None;
      } else {
        assert s.slots[Slot(i, s.capacity)] == Expected(s, i);
      }
    }
  }

  /** One transition of a FIFO that holds at most `bound` items. */
  function FifoStep<M>(q: seq<M>, bound: nat, e: Event<M>): Option<seq<M>> {
    match e
    case Silent => Some(q)
    case Enqueue(m) => if |q| < bound then Some(q + [m]) else None
    case Dequeue(m) => if |q| > 0 then Some(q[1..]) else None
    case ReportFull => if |q| == bound then Some(q) else None
    case ReportEmpty => if |q| == 0 then Some(q) else None
  }

  /** A dequeue is legal only for the oldest item. */
  ghost predicate Legal<M>(q: seq<M>, bound: nat, e: Event<M>) {
    && FifoStep(q, bound, e).Some?
    && (e.Dequeue? ==> e.item == q[0])
  }

  /** Each atomic action is a legal step of the FIFO with `capacity - 1` places. */
  lemma StepRefinesFifo<M>(s: State<M>, a: Action<M>)
    requires Inv(s) && Next(s, a).Some?
    ensures Inv(Next(s, a).value)
    ensures Legal(Contents(s), s.capacity - 1, EventOf(s, a))
    ensures FifoStep(Contents(s), s.capacity - 1, EventOf(s, a)) == Some(Contents(Next(s, a).value))
  {
    StepKeepsInv(s, a);
    if s.producer.HeadLoaded? {
      LoadTailIsExact(s);
    }
    if s.consumer.TailLoaded? {
      LoadHeadIsExact(s);
    }
    StepMovesQueue(s, a);
  }

  lemma StepMovesQueue<M>(s: State<M>, a: Action<M>)
    requires InBounds(s) && Next(s, a).Some?
    requires s.received <= s.sent && |s.sent| < |s.received| + s.capacity
    requires ProducerAgrees(s) && ConsumerAgrees(s)
    requires s.producer.HeadLoaded? ==>
               ((s.producer.head + 1) % s.capacity == s.tail <==> |s.sent| + 1 == |s.received| + s.capacity)
    requires s.consumer.TailLoaded? ==> (s.consumer.tail == s.head <==> s.received == s.sent)
    ensures |Next(s, a).value.received| <= |Next(s, a).value.sent|
    ensures Legal(Contents(s), s.capacity - 1, EventOf(s, a))
    ensures FifoStep(Contents(s), s.capacity - 1, EventOf(s, a)) == Some(Contents(Next(s, a).value))
  {
    var s' := Next(s, a).value;
    match a {
      case StoreHead => assert Contents(s') == Contents(s) + [s.producer.item];
      case StoreTail => assert Contents(s') == Contents(s)[1..];
      case _ => assert Contents(s') == Contents(s);
    }
  }

  /** A state reached by an interleaving, with the abstract events on the way. */
  datatype Run<+M> = Run(state: State<M>, events: seq<Event<M>>)

  function Extend<M>(r: Run<M>, a: Action<M>): Option<Run<M>> {
    if InBounds(r.state) && Next(r.state, a).Some? then
      Some(Run(Next(r.state, a).value, r.events + [EventOf(r.state, a)]))
    else None
  }

  function Exec<M>(capacity: nat, trace: seq<Action<M>>): Option<Run<M>> {
    if trace == [] then Some(Run(Init(capacity), []))
    else
      match Exec(capacity, trace[..|trace| - 1])
      case None => None
      case Some(r) => Extend(r, trace[|trace| - 1])
  }

  /** The queue that a legal FIFO history leaves, or `None` if the history is not legal. */
  ghost function FifoHistory<M>(bound: nat, events: seq<Event<M>>): Option<seq<M>> {
    if events == [] then Some([])
    else
      match FifoHistory(bound, events[..|events| - 1])
      case None => None
      case Some(q) =>
        var e := events[|events| - 1];
        if Legal(q, bound, e) then FifoStep(q, bound, e) else None
  }

  ghost predicate Refines<M>(capacity: nat, r: Run<M>) {
    && Inv(r.state)
    && r.state.capacity == capacity
    && FifoHistory(capacity - 1, r.events) == Some(Contents(r.state))
  }

  /**
   * Ring refinement: every interleaving of loads, slot accesses and stores is a
   * history of a FIFO holding at most `capacity - 1` items, and no slot is ever
   * read before it is written or overwritten before it is read.
   */
  lemma {:induction false} RingRefinesFifo<M>(capacity: nat, trace: seq<Action<M>>)
    requires capacity > 0
    requires Exec(capacity, trace).Some?
    ensures Refines(capacity, Exec(capacity, trace).value)
    ensures !Exec(capacity, trace).value.state.fault
  {
    if trace == [] {
      InitInv<M>(capacity);
    } else {
      RingRefinesFifo(capacity, trace[..|trace| - 1]);
      ExtendRefines(capacity, Exec(capacity, trace[..|trace| - 1]).value, trace[|trace| - 1]);
    }
  }

  lemma ExtendRefines<M>(capacity: nat, r: Run<M>, a: Action<M>)
    requires Refines(capacity, r) && Extend(r, a).Some?
    ensures Refines(capacity, Extend(r, a).value)
  {
    StepRefinesFifo(r.state, a);
    FifoHistoryExtends(capacity - 1, r.events, EventOf(r.state, a));
  }

  lemma FifoHistoryExtends<M>(bound: nat, events: seq<Event<M>>, e: Event<M>)
    requires FifoHistory(bound, events).Some?
    requires Legal(FifoHistory(bound, events).value, bound, e)
    ensures FifoHistory(bound, events + [e]) == FifoStep(FifoHistory(bound, events).value, bound, e)
  {
    assert (events + [e])[..|events|] == events;
  }
}
