/**
 * The completion-capability kernel: submit, complete, cancel, close, drain and
 * wake, with backpressure on both sides and buffers passing back and forth.
 * Every call is one mutex section.
 *
 * Capability and queue numbers are 32-bit and wrap, as in an optimised build;
 * what that costs is stated exactly by `ConservedExactlyWhenFresh`.
 */
module MapBags {
  /** The elements of all values of a map, counted with multiplicity. */
  ghost function Bag<K, V, B>(m: map<K, V>, f: V -> multiset<B>): multiset<B>
    decreases |m|
  {
    if m == map[] then multiset{}
    else
      var k :| k in m;
      f(m[k]) + Bag(m - {k}, f)
  }

  /** The order in which `Bag` visits the keys does not matter. */
  lemma {:induction false} BagWithout<K, V, B>(m: map<K, V>, f: V -> multiset<B>, k: K)
    requires k in m
    ensures Bag(m, f) == f(m[k]) + Bag(m - {k}, f)
    decreases |m|
  {
    var first :| first in m && Bag(m, f) == f(m[first]) + Bag(m - {first}, f);
    if first != k {
      BagWithout(m - {first}, f, k);
      BagWithout(m - {k}, f, first);
      assert m - {first} - {k} == m - {k} - {first};
    }
  }

  lemma BagUpdate<K, V, B>(m: map<K, V>, f: V -> multiset<B>, k: K, v: V)
    ensures Bag(m[k := v], f) == f(v) + Bag(m - {k}, f)
  {
    BagWithout(m[k := v], f, k);
    assert m[k := v] - {k} == m - {k};
  }
}

module Kernel {
  import opened Wrappers

  const U32: nat := 0x1_0000_0000

  type Cap = nat
  type QueueId = nat

  datatype OpResult = Ok(value: int) | Err(code: int) | Cancelled
  datatype Completion<+B> = Completion(cap: Cap, result: OpResult, returned: Option<B>)
  datatype OpState<+B> = OpState(queue: QueueId, buffer: Option<B>, cancelling: bool, completed: bool)
  datatype Shard<+B> = Shard(cq: seq<Completion<B>>, cqCapacity: nat, woke: bool, overflowPending: bool)

  datatype SubmitResult = Accepted(cap: Cap) | WouldBlock | BadArgs
  datatype PostOutcome = Posted | Backpressured
  datatype CancelResult = AlreadyComplete | CancelRequested | CancelUnknown
  datatype CloseResult = Closed | NotComplete | CloseUnknown
  datatype WaitResult = Ready(drainable: nat) | Block | UnknownQueue

  datatype State<+B> = State(
    ops: map<Cap, OpState<B>>,
    shards: map<QueueId, Shard<B>>,
    nextCap: nat,
    nextQueue: nat,
    capTableCapacity: nat
  ) {
    function RegisterShard(cqCapacity: nat): (State<B>, QueueId) {
      (this.(shards := shards[nextQueue := Shard([], cqCapacity, false, false)], nextQueue := (nextQueue + 1) % U32),
       nextQueue)
    }

    function Submit(cq: QueueId, buffer: Option<B>): (State<B>, SubmitResult) {
      if cq !in shards then (this, BadArgs)
      else if |ops| >= capTableCapacity then (this, WouldBlock)
      else
        (this.(ops := ops[nextCap := OpState(cq, buffer, false, false)], nextCap := (nextCap + 1) % U32),
         Accepted(nextCap))
    }

    /** The worker's hook panics on a capability or queue it does not know. */
    predicate CanComplete(cap: Cap) {
      cap in ops && ops[cap].queue in shards
    }

    function Complete(cap: Cap, result: OpResult): (State<B>, PostOutcome)
      requires CanComplete(cap)
    {
      var op := ops[cap];
      var shard := shards[op.queue];
      if |shard.cq| >= shard.cqCapacity then
        (this.(shards := shards[op.queue := shard.(overflowPending := true)]), Backpressured)
      else
        var entry := Completion(cap, if op.cancelling then Cancelled else result, op.buffer);
        (this.(ops := ops[cap := op.(buffer := None, completed := true)],
               shards := shards[op.queue := shard.(cq := shard.cq + [entry])]), Posted)
    }

    function Cancel(cap: Cap): (State<B>, CancelResult) {
      if cap !in ops then (this, CancelUnknown)
      else if ops[cap].completed then (this, AlreadyComplete)
      else (this.(ops := ops[cap := ops[cap].(cancelling := true)]), CancelRequested)
    }

    function Close(cap: Cap): (State<B>, CloseResult) {
      if cap !in ops then (this, CloseUnknown)
      else if !ops[cap].completed then (this, NotComplete)
      else (this.(ops := ops - {cap}), Closed)
    }

    function Drain(cq: QueueId): (State<B>, seq<Completion<B>>) {
      if cq !in shards then (this, [])
      else (this.(shards := shards[cq := shards[cq].(cq := [], overflowPending := false)]), shards[cq].cq)
    }

    function Wake(cq: QueueId): State<B> {
      if cq !in shards then this else this.(shards := shards[cq := shards[cq].(woke := true)])
    }

    function TakeWoke(cq: QueueId): (State<B>, bool) {
      if cq !in shards then (this, false)
      else (this.(shards := shards[cq := shards[cq].(woke := false)]), shards[cq].woke)
    }

    /** One pass through the loop of `wait`, between two sleeps on the condition variable. */
    function WaitPass(cq: QueueId, minComplete: nat): WaitResult {
      if cq !in shards then UnknownQueue
      else
        var ready := |shards[cq].cq| % U32;
        if shards[cq].woke || (minComplete == 0 && ready > 0) || (minComplete > 0 && ready >= minComplete)
        then Ready(ready) else Block
    }

    function ReadyCaps(cq: QueueId): seq<Cap> {
      if cq !in shards then [] else seq(|shards[cq].cq|, i requires 0 <= i < |shards[cq].cq| => shards[cq].cq[i].cap)
    }

    predicate OverflowPending(cq: QueueId) {
      cq in shards && shards[cq].overflowPending
    }
  }

  function Empty<B>(capTableCapacity: nat): State<B> {
    State(map[], map[], 0, 0, capTableCapacity)
  }
}

module MockKernel {
  import opened Wrappers
  import opened Kernel

  class MockKernel<B> {
    var ops: map<Cap, OpState<B>>
    var shards: map<QueueId, Shard<B>>
    var nextCap: nat
    var nextQueue: nat
    const capTableCapacity: nat

    /** The kernel as a value. */
    ghost function Value(): State<B>
      reads this
    {
      State(ops, shards, nextCap, nextQueue, capTableCapacity)
    }

    constructor (capTableCapacity: nat)
      ensures Value() == Empty(capTableCapacity)
    {
      this.capTableCapacity := capTableCapacity;
      ops, shards, nextCap, nextQueue := map[], map[], 0, 0;
    }

    method RegisterShard(cqCapacity: nat) returns (id: QueueId)
      modifies this
      ensures (Value(), id) == old(Value()).RegisterShard(cqCapacity)
    {
      id := nextQueue;
      nextQueue := (nextQueue + 1) % U32;
      shards := shards[id := Shard([], cqCapacity, false, false)];
    }

    method Submit(cq: QueueId, buffer: Option<B>) returns (result: SubmitResult)
      modifies this
      ensures (Value(), result) == old(Value()).Submit(cq, buffer)
    {
      if cq !in shards {
        return BadArgs;
      }
      if |ops| >= capTableCapacity {
        return WouldBlock;
      }
      var cap := nextCap;
      nextCap := (nextCap + 1) % U32;
      ops := ops[cap := OpState(cq, buffer, false, false)];
      return Accepted(cap);
    }

    method Complete(cap: Cap, result: OpResult) returns (outcome: PostOutcome)
      requires Value().CanComplete(cap)
      modifies this
      ensures (Value(), outcome) == old(Value()).Complete(cap, result)
    {
      ghost var before := ops;
      ghost var done := ops[cap].(buffer := None, completed := true);
      var queue, buffer, cancelling := ops[cap].queue, ops[cap].buffer, ops[cap].cancelling;
      ops := ops[cap := ops[cap].(buffer := None)];
      var finalResult := if cancelling then Cancelled else result;
      if |shards[queue].cq| >= shards[queue].cqCapacity {
        shards := shards[queue := shards[queue].(overflowPending := true)];
        ops := ops[cap := ops[cap].(buffer := buffer)];
        assert ops == before;
        return Backpressured;
      }
      ops := ops[cap := ops[cap].(completed := true)];
      assert ops == before[cap := done];
      shards := shards[queue := shards[queue].(cq := shards[queue].cq + [Completion(cap, finalResult, buffer)])];
      return Posted;
    }

    method Cancel(cap: Cap) returns (result: CancelResult)
      modifies this
      ensures (Value(), result) == old(Value()).Cancel(cap)
    {
      if cap !in ops {
        return CancelUnknown;
      }
      if ops[cap].completed {
        return AlreadyComplete;
      }
      ops := ops[cap := ops[cap].(cancelling := true)];
      return CancelRequested;
    }

    method Close(cap: Cap) returns (result: CloseResult)
      modifies this
      ensures (Value(), result) == old(Value()).Close(cap)
    {
      if cap !in ops {
        return CloseUnknown;
      }
      if !ops[cap].completed {
        return NotComplete;
      }
      ops := ops - {cap};
      return Closed;
    }

    method Drain(cq: QueueId) returns (entries: seq<Completion<B>>)
      modifies this
      ensures (Value(), entries) == old(Value()).Drain(cq)
    {
      if cq !in shards {
        return [];
      }
      entries := shards[cq].cq;
      shards := shards[cq := shards[cq].(cq := [], overflowPending := false)];
    }

    method Wake(cq: QueueId) returns (ok: bool)
      modifies this
      ensures ok <==> cq in old(shards)
      ensures Value() == old(Value()).Wake(cq)
    {
      ok := cq in shards;
      if ok {
        shards := shards[cq := shards[cq].(woke := true)];
      }
    }

    method TakeWoke(cq: QueueId) returns (woke: bool)
      modifies this
      ensures (Value(), woke) == old(Value()).TakeWoke(cq)
    {
      if cq !in shards {
        return false;
      }
      woke := shards[cq].woke;
      shards := shards[cq := shards[cq].(woke := false)];
    }

    /** One pass through the loop of `wait`. */
    method WaitPass(cq: QueueId, minComplete: nat) returns (result: WaitResult)
      ensures result == Value().WaitPass(cq, minComplete)
    {
      if cq !in shards {
        return UnknownQueue;
      }
      var ready := |shards[cq].cq| % U32;
      var satisfied := shards[cq].woke || (minComplete == 0 && ready > 0) || (minComplete > 0 && ready >= minComplete);
      return if satisfied then Ready(ready) else Block;
    }

    method ReadyCaps(cq: QueueId) returns (caps: seq<Cap>)
      ensures caps == Value().ReadyCaps(cq)
    {
      caps := [];
      if cq in shards {
        for i := 0 to |shards[cq].cq|
          invariant caps == Value().ReadyCaps(cq)[..i]
        {
          caps := caps + [shards[cq].cq[i].cap];
        }
      }
    }

    method OverflowPending(cq: QueueId) returns (pending: bool)
      ensures pending == Value().OverflowPending(cq)
    {
      pending := cq in shards && shards[cq].overflowPending;
    }
  }
}

module KernelRuns {
  import opened Wrappers
  import opened MapBags
  import opened Kernel

  /** A completion, and the registration of the queue it went through. */
  datatype Entry<+B> = Entry(registration: nat, completion: Completion<B>)

  /**
   * A kernel with everything that went in and came out. Submissions and
   * registrations have serial numbers that never repeat: `holder` and `regs` give
   * the serial number behind each capability and queue number in use, `postedBy`
   * that of each posted entry, and `cancelled` those whose cancel was accepted.
   */
  datatype World<+B> = World(
    kernel: State<B>,
    submitted: multiset<B>,
    returned: multiset<B>,
    posted: seq<Entry<B>>,
    postedBy: seq<nat>,
    drained: seq<Entry<B>>,
    cancelled: set<nat>,
    holder: map<Cap, nat>,
    regs: map<QueueId, nat>,
    submits: nat,
    registers: nat
  )

  datatype Action<+B> =
    | RegisterShard(cqCapacity: nat)
    | Submit(cq: QueueId, buffer: Option<B>)
    | Complete(cap: Cap, result: OpResult)
    | Cancel(cap: Cap)
    | Close(cap: Cap)
    | Drain(cq: QueueId)
    | Wake(cq: QueueId)
    | TakeWoke(cq: QueueId)

  function Init<B>(capTableCapacity: nat): World<B> {
    World(Empty(capTableCapacity), multiset{}, multiset{}, [], [], [], {}, map[], map[], 0, 0)
  }

  function Bufs<B>(b: Option<B>): multiset<B> {
    match b case None => multiset{} case Some(x) => multiset{x}
  }

  function Tag<B>(r: nat, entries: seq<Completion<B>>): seq<Entry<B>> {
    if entries == [] then [] else Tag(r, entries[..|entries| - 1]) + [Entry(r, entries[|entries| - 1])]
  }

  /** The serial number behind a number in use. */
  function Serial(numbers: map<nat, nat>, n: nat): nat {
    if n in numbers then numbers[n] else 0
  }

  function Next<B>(w: World<B>, a: Action<B>): Option<World<B>> {
    var k := w.kernel;
    match a
    case RegisterShard(n) =>
      Some(w.(kernel := k.RegisterShard(n).0, regs := w.regs[k.nextQueue := w.registers], registers := w.registers + 1))
    case Submit(cq, b) =>
      var (k', r) := k.Submit(cq, b);
      Some(if r.Accepted? then
             w.(kernel := k', submitted := w.submitted + Bufs(b),
                holder := w.holder[k.nextCap := w.submits], submits := w.submits + 1)
           else w)
    case Complete(cap, result) =>
      if !k.CanComplete(cap) then None
      else
        var (k', r) := k.Complete(cap, result);
        var op := k.ops[cap];
        var entry := Completion(cap, if op.cancelling then Cancelled else result, op.buffer);
        Some(if r.Posted? then
               w.(kernel := k',
                  posted := w.posted + [Entry(Serial(w.regs, op.queue), entry)],
                  postedBy := w.postedBy + [Serial(w.holder, cap)])
             else w.(kernel := k'))
    case Cancel(cap) =>
      var (k', r) := k.Cancel(cap);
      Some(w.(kernel := k',
              cancelled := if r.CancelRequested? then w.cancelled + {Serial(w.holder, cap)} else w.cancelled))
    case Close(cap) =>
      var (k', r) := k.Close(cap);
      Some(w.(kernel := k', holder := if r.Closed? then w.holder - {cap} else w.holder))
    case Drain(cq) =>
      var (k', entries) := k.Drain(cq);
      Some(w.(kernel := k', returned := w.returned + EntryBufs(entries),
              drained := w.drained + Tag(Serial(w.regs, cq), entries)))
    case Wake(cq) => Some(w.(kernel := k.Wake(cq)))
    case TakeWoke(cq) => Some(w.(kernel := k.TakeWoke(cq).0))
  }

  function Run<B>(w: World<B>, trace: seq<Action<B>>): Option<World<B>> {
    if trace == [] then Some(w)
    else
      match Run(w, trace[..|trace| - 1])
      case None => None
      case Some(w') => Next(w', trace[|trace| - 1])
  }

  // ----- buffer conservation -----

  function EntryBufs<B>(entries: seq<Completion<B>>): multiset<B> {
    if entries == [] then multiset{}
    else EntryBufs(entries[..|entries| - 1]) + Bufs(entries[|entries| - 1].returned)
  }

  ghost function OpBufs<B>(op: OpState<B>): multiset<B> { Bufs(op.buffer) }
  ghost function ShardBufs<B>(shard: Shard<B>): multiset<B> { EntryBufs(shard.cq) }
  ghost function InOps<B>(ops: map<Cap, OpState<B>>): multiset<B> { Bag(ops, OpBufs<B>) }
  ghost function InQueues<B>(shards: map<QueueId, Shard<B>>): multiset<B> { Bag(shards, ShardBufs<B>) }

  /** The buffers in the operation table, in queue entries, and handed out. */
  ghost function Located<B>(w: World<B>): multiset<B> {
    InOps(w.kernel.ops) + InQueues(w.kernel.shards) + w.returned
  }

  /** Every accepted buffer is in exactly one of these places. */
  ghost predicate Conserved<B>(w: World<B>) {
    w.submitted == Located(w)
  }

  /** A completed operation no longer owns its buffer. */
  ghost predicate CompletedGaveBack<B>(w: World<B>) {
    forall c :: c in w.kernel.ops && w.kernel.ops[c].completed ==> w.kernel.ops[c].buffer.None?
  }

  /** The number about to be handed out does not still name something that holds a buffer. */
  ghost predicate Fresh<B>(w: World<B>, a: Action<B>) {
    var k := w.kernel;
    match a
    case RegisterShard(_) => k.nextQueue !in k.shards || ShardBufs(k.shards[k.nextQueue]) == multiset{}
    case Submit(cq, b) => k.Submit(cq, b).1.Accepted? ==> k.nextCap !in k.ops || k.ops[k.nextCap].buffer.None?
    case _ => true
  }

  /** The buffers a step takes in. */
  function Added<B>(w: World<B>, a: Action<B>): multiset<B> {
    if a.Submit? && w.kernel.Submit(a.cq, a.buffer).1.Accepted? then Bufs(a.buffer) else multiset{}
  }

  /** The buffers a step throws away with the former bearer of the number it hands out. */
  ghost function Overwritten<B>(w: World<B>, a: Action<B>): multiset<B> {
    var k := w.kernel;
    match a
    case RegisterShard(_) => if k.nextQueue in k.shards then EntryBufs(k.shards[k.nextQueue].cq) else multiset{}
    case Submit(cq, b) =>
      if k.Submit(cq, b).1.Accepted? && k.nextCap in k.ops then Bufs(k.ops[k.nextCap].buffer) else multiset{}
    case _ => multiset{}
  }

  /** Replacing one operation exchanges its buffer and touches no other. */
  lemma SetOp<B>(ops: map<Cap, OpState<B>>, cap: Cap, op: OpState<B>)
    ensures InOps(ops[cap := op]) == Bufs(op.buffer) + InOps(ops - {cap})
    ensures InOps(ops) == (if cap in ops then Bufs(ops[cap].buffer) else multiset{}) + InOps(ops - {cap})
  {
    BagUpdate(ops, OpBufs<B>, cap, op);
    if cap in ops {
      BagWithout(ops, OpBufs<B>, cap);
    } else {
      assert ops - {cap} == ops;
    }
  }

  lemma SetShard<B>(shards: map<QueueId, Shard<B>>, q: QueueId, shard: Shard<B>)
    ensures InQueues(shards[q := shard]) == EntryBufs(shard.cq) + InQueues(shards - {q})
    ensures InQueues(shards) == (if q in shards then EntryBufs(shards[q].cq) else multiset{}) + InQueues(shards - {q})
  {
    BagUpdate(shards, ShardBufs<B>, q, shard);
    if q in shards {
      BagWithout(shards, ShardBufs<B>, q);
    } else {
      assert shards - {q} == shards;
    }
  }

  lemma EntryBufsSnoc<B>(entries: seq<Completion<B>>, e: Completion<B>)
    ensures EntryBufs(entries + [e]) == EntryBufs(entries) + Bufs(e.returned)
  {
    assert (entries + [e])[..|entries|] == entries;
  }

  /** What a step takes in, it locates, and only what it overwrites is gone. */
  ghost predicate Balanced<B>(w: World<B>, a: Action<B>, w': World<B>) {
    w'.submitted == w.submitted + Added(w, a) && Located(w') + Overwritten(w, a) == Located(w) + Added(w, a)
  }

  lemma StepBalances<B>(w: World<B>, a: Action<B>)
    requires CompletedGaveBack(w) && Next(w, a).Some?
    ensures Balanced(w, a, Next(w, a).value)
  {
    match a {
      case RegisterShard(n) => RegisterBalances(w, n);
      case Submit(cq, b) => SubmitBalances(w, cq, b);
      case Complete(cap, result) => CompleteBalances(w, cap, result);
      case Cancel(cap) => CancelBalances(w, cap);
      case Close(cap) => CloseBalances(w, cap);
      case Drain(cq) => DrainBalances(w, cq);
      case Wake(cq) =>
        if cq in w.kernel.shards {
          FlagConserves(w.kernel.shards, cq, true);
        }
      case TakeWoke(cq) =>
        if cq in w.kernel.shards {
          FlagConserves(w.kernel.shards, cq, false);
        }
    }
  }

  lemma StepKeepsGaveBack<B>(w: World<B>, a: Action<B>)
    requires CompletedGaveBack(w) && Next(w, a).Some?
    ensures CompletedGaveBack(Next(w, a).value)
  {
  }

  lemma RegisterBalances<B>(w: World<B>, n: nat)
    ensures Balanced(w, RegisterShard(n), Next(w, RegisterShard(n)).value)
  {
    var k := w.kernel;
    SetShard(k.shards, k.nextQueue, Shard([], n, false, false));
    var dropped := Overwritten(w, RegisterShard(n));
    Dropped(InOps(k.ops), dropped, InQueues(k.shards - {k.nextQueue}), w.returned);
  }

  lemma Dropped<B>(a: multiset<B>, dropped: multiset<B>, rest: multiset<B>, c: multiset<B>)
    ensures a + (multiset{} + rest) + c + dropped == a + (dropped + rest) + c
  {
  }

  lemma SubmitBalances<B>(w: World<B>, cq: QueueId, b: Option<B>)
    ensures Balanced(w, Submit(cq, b), Next(w, Submit(cq, b)).value)
  {
    var k := w.kernel;
    if k.Submit(cq, b).1.Accepted? {
      SetOp(k.ops, k.nextCap, OpState(cq, b, false, false));
      Replaced(Bufs(b), Overwritten(w, Submit(cq, b)), InOps(k.ops - {k.nextCap}), InQueues(k.shards), w.returned);
    }
  }

  lemma Replaced<B>(added: multiset<B>, dropped: multiset<B>, rest: multiset<B>, queues: multiset<B>, out: multiset<B>)
    ensures (added + rest) + queues + out + dropped == (dropped + rest) + queues + out + added
  {
  }

  /** A posted entry carries the buffer from the operation to the queue. */
  lemma EntryCarries<B>(ops: map<Cap, OpState<B>>, shards: map<QueueId, Shard<B>>, cap: Cap, entry: Completion<B>)
    requires cap in ops && ops[cap].queue in shards && entry.returned == ops[cap].buffer
    ensures var q := ops[cap].queue;
            InOps(ops[cap := ops[cap].(buffer := None, completed := true)])
            + InQueues(shards[q := shards[q].(cq := shards[q].cq + [entry])])
            == InOps(ops) + InQueues(shards)
  {
    var q := ops[cap].queue;
    SetShard(shards, q, shards[q].(cq := shards[q].cq + [entry]));
    SetOp(ops, cap, ops[cap].(buffer := None, completed := true));
    EntryBufsSnoc(shards[q].cq, entry);
    Handed(Bufs(ops[cap].buffer), InOps(ops - {cap}), EntryBufs(shards[q].cq), InQueues(shards - {q}));
  }

  lemma CompleteBalances<B>(w: World<B>, cap: Cap, result: OpResult)
    requires w.kernel.CanComplete(cap)
    ensures Balanced(w, Complete(cap, result), Next(w, Complete(cap, result)).value)
  {
    var k := w.kernel;
    var q, op := k.ops[cap].queue, k.ops[cap];
    if k.Complete(cap, result).1.Posted? {
      EntryCarries(k.ops, k.shards, cap, Completion(cap, if op.cancelling then Cancelled else result, op.buffer));
    } else {
      SetShard(k.shards, q, k.shards[q].(overflowPending := true));
    }
  }

  lemma Handed<B>(x: multiset<B>, ops: multiset<B>, cq: multiset<B>, queues: multiset<B>)
    ensures (x + ops) + (cq + queues) == ops + ((cq + x) + queues)
  {
  }

  lemma CancelBalances<B>(w: World<B>, cap: Cap)
    ensures Balanced(w, Cancel(cap), Next(w, Cancel(cap)).value)
  {
    if cap in w.kernel.ops {
      SetOp(w.kernel.ops, cap, w.kernel.ops[cap].(cancelling := true));
    }
  }

  lemma CloseBalances<B>(w: World<B>, cap: Cap)
    requires CompletedGaveBack(w)
    ensures Balanced(w, Close(cap), Next(w, Close(cap)).value)
  {
    if cap in w.kernel.ops && w.kernel.ops[cap].completed {
      SetOp(w.kernel.ops, cap, w.kernel.ops[cap]);
      assert InOps(w.kernel.ops - {cap}) == InOps(w.kernel.ops);
    }
  }

  lemma DrainBalances<B>(w: World<B>, cq: QueueId)
    ensures Balanced(w, Drain(cq), Next(w, Drain(cq)).value)
  {
    var k := w.kernel;
    if cq in k.shards {
      SetShard(k.shards, cq, k.shards[cq].(cq := [], overflowPending := false));
      MovedOut(InOps(k.ops), EntryBufs(k.shards[cq].cq), InQueues(k.shards - {cq}), w.returned);
    }
  }

  lemma MovedOut<B>(ops: multiset<B>, cq: multiset<B>, queues: multiset<B>, out: multiset<B>)
    ensures ops + (multiset{} + queues) + (out + cq) == ops + (cq + queues) + out
  {
  }

  lemma FlagConserves<B>(shards: map<QueueId, Shard<B>>, cq: QueueId, woke: bool)
    requires cq in shards
    ensures InQueues(shards[cq := shards[cq].(woke := woke)]) == InQueues(shards)
  {
    SetShard(shards, cq, shards[cq].(woke := woke));
  }

  /** Until a counter has gone round, numbers are handed out in order and never twice. */
  ghost predicate Numbered<B>(w: World<B>) {
    && (w.submits <= U32 ==> w.kernel.nextCap == w.submits % U32 && forall c :: c in w.kernel.ops ==> c < w.submits)
    && (w.registers <= U32 ==>
          w.kernel.nextQueue == w.registers % U32 && forall q :: q in w.kernel.shards ==> q < w.registers)
  }

  /** No counter has gone round yet. */
  predicate BeforeWrap<B>(w: World<B>) {
    w.submits <= U32 && w.registers <= U32
  }

  lemma StepKeepsNumbered<B>(w: World<B>, a: Action<B>)
    requires Numbered(w) && Next(w, a).Some?
    ensures Numbered(Next(w, a).value)
    ensures BeforeWrap(Next(w, a).value) ==> BeforeWrap(w) && Fresh(w, a)
  {
    match a {
      case Submit(cq, b) => SubmitKeepsNumbered(w, cq, b);
      case RegisterShard(n) => RegisterKeepsNumbered(w, n);
      case _ =>
    }
  }

  lemma SubmitKeepsNumbered<B>(w: World<B>, cq: QueueId, b: Option<B>)
    requires Numbered(w)
    ensures Numbered(Next(w, Submit(cq, b)).value)
    ensures BeforeWrap(Next(w, Submit(cq, b)).value) ==> BeforeWrap(w) && Fresh(w, Submit(cq, b))
  {
  }

  lemma RegisterKeepsNumbered<B>(w: World<B>, n: nat)
    requires Numbered(w)
    ensures Numbered(Next(w, RegisterShard(n)).value)
    ensures BeforeWrap(Next(w, RegisterShard(n)).value) ==> BeforeWrap(w) && Fresh(w, RegisterShard(n))
  {
  }

  // ----- conservation over whole runs -----

  /** Everything that the steps of a run overwrote. */
  ghost function LostIn<B>(w: World<B>, trace: seq<Action<B>>): multiset<B>
    requires Run(w, trace).Some?
  {
    if trace == [] then multiset{}
    else
      var before := trace[..|trace| - 1];
      LostIn(w, before) + Overwritten(Run(w, before).value, trace[|trace| - 1])
  }

  /** Every number that the run hands out is free, or names nothing that holds a buffer. */
  ghost predicate FreshRun<B>(w: World<B>, trace: seq<Action<B>>)
    requires Run(w, trace).Some?
  {
    trace == [] ||
    (var before := trace[..|trace| - 1];
     FreshRun(w, before) && Fresh(Run(w, before).value, trace[|trace| - 1]))
  }

  lemma FreshOverwritesNothing<B>(w: World<B>, a: Action<B>)
    ensures Fresh(w, a) <==> Overwritten(w, a) == multiset{}
  {
    if a.Submit? && w.kernel.nextCap in w.kernel.ops {
      assert Bufs(w.kernel.ops[w.kernel.nextCap].buffer) == multiset{} <==> w.kernel.ops[w.kernel.nextCap].buffer.None?;
    }
  }

  lemma {:induction false} FreshRunLosesNothing<B>(w: World<B>, trace: seq<Action<B>>)
    requires Run(w, trace).Some?
    ensures FreshRun(w, trace) <==> LostIn(w, trace) == multiset{}
  {
    if trace != [] {
      var before, a := trace[..|trace| - 1], trace[|trace| - 1];
      FreshRunLosesNothing(w, before);
      FreshOverwritesNothing(Run(w, before).value, a);
      Nothing(LostIn(w, before), Overwritten(Run(w, before).value, a));
    }
  }

  lemma Nothing<B>(a: multiset<B>, b: multiset<B>)
    ensures a + b == multiset{} <==> a == multiset{} && b == multiset{}
  {
    assert |a + b| == |a| + |b|;
  }

  lemma Unchanged<B>(a: multiset<B>, b: multiset<B>)
    ensures a + b == a <==> b == multiset{}
  {
    assert |a + b| == |a| + |b|;
  }

  /** Exactly: a step keeps every buffer accounted for if and only if the number it hands out is free. */
  lemma ConservedExactlyWhenFresh<B>(w: World<B>, a: Action<B>)
    requires Conserved(w) && CompletedGaveBack(w) && Next(w, a).Some?
    ensures Conserved(Next(w, a).value) <==> Fresh(w, a)
  {
    StepBalances(w, a);
    FreshOverwritesNothing(w, a);
    Unchanged(Located(Next(w, a).value), Overwritten(w, a));
  }

  lemma Shift<B>(submitted: multiset<B>, located: multiset<B>, lost: multiset<B>,
                 added: multiset<B>, located': multiset<B>, overwritten: multiset<B>)
    requires submitted == located + lost && located' + overwritten == located + added
    ensures submitted + added == located' + (lost + overwritten)
  {
    assert submitted + added == (located + added) + lost;
  }

  /**
   * Buffer conservation over every run, also past the wrap of the 32-bit
   * numbers: the submitted buffers are the located ones and those that a step
   * overwrote, so nothing is lost if and only if every number handed out was
   * free, and a loss is never made good.
   */
  lemma {:induction false} BuffersAreConserved<B>(capTableCapacity: nat, trace: seq<Action<B>>)
    requires Run(Init(capTableCapacity), trace).Some?
    ensures var w := Run(Init(capTableCapacity), trace).value;
            && CompletedGaveBack(w)
            && w.submitted == Located(w) + LostIn(Init(capTableCapacity), trace)
            && (Conserved(w) <==> FreshRun(Init(capTableCapacity), trace))
  {
    var w0 := Init<B>(capTableCapacity);
    if trace != [] {
      var before, a := trace[..|trace| - 1], trace[|trace| - 1];
      BuffersAreConserved(capTableCapacity, before);
      var w := Run(w0, before).value;
      var w' := Next(w, a).value;
      StepKeepsGaveBack(w, a);
      StepBalances(w, a);
      Shift(w.submitted, Located(w), LostIn(w0, before), Added(w, a), Located(w'), Overwritten(w, a));
    }
    FreshRunLosesNothing(w0, trace);
    Unchanged(Located(Run(w0, trace).value), LostIn(w0, trace));
  }

  lemma {:induction false} RunIsNumbered<B>(capTableCapacity: nat, trace: seq<Action<B>>)
    requires Run(Init(capTableCapacity), trace).Some?
    ensures var w := Run(Init(capTableCapacity), trace).value;
            Numbered(w) && (BeforeWrap(w) ==> FreshRun(Init(capTableCapacity), trace))
  {
    if trace != [] {
      var before, a := trace[..|trace| - 1], trace[|trace| - 1];
      RunIsNumbered(capTableCapacity, before);
      StepKeepsNumbered(Run(Init(capTableCapacity), before).value, a);
    }
  }

  /** In particular nothing is lost in the first 2^32 submissions and registrations. */
  lemma ConservedBeforeWrap<B>(capTableCapacity: nat, trace: seq<Action<B>>)
    requires Run(Init(capTableCapacity), trace).Some? && BeforeWrap(Run(Init(capTableCapacity), trace).value)
    ensures Conserved(Run(Init(capTableCapacity), trace).value)
  {
    RunIsNumbered(capTableCapacity, trace);
    BuffersAreConserved(capTableCapacity, trace);
  }

  // ----- a run that loses a buffer -----

  /** A kernel in which operation 0 holds `b`, with one more operation or none, and a one-entry queue. */
  function Busy<B>(b: B, more: map<Cap, OpState<B>>, cq: seq<Completion<B>>, nextCap: nat): State<B> {
    State(more[0 := OpState(0, Some(b), false, false)], map[0 := Shard(cq, 1, false, false)], nextCap, 1, 2)
  }

  /** Buffer `b` went in and has not come out. */
  ghost predicate Inside<B>(w: World<B>, b: B, k: State<B>) {
    w.kernel == k && w.submitted == multiset{b} && w.returned == multiset{}
  }

  /** One operation has held buffer `b` since the beginning, and `n` capabilities were handed out. */
  ghost predicate Holding<B>(w: World<B>, b: B, n: nat) {
    Inside(w, b, Busy(b, map[], [], n % U32))
  }

  function Running<B>(n: Cap, completed: bool): map<Cap, OpState<B>> {
    map[n := OpState(0, None, false, completed)]
  }

  lemma SubmitsAgain<B>(w: World<B>, b: B, n: nat)
    requires Holding(w, b, n) && 0 < n < U32
    ensures Inside(Next(w, Submit(0, None)).value, b, Busy(b, Running(n, false), [], (n + 1) % U32))
  {
    BusySubmits(b, n);
  }

  lemma BusySubmits<B>(b: B, n: nat)
    requires 0 < n < U32
    ensures Busy(b, map[], [], n).Submit(0, None) == (Busy(b, Running(n, false), [], (n + 1) % U32), Accepted(n))
  {
    var k := Busy(b, map[], [], n);
    assert |k.ops| == 1;
    assert k.ops[n := OpState(0, None, false, false)] == Busy(b, Running(n, false), [], n).ops;
  }

  lemma Completes<B>(w: World<B>, b: B, n: nat, next: nat)
    requires Inside(w, b, Busy(b, Running(n, false), [], next)) && 0 < n
    ensures Next(w, Complete(n, Ok(0))).Some?
    ensures Inside(Next(w, Complete(n, Ok(0))).value, b, Busy(b, Running(n, true), [Completion(n, Ok(0), None)], next))
  {
    var k, k' := w.kernel, Next(w, Complete(n, Ok(0))).value.kernel;
    var goal := Busy(b, Running(n, true), [Completion(n, Ok(0), None)], next);
    assert k'.ops == goal.ops;
    assert k.shards[0].cq + [Completion(n, Ok(0), None)] == [Completion(n, Ok(0), None)];
    assert k'.shards == goal.shards;
  }

  lemma Drains<B>(w: World<B>, b: B, n: nat, next: nat)
    requires Inside(w, b, Busy(b, Running(n, true), [Completion(n, Ok(0), None)], next))
    ensures Inside(Next(w, Drain(0)).value, b, Busy(b, Running(n, true), [], next))
  {
    assert Next(w, Drain(0)).value.kernel.shards == Busy(b, Running(n, true), [], next).shards;
    EntryBufsSnoc([], w.kernel.shards[0].cq[0]);
    assert [] + [w.kernel.shards[0].cq[0]] == w.kernel.shards[0].cq;
  }

  lemma Closes<B>(w: World<B>, b: B, n: nat, next: nat)
    requires Inside(w, b, Busy(b, Running(n, true), [], next)) && 0 < n
    ensures Inside(Next(w, Close(n)).value, b, Busy(b, map[], [], next))
  {
    assert w.kernel.ops - {n} == Busy(b, map[], [], next).ops;
  }

  lemma Then<B>(w0: World<B>, trace: seq<Action<B>>, w: World<B>, a: Action<B>)
    returns (trace': seq<Action<B>>, w': World<B>)
    requires Run(w0, trace) == Some(w) && Next(w, a).Some?
    ensures Run(w0, trace') == Some(w') && w' == Next(w, a).value
  {
    w', trace' := Next(w, a).value, trace + [a];
    assert trace'[..|trace|] == trace;
  }

  lemma StartHolding<B>(b: B) returns (trace: seq<Action<B>>, w: World<B>)
    ensures Run(Init(2), trace) == Some(w) && Holding(w, b, 1)
  {
    trace, w := Then(Init(2), [], Init(2), RegisterShard(1));
    trace, w := Then(Init(2), trace, w, Submit(0, Some(b)));
  }

  /** One more capability comes and goes. */
  lemma Cycle<B>(b: B, n: nat, before: seq<Action<B>>, w0: World<B>) returns (trace: seq<Action<B>>, w: World<B>)
    requires Run(Init(2), before) == Some(w0) && Holding(w0, b, n) && 0 < n < U32
    ensures Run(Init(2), trace) == Some(w) && Holding(w, b, n + 1)
  {
    var next := (n + 1) % U32;
    SubmitsAgain(w0, b, n);
    trace, w := Then(Init(2), before, w0, Submit(0, None));
    Completes(w, b, n, next);
    trace, w := Then(Init(2), trace, w, Complete(n, Ok(0)));
    Drains(w, b, n, next);
    trace, w := Then(Init(2), trace, w, Drain(0));
    Closes(w, b, n, next);
    trace, w := Then(Init(2), trace, w, Close(n));
  }

  lemma {:induction false} Cycles<B>(b: B, n: nat) returns (trace: seq<Action<B>>, w: World<B>)
    requires 0 < n <= U32
    ensures Run(Init(2), trace) == Some(w) && Holding(w, b, n)
  {
    if n == 1 {
      trace, w := StartHolding(b);
    } else {
      trace, w := Cycles(b, n - 1);
      trace, w := Cycle(b, n - 1, trace, w);
    }
  }

  /**
   * Past the wrap conservation fails: capability 0 still holds a buffer when its
   * number comes round, the next submission overwrites it, and the buffer is
   * neither in the table nor in a queue nor handed out.
   */
  lemma WrapLosesBuffer<B>(b: B) returns (trace: seq<Action<B>>)
    ensures Run(Init(2), trace).Some?
    ensures var w := Run(Init(2), trace).value;
            !Conserved(w) && !FreshRun(Init(2), trace) && w.submitted == multiset{b} && Located(w) == multiset{}
  {
    var w;
    trace, w := Cycles(b, U32);
    trace, w := Then(Init(2), trace, w, Submit(0, None));
    NothingLocated(w);
    BuffersAreConserved(2, trace);
  }

  lemma NothingLocated<B>(w: World<B>)
    requires w.kernel.ops == map[0 := OpState(0, None, false, false)]
    requires w.kernel.shards == map[0 := Shard([], 1, false, false)] && w.returned == multiset{}
    ensures Located(w) == multiset{}
  {
    var ops: map<Cap, OpState<B>>, shards: map<QueueId, Shard<B>> := map[], map[];
    SetOp(ops, 0, OpState(0, None, false, false));
    SetShard(shards, 0, Shard([], 1, false, false));
    assert ops[0 := OpState(0, None, false, false)] == w.kernel.ops && ops - {0} == ops;
    assert shards[0 := Shard([], 1, false, false)] == w.kernel.shards && shards - {0} == shards;
  }

  // ----- queues -----

  /** The completions of one registration, in order. */
  function ToQueue<B>(entries: seq<Entry<B>>, r: nat): seq<Completion<B>> {
    if entries == [] then []
    else
      var e := entries[|entries| - 1];
      ToQueue(entries[..|entries| - 1], r) + if e.registration == r then [e.completion] else []
  }

  lemma ToQueueSnoc<B>(entries: seq<Entry<B>>, e: Entry<B>, r: nat)
    ensures ToQueue(entries + [e], r) == ToQueue(entries, r) + if e.registration == r then [e.completion] else []
  {
    assert (entries + [e])[..|entries|] == entries;
  }

  lemma {:induction false} ToQueueTag<B>(entries: seq<Entry<B>>, from: nat, batch: seq<Completion<B>>, r: nat)
    ensures ToQueue(entries + Tag(from, batch), r) == ToQueue(entries, r) + if from == r then batch else []
  {
    if batch == [] {
      assert entries + Tag(from, batch) == entries;
    } else {
      var n := |batch| - 1;
      ToQueueTag(entries, from, batch[..n], r);
      ToQueueSnoc(entries + Tag(from, batch[..n]), Entry(from, batch[n]), r);
      assert entries + Tag(from, batch) == entries + Tag(from, batch[..n]) + [Entry(from, batch[n])];
    }
  }

  /** The queues in use have different serial numbers, all of them given out. */
  ghost predicate RegsOk<B>(w: World<B>) {
    && w.regs.Keys == w.kernel.shards.Keys
    && (forall q :: q in w.regs ==> w.regs[q] < w.registers)
    && (forall q, p :: q in w.regs && p in w.regs && q != p ==> w.regs[q] != w.regs[p])
  }

  /** The part of the posted completions of registration `r` that was not drained is in its queue. */
  ghost predicate ShardInOrder<B>(shard: Shard<B>, posted: seq<Completion<B>>, drained: seq<Completion<B>>) {
    && posted == drained + shard.cq
    && |shard.cq| <= shard.cqCapacity
    && (shard.overflowPending ==> |shard.cq| == shard.cqCapacity)
  }

  /**
   * What was drained of a registration is a prefix of what was posted. While its
   * queue is in use the rest is in that queue, within its bound, and an overflow
   * is flagged only when it is full.
   */
  ghost predicate QueueInOrder<B>(w: World<B>, r: nat) {
    && ToQueue(w.drained, r) <= ToQueue(w.posted, r)
    && (r >= w.registers ==> ToQueue(w.posted, r) == [])
    && (forall q :: q in w.kernel.shards && Serial(w.regs, q) == r ==>
          ShardInOrder(w.kernel.shards[q], ToQueue(w.posted, r), ToQueue(w.drained, r)))
  }

  lemma StepKeepsRegs<B>(w: World<B>, a: Action<B>)
    requires RegsOk(w) && Next(w, a).Some?
    ensures RegsOk(Next(w, a).value)
  {
  }

  lemma StepKeepsOrder<B>(w: World<B>, a: Action<B>, r: nat)
    requires QueueInOrder(w, r) && RegsOk(w) && Next(w, a).Some?
    ensures QueueInOrder(Next(w, a).value, r)
  {
    match a {
      case Complete(cap, result) => CompleteKeepsOrder(w, cap, result, r);
      case Drain(cq) => DrainKeepsOrder(w, cq, r);
      case RegisterShard(n) => RegisterKeepsOrder(w, n, r);
      case Wake(cq) => FlagKeepsOrder(w, a, r);
      case TakeWoke(cq) => FlagKeepsOrder(w, a, r);
      case _ =>
    }
  }

  lemma RegisterKeepsOrder<B>(w: World<B>, n: nat, r: nat)
    requires QueueInOrder(w, r) && RegsOk(w)
    ensures QueueInOrder(Next(w, RegisterShard(n)).value, r)
  {
  }

  lemma FlagKeepsOrder<B>(w: World<B>, a: Action<B>, r: nat)
    requires QueueInOrder(w, r) && (a.Wake? || a.TakeWoke?)
    ensures QueueInOrder(Next(w, a).value, r)
  {
  }

  lemma CompleteKeepsOrder<B>(w: World<B>, cap: Cap, result: OpResult, r: nat)
    requires QueueInOrder(w, r) && RegsOk(w) && w.kernel.CanComplete(cap)
    ensures QueueInOrder(Next(w, Complete(cap, result)).value, r)
  {
    if w.kernel.Complete(cap, result).1.Posted? {
      PostKeepsOrder(w, cap, result, r);
    }
  }

  lemma PostKeepsOrder<B>(w: World<B>, cap: Cap, result: OpResult, r: nat)
    requires QueueInOrder(w, r) && RegsOk(w) && w.kernel.CanComplete(cap)
    requires w.kernel.Complete(cap, result).1.Posted?
    ensures QueueInOrder(Next(w, Complete(cap, result)).value, r)
  {
    var op, w' := w.kernel.ops[cap], Next(w, Complete(cap, result)).value;
    var entry := Completion(cap, if op.cancelling then Cancelled else result, op.buffer);
    ToQueueSnoc(w.posted, Entry(Serial(w.regs, op.queue), entry), r);
    if Serial(w.regs, op.queue) == r {
      assert w'.kernel.shards[op.queue].cq == w.kernel.shards[op.queue].cq + [entry];
    } else {
      assert ToQueue(w'.posted, r) == ToQueue(w.posted, r);
    }
  }

  lemma DrainKeepsOrder<B>(w: World<B>, cq: QueueId, r: nat)
    requires QueueInOrder(w, r) && RegsOk(w)
    ensures QueueInOrder(Next(w, Drain(cq)).value, r)
  {
    if cq in w.kernel.shards {
      ToQueueTag(w.drained, Serial(w.regs, cq), w.kernel.shards[cq].cq, r);
    } else {
      assert w.drained + Tag(Serial(w.regs, cq), []) == w.drained;
    }
  }

  /**
   * Queues: over every run, whatever the worker completes and how often, and also
   * when queue numbers come round, each registration's completions are drained in
   * posting order, within the bound of its queue.
   */
  lemma {:induction false} QueuesDrainInOrder<B>(capTableCapacity: nat, trace: seq<Action<B>>, r: nat)
    requires Run(Init(capTableCapacity), trace).Some?
    ensures RegsOk(Run(Init(capTableCapacity), trace).value)
    ensures QueueInOrder(Run(Init(capTableCapacity), trace).value, r)
  {
    if trace != [] {
      var before, a := trace[..|trace| - 1], trace[|trace| - 1];
      var w := Run(Init(capTableCapacity), before).value;
      QueuesDrainInOrder(capTableCapacity, before, r);
      StepKeepsRegs(w, a);
      StepKeepsOrder(w, a, r);
    }
  }

  // ----- completion protocol -----

  /**
   * The worker's side of the contract, for the completions that are posted:
   * finish an operation once, and report `Cancelled` only for one that is being
   * cancelled.
   */
  predicate Honest<B>(w: World<B>, a: Action<B>) {
    a.Complete? && w.kernel.CanComplete(a.cap) && w.kernel.Complete(a.cap, a.result).1.Posted? ==>
      var op := w.kernel.ops[a.cap];
      !op.completed && (a.result.Cancelled? ==> op.cancelling)
  }

  predicate HonestRun<B>(w: World<B>, trace: seq<Action<B>>) {
    trace == [] ||
    (var before := trace[..|trace| - 1];
     && HonestRun(w, before)
     && Run(w, before).Some?
     && Honest(Run(w, before).value, trace[|trace| - 1]))
  }

  /** The operations in the table belong to different submissions, and know what happened to them. */
  ghost predicate TableOk<B>(ops: map<Cap, OpState<B>>, holder: map<Cap, nat>, submits: nat,
                             postedBy: seq<nat>, cancelled: set<nat>)
  {
    && holder.Keys == ops.Keys
    && (forall c :: c in ops ==> holder[c] < submits && holder[c] % U32 == c)
    && (forall c, d :: c in ops && d in ops && c != d ==> holder[c] != holder[d])
    && (forall c :: c in ops ==> (ops[c].completed <==> holder[c] in postedBy))
    && (forall c :: c in ops ==> (ops[c].cancelling <==> holder[c] in cancelled))
  }

  ghost predicate HistoryOk<B>(w: World<B>) {
    && w.kernel.nextCap == w.submits % U32
    && |w.postedBy| == |w.posted|
    && (forall i :: 0 <= i < |w.postedBy| ==>
          w.postedBy[i] < w.submits && w.posted[i].completion.cap == w.postedBy[i] % U32)
    && (forall n :: n in w.cancelled ==> n < w.submits)
  }

  /** True of every run, whatever the worker does. */
  ghost predicate SerialsOk<B>(w: World<B>) {
    HistoryOk(w) && TableOk(w.kernel.ops, w.holder, w.submits, w.postedBy, w.cancelled)
  }

  /** On the histories alone: nothing was posted twice, and `Cancelled` stands for an accepted cancel. */
  ghost predicate Once<B>(posted: seq<Entry<B>>, postedBy: seq<nat>, cancelled: set<nat>) {
    && |postedBy| == |posted|
    && (forall i, j :: 0 <= i < j < |postedBy| ==> postedBy[i] != postedBy[j])
    && (forall i :: 0 <= i < |posted| ==> (posted[i].completion.result.Cancelled? <==> postedBy[i] in cancelled))
  }

  /** Each submission is posted at most once, as `Cancelled` exactly when its own cancel was accepted. */
  ghost predicate OncePerSubmission<B>(w: World<B>) {
    Once(w.posted, w.postedBy, w.cancelled)
  }

  lemma SubmitKeepsTable<B>(ops: map<Cap, OpState<B>>, holder: map<Cap, nat>, submits: nat,
                            postedBy: seq<nat>, cancelled: set<nat>, op: OpState<B>)
    requires TableOk(ops, holder, submits, postedBy, cancelled) && !op.completed && !op.cancelling
    requires submits !in postedBy && submits !in cancelled
    ensures var c := submits % U32; TableOk(ops[c := op], holder[c := submits], submits + 1, postedBy, cancelled)
  {
  }

  lemma CancelKeepsTable<B>(ops: map<Cap, OpState<B>>, holder: map<Cap, nat>, submits: nat,
                            postedBy: seq<nat>, cancelled: set<nat>, cap: Cap)
    requires TableOk(ops, holder, submits, postedBy, cancelled) && cap in ops
    ensures TableOk(ops[cap := ops[cap].(cancelling := true)], holder, submits, postedBy, cancelled + {holder[cap]})
  {
  }

  lemma CompleteKeepsTable<B>(ops: map<Cap, OpState<B>>, holder: map<Cap, nat>, submits: nat,
                              postedBy: seq<nat>, cancelled: set<nat>, cap: Cap)
    requires TableOk(ops, holder, submits, postedBy, cancelled) && cap in ops
    ensures var op := ops[cap].(buffer := None, completed := true);
            TableOk(ops[cap := op], holder, submits, postedBy + [holder[cap]], cancelled)
  {
  }

  lemma CloseKeepsTable<B>(ops: map<Cap, OpState<B>>, holder: map<Cap, nat>, submits: nat,
                           postedBy: seq<nat>, cancelled: set<nat>, cap: Cap)
    requires TableOk(ops, holder, submits, postedBy, cancelled)
    ensures TableOk(ops - {cap}, holder - {cap}, submits, postedBy, cancelled)
  {
  }

  lemma SubmitKeepsSerials<B>(w: World<B>, cq: QueueId, b: Option<B>)
    requires SerialsOk(w)
    ensures SerialsOk(Next(w, Submit(cq, b)).value)
  {
    if w.kernel.Submit(cq, b).1.Accepted? {
      var w' := Next(w, Submit(cq, b)).value;
      assert TableOk(w'.kernel.ops, w'.holder, w'.submits, w'.postedBy, w'.cancelled) by {
        var op := OpState(cq, b, false, false);
        SubmitKeepsTable(w.kernel.ops, w.holder, w.submits, w.postedBy, w.cancelled, op);
      }
      NextNumber(w.submits);
    }
  }

  lemma NextNumber(n: nat)
    ensures (n % U32 + 1) % U32 == (n + 1) % U32
  {
  }

  lemma CompleteKeepsSerials<B>(w: World<B>, cap: Cap, result: OpResult)
    requires SerialsOk(w) && w.kernel.CanComplete(cap)
    ensures SerialsOk(Next(w, Complete(cap, result)).value)
  {
    if w.kernel.Complete(cap, result).1.Posted? {
      CompleteKeepsTable(w.kernel.ops, w.holder, w.submits, w.postedBy, w.cancelled, cap);
    }
  }

  lemma CancelKeepsSerials<B>(w: World<B>, cap: Cap)
    requires SerialsOk(w)
    ensures SerialsOk(Next(w, Cancel(cap)).value)
  {
    if w.kernel.Cancel(cap).1.CancelRequested? {
      CancelKeepsTable(w.kernel.ops, w.holder, w.submits, w.postedBy, w.cancelled, cap);
    }
  }

  lemma CloseKeepsSerials<B>(w: World<B>, cap: Cap)
    requires SerialsOk(w)
    ensures SerialsOk(Next(w, Close(cap)).value)
  {
    CloseKeepsTable(w.kernel.ops, w.holder, w.submits, w.postedBy, w.cancelled, cap);
  }

  lemma StepKeepsSerials<B>(w: World<B>, a: Action<B>)
    requires SerialsOk(w) && Next(w, a).Some?
    ensures SerialsOk(Next(w, a).value)
  {
    match a {
      case Submit(cq, b) => SubmitKeepsSerials(w, cq, b);
      case Cancel(cap) => CancelKeepsSerials(w, cap);
      case Complete(cap, result) => CompleteKeepsSerials(w, cap, result);
      case Close(cap) => CloseKeepsSerials(w, cap);
      case _ =>
    }
  }

  /** Exactly: a step keeps every submission's result right if and only if the worker is honest in it. */
  lemma OnceExactlyWhenHonest<B>(w: World<B>, a: Action<B>)
    requires SerialsOk(w) && Next(w, a).Some?
    ensures OncePerSubmission(Next(w, a).value) <==> OncePerSubmission(w) && Honest(w, a)
  {
    match a {
      case Complete(cap, result) => CompleteKeepsOnce(w, cap, result);
      case Cancel(cap) => CancelKeepsOnce(w, cap);
      case _ =>
    }
  }

  /** An accepted cancel is of a submission that was not posted. */
  lemma CancelKeepsOnce<B>(w: World<B>, cap: Cap)
    requires SerialsOk(w)
    ensures OncePerSubmission(Next(w, Cancel(cap)).value) <==> OncePerSubmission(w)
  {
    if w.kernel.Cancel(cap).1.CancelRequested? {
      forall i | 0 <= i < |w.postedBy| ensures w.postedBy[i] != w.holder[cap] {
        assert w.postedBy[i] in w.postedBy;
      }
    }
  }

  lemma CompleteKeepsOnce<B>(w: World<B>, cap: Cap, result: OpResult)
    requires SerialsOk(w) && w.kernel.CanComplete(cap)
    ensures OncePerSubmission(Next(w, Complete(cap, result)).value) <==>
              OncePerSubmission(w) && Honest(w, Complete(cap, result))
  {
    if w.kernel.Complete(cap, result).1.Posted? {
      var op, n := w.kernel.ops[cap], w.holder[cap];
      var posted := Completion(cap, if op.cancelling then Cancelled else result, op.buffer);
      AppendOnce(w.posted, w.postedBy, w.cancelled, Entry(Serial(w.regs, op.queue), posted), n);
    }
  }

  lemma AppendOnce<B>(posted: seq<Entry<B>>, postedBy: seq<nat>, cancelled: set<nat>, e: Entry<B>, n: nat)
    requires |postedBy| == |posted|
    ensures Once(posted + [e], postedBy + [n], cancelled) <==>
              && Once(posted, postedBy, cancelled)
              && n !in postedBy
              && (e.completion.result.Cancelled? <==> n in cancelled)
  {
    var posted', postedBy', last := posted + [e], postedBy + [n], |posted|;
    assert posted'[last] == e && postedBy'[last] == n;
    assert forall i :: 0 <= i < last ==> posted'[i] == posted[i] && postedBy'[i] == postedBy[i];
    if Once(posted', postedBy', cancelled) {
      assert forall i :: 0 <= i < last ==> postedBy'[i] != postedBy'[last];
    }
  }

  /**
   * Completion protocol, over every run and also past the wrap of the capability
   * numbers: each submission is posted at most once, as `Cancelled` exactly when
   * its own cancel was accepted, if and only if the worker was honest all along.
   */
  lemma {:induction false} CompletionProtocol<B>(capTableCapacity: nat, trace: seq<Action<B>>)
    requires Run(Init(capTableCapacity), trace).Some?
    ensures SerialsOk(Run(Init(capTableCapacity), trace).value)
    ensures OncePerSubmission(Run(Init(capTableCapacity), trace).value) <==> HonestRun(Init(capTableCapacity), trace)
  {
    if trace != [] {
      var before, a := trace[..|trace| - 1], trace[|trace| - 1];
      var w := Run(Init(capTableCapacity), before).value;
      CompletionProtocol(capTableCapacity, before);
      StepKeepsSerials(w, a);
      OnceExactlyWhenHonest(w, a);
    }
  }

  /** While no capability number was handed out twice, that speaks of capabilities. */
  lemma OncePerCapability<B>(capTableCapacity: nat, trace: seq<Action<B>>)
    requires Run(Init(capTableCapacity), trace).Some? && HonestRun(Init(capTableCapacity), trace)
    requires Run(Init(capTableCapacity), trace).value.submits <= U32
    ensures var w := Run(Init(capTableCapacity), trace).value;
            && (forall i, j :: 0 <= i < j < |w.posted| ==> w.posted[i].completion.cap != w.posted[j].completion.cap)
            && (forall i :: 0 <= i < |w.posted| ==>
                  (w.posted[i].completion.result.Cancelled? <==> w.posted[i].completion.cap in w.cancelled))
  {
    CompletionProtocol(capTableCapacity, trace);
    var w := Run(Init(capTableCapacity), trace).value;
    SmallSerials(w.posted, w.postedBy, w.cancelled, w.submits);
  }

  lemma SmallSerials<B>(posted: seq<Entry<B>>, postedBy: seq<nat>, cancelled: set<nat>, submits: nat)
    requires Once(posted, postedBy, cancelled) && submits <= U32
    requires forall i :: 0 <= i < |posted| ==> postedBy[i] < submits && posted[i].completion.cap == postedBy[i] % U32
    ensures forall i, j :: 0 <= i < j < |posted| ==> posted[i].completion.cap != posted[j].completion.cap
    ensures forall i :: 0 <= i < |posted| ==>
              (posted[i].completion.result.Cancelled? <==> posted[i].completion.cap in cancelled)
  {
    assert forall i :: 0 <= i < |posted| ==> posted[i].completion.cap == postedBy[i];
  }

  // ----- wakes -----

  /** Some registration in the run hands out `q`. */
  predicate Reissued<B>(w: World<B>, trace: seq<Action<B>>, q: QueueId) {
    trace != [] &&
    (var before := trace[..|trace| - 1];
     || Reissued(w, before, q)
     || (trace[|trace| - 1].RegisterShard? && Run(w, before).Some? && Run(w, before).value.kernel.nextQueue == q))
  }

  lemma StepKeepsWake<B>(w: World<B>, a: Action<B>, q: QueueId)
    requires q in w.kernel.shards && Next(w, a).Some? && a != TakeWoke(q)
    ensures var w' := Next(w, a).value;
            && q in w'.kernel.shards
            && (a.RegisterShard? && w.kernel.nextQueue == q ==> !w'.kernel.shards[q].woke)
            && (!(a.RegisterShard? && w.kernel.nextQueue == q) && a != Wake(q) ==>
                  w'.kernel.shards[q].woke == w.kernel.shards[q].woke)
            && (a == Wake(q) ==> w'.kernel.shards[q].woke)
  {
  }

  lemma {:induction false} WakeStaysPending<B>(w: World<B>, q: QueueId, trace: seq<Action<B>>)
    requires q in w.kernel.shards && w.kernel.shards[q].woke && Run(w, trace).Some? && TakeWoke(q) !in trace
    ensures var w' := Run(w, trace).value;
            && q in w'.kernel.shards
            && (!Reissued(w, trace, q) ==> w'.kernel.shards[q].woke)
            && (Wake(q) !in trace ==> (w'.kernel.shards[q].woke <==> !Reissued(w, trace, q)))
  {
    if trace != [] {
      var before, a := trace[..|trace| - 1], trace[|trace| - 1];
      assert a in trace;
      assert forall b :: b in before ==> b in trace;
      WakeStaysPending(w, q, before);
      StepKeepsWake(Run(w, before).value, a, q);
    }
  }

  /**
   * A posted wake is not lost: however much happens first, unless the queue's
   * number is handed out anew, a wait on the queue does not block and the next
   * `take_woke` on it - the second half of a reactor wait - reports the wake. The
   * condition is exact for a single wake.
   */
  lemma WakeIsReported<B>(w: World<B>, q: QueueId, trace: seq<Action<B>>, minComplete: nat)
    requires q in w.kernel.shards && Run(Next(w, Wake(q)).value, trace).Some? && TakeWoke(q) !in trace
    ensures var w', k := Next(w, Wake(q)).value, Run(Next(w, Wake(q)).value, trace).value.kernel;
            && (!Reissued(w', trace, q) ==> k.WaitPass(q, minComplete).Ready? && k.TakeWoke(q).1)
            && (Wake(q) !in trace ==> (k.TakeWoke(q).1 <==> !Reissued(w', trace, q)))
  {
    WakeStaysPending(Next(w, Wake(q)).value, q, trace);
  }
}
