/**
 * What each kernel call answers, by what happened before it. Every answer is told
 * from the history of calls alone: which registrations, submissions, completions,
 * drains and wakes there were. Together with `KernelRuns` this fixes every call.
 */
module KernelAnswers {
  import opened Wrappers
  import opened Kernel
  import opened KernelRuns

  // ----- what a history says of a queue -----

  function Registrations<B>(trace: seq<Action<B>>): nat {
    if trace == [] then 0
    else Registrations(trace[..|trace| - 1]) + if trace[|trace| - 1].RegisterShard? then 1 else 0
  }

  /** Queue numbers are handed out in turn, modulo 2^32. */
  predicate HandsOut<B>(trace: seq<Action<B>>, q: QueueId) {
    Registrations(trace) % U32 == q
  }

  predicate InUse<B>(trace: seq<Action<B>>, q: QueueId) {
    q < U32 && q < Registrations(trace)
  }

  /** A wake of `q` was posted, and neither taken since nor lost with the number. */
  predicate Woken<B>(trace: seq<Action<B>>, q: QueueId) {
    trace != [] &&
    (var before := trace[..|trace| - 1];
     match trace[|trace| - 1]
     case Wake(p) => if p == q then InUse(before, q) else Woken(before, q)
     case TakeWoke(p) => p != q && Woken(before, q)
     case RegisterShard(_) => !HandsOut(before, q) && Woken(before, q)
     case _ => Woken(before, q))
  }

  /** The bound that the bearer of the number was registered with. */
  function BoundOf<B>(trace: seq<Action<B>>, q: QueueId): nat {
    if trace == [] then 0
    else
      var before := trace[..|trace| - 1];
      if trace[|trace| - 1].RegisterShard? && HandsOut(before, q) then trace[|trace| - 1].cqCapacity
      else BoundOf(before, q)
  }

  ghost predicate NumbersOk<B>(w: World<B>, trace: seq<Action<B>>) {
    w.registers == Registrations(trace) && w.kernel.nextQueue == w.registers % U32
  }

  ghost predicate QueueOk<B>(w: World<B>, trace: seq<Action<B>>, q: QueueId) {
    var shards := w.kernel.shards;
    && (q in shards <==> InUse(trace, q))
    && (q in shards ==> shards[q].woke == Woken(trace, q) && shards[q].cqCapacity == BoundOf(trace, q))
  }

  lemma StepKeepsNumbers<B>(w: World<B>, before: seq<Action<B>>, a: Action<B>)
    requires NumbersOk(w, before) && Next(w, a).Some?
    ensures NumbersOk(Next(w, a).value, before + [a])
  {
    assert (before + [a])[..|before|] == before;
    if a.RegisterShard? {
      NextNumber(w.registers);
    }
  }

  lemma StepKeepsQueue<B>(w: World<B>, before: seq<Action<B>>, a: Action<B>, q: QueueId)
    requires NumbersOk(w, before) && QueueOk(w, before, q) && Next(w, a).Some?
    ensures QueueOk(Next(w, a).value, before + [a], q)
  {
    var after := before + [a];
    assert after[..|before|] == before && after[|before|] == a;
    match a {
      case RegisterShard(n) => RegisterKeepsQueue(w, before, n, q);
      case Wake(p) => FlagKeepsQueue(w, before, a, q);
      case TakeWoke(p) => FlagKeepsQueue(w, before, a, q);
      case _ => OtherKeepsQueue(w, a, q);
    }
  }

  lemma FlagKeepsQueue<B>(w: World<B>, before: seq<Action<B>>, a: Action<B>, q: QueueId)
    requires QueueOk(w, before, q) && (a.Wake? || a.TakeWoke?)
    ensures QueueOk(Next(w, a).value, before + [a], q)
  {
    assert (before + [a])[..|before|] == before;
  }

  /** The other calls change no flag, bound or number of a queue. */
  lemma OtherKeepsQueue<B>(w: World<B>, a: Action<B>, q: QueueId)
    requires Next(w, a).Some? && !a.RegisterShard? && !a.Wake? && !a.TakeWoke?
    ensures var shards, shards' := w.kernel.shards, Next(w, a).value.kernel.shards;
            && (q in shards' <==> q in shards)
            && (q in shards ==> shards'[q].woke == shards[q].woke && shards'[q].cqCapacity == shards[q].cqCapacity)
  {
  }

  lemma RegisterKeepsQueue<B>(w: World<B>, before: seq<Action<B>>, n: nat, q: QueueId)
    requires NumbersOk(w, before) && QueueOk(w, before, q)
    ensures QueueOk(Next(w, RegisterShard(n)).value, before + [RegisterShard(n)], q)
  {
    var after := before + [RegisterShard(n)];
    assert after[..|before|] == before;
    InUseGrows(Registrations(before), q);
  }

  /** One more registration puts just the number that it hands out into use. */
  lemma InUseGrows(n: nat, q: QueueId)
    ensures q < U32 && q < n + 1 <==> (q < U32 && q < n) || q == n % U32
  {
  }

  lemma {:induction false} HistoryOfQueue<B>(capTableCapacity: nat, trace: seq<Action<B>>, q: QueueId)
    requires Run(Init(capTableCapacity), trace).Some?
    ensures NumbersOk(Run(Init(capTableCapacity), trace).value, trace)
    ensures QueueOk(Run(Init(capTableCapacity), trace).value, trace, q)
  {
    if trace != [] {
      var before, a := trace[..|trace| - 1], trace[|trace| - 1];
      HistoryOfQueue(capTableCapacity, before, q);
      StepKeepsNumbers(Run(Init(capTableCapacity), before).value, before, a);
      StepKeepsQueue(Run(Init(capTableCapacity), before).value, before, a, q);
      assert before + [a] == trace;
    }
  }

  // ----- registering, waking and waiting -----

  /** The completions posted to the bearer of `q` and not drained. */
  ghost function Undrained<B>(w: World<B>, q: QueueId): seq<Completion<B>>
    requires q in w.regs && QueueInOrder(w, w.regs[q])
  {
    var posted, drained := ToQueue(w.posted, w.regs[q]), ToQueue(w.drained, w.regs[q]);
    posted[|drained|..]
  }

  lemma UndrainedIsQueue<B>(capTableCapacity: nat, trace: seq<Action<B>>, q: QueueId)
    requires Run(Init(capTableCapacity), trace).Some? && InUse(trace, q)
    ensures var w := Run(Init(capTableCapacity), trace).value;
            && q in w.regs && QueueInOrder(w, w.regs[q]) && q in w.kernel.shards
            && Undrained(w, q) == w.kernel.shards[q].cq
  {
    HistoryOfQueue(capTableCapacity, trace, q);
    QueuesDrainInOrder(capTableCapacity, trace, 0);
    var w := Run(Init(capTableCapacity), trace).value;
    QueuesDrainInOrder(capTableCapacity, trace, w.regs[q]);
    assert ShardInOrder(w.kernel.shards[q], ToQueue(w.posted, w.regs[q]), ToQueue(w.drained, w.regs[q]));
  }

  /** Registrations hand out 0, 1, 2, ... modulo 2^32. */
  lemma RegisterAnswers<B>(capTableCapacity: nat, trace: seq<Action<B>>, cqCapacity: nat)
    requires Run(Init(capTableCapacity), trace).Some?
    ensures var k := Run(Init(capTableCapacity), trace).value.kernel;
            k.RegisterShard(cqCapacity).1 == Registrations(trace) % U32
  {
    HistoryOfQueue(capTableCapacity, trace, 0);
  }

  /**
   * A wait on a queue in use blocks exactly when no wake is pending and fewer
   * completions than asked for, but at least one, are posted and not drained.
   * Otherwise it reports their number, as the 32-bit cast leaves it.
   */
  lemma WaitAnswers<B>(capTableCapacity: nat, trace: seq<Action<B>>, q: QueueId, minComplete: nat)
    requires Run(Init(capTableCapacity), trace).Some?
    ensures var w := Run(Init(capTableCapacity), trace).value;
            if InUse(trace, q) then
              && q in w.regs && QueueInOrder(w, w.regs[q])
              && (var n := |Undrained(w, q)| % U32;
                  w.kernel.WaitPass(q, minComplete) ==
                  if !Woken(trace, q) && n < (if minComplete == 0 then 1 else minComplete) then Block else Ready(n))
            else w.kernel.WaitPass(q, minComplete) == UnknownQueue
  {
    HistoryOfQueue(capTableCapacity, trace, q);
    if InUse(trace, q) {
      UndrainedIsQueue(capTableCapacity, trace, q);
    }
  }

  /** A take reports a wake exactly when one is pending. */
  lemma TakeWokeAnswers<B>(capTableCapacity: nat, trace: seq<Action<B>>, q: QueueId)
    requires Run(Init(capTableCapacity), trace).Some?
    ensures Run(Init(capTableCapacity), trace).value.kernel.TakeWoke(q).1 <==> InUse(trace, q) && Woken(trace, q)
  {
    HistoryOfQueue(capTableCapacity, trace, q);
  }

  /** A drain hands over everything posted and not drained; the peek names the same entries in the same order. */
  lemma DrainAnswers<B>(capTableCapacity: nat, trace: seq<Action<B>>, q: QueueId)
    requires Run(Init(capTableCapacity), trace).Some?
    ensures var w := Run(Init(capTableCapacity), trace).value;
            var (caps, entries) := (w.kernel.ReadyCaps(q), w.kernel.Drain(q).1);
            && |caps| == |entries| && (forall i :: 0 <= i < |caps| ==> caps[i] == entries[i].cap)
            && (if InUse(trace, q) then
                  q in w.regs && QueueInOrder(w, w.regs[q]) && entries == Undrained(w, q)
                else entries == [])
  {
    HistoryOfQueue(capTableCapacity, trace, q);
    if InUse(trace, q) {
      UndrainedIsQueue(capTableCapacity, trace, q);
    }
  }

  /** After a drain nothing of the queue's registration is left to drain. */
  lemma DrainedCompletely<B>(capTableCapacity: nat, trace: seq<Action<B>>, q: QueueId)
    requires Run(Init(capTableCapacity), trace).Some? && InUse(trace, q)
    ensures var w' := Next(Run(Init(capTableCapacity), trace).value, Drain(q)).value;
            q in w'.regs && ToQueue(w'.drained, w'.regs[q]) == ToQueue(w'.posted, w'.regs[q])
  {
    UndrainedIsQueue(capTableCapacity, trace, q);
    var w := Run(Init(capTableCapacity), trace).value;
    var r := w.regs[q];
    assert ShardInOrder(w.kernel.shards[q], ToQueue(w.posted, r), ToQueue(w.drained, r));
    ToQueueTag(w.drained, r, w.kernel.shards[q].cq, r);
  }

  // ----- submissions -----

  /** The accepted submissions of a history, in order. */
  ghost function Accepted<B>(capTableCapacity: nat, trace: seq<Action<B>>): (given: seq<Action<B>>)
    ensures forall i :: 0 <= i < |given| ==> given[i].Submit?
  {
    if trace == [] then []
    else
      var before := trace[..|trace| - 1];
      var (w, w') := (Run(Init(capTableCapacity), before), Run(Init(capTableCapacity), trace));
      Accepted(capTableCapacity, before) +
      if trace[|trace| - 1].Submit? && w.Some? && w'.Some? && w'.value.submits > w.value.submits then
        [trace[|trace| - 1]]
      else []
  }

  /** An operation in the table goes to the queue, and until it is posted holds the buffer, it was submitted with. */
  ghost predicate OpsOk<B>(w: World<B>, given: seq<Action<B>>)
    requires forall i :: 0 <= i < |given| ==> given[i].Submit?
  {
    && |given| == w.submits
    && (forall c :: c in w.kernel.ops ==>
          && c in w.holder && w.holder[c] < |given|
          && w.kernel.ops[c].queue == given[w.holder[c]].cq && w.kernel.ops[c].queue in w.kernel.shards
          && w.kernel.ops[c].buffer == if w.holder[c] in w.postedBy then None else given[w.holder[c]].buffer)
  }

  /** A submission's buffer comes back with the first completion posted for it. */
  ghost predicate BuffersComeBack<B>(posted: seq<Entry<B>>, postedBy: seq<nat>, given: seq<Action<B>>)
    requires forall i :: 0 <= i < |given| ==> given[i].Submit?
  {
    && |posted| == |postedBy|
    && (forall i :: 0 <= i < |posted| ==>
          postedBy[i] < |given| &&
          posted[i].completion.returned == if postedBy[i] in postedBy[..i] then None else given[postedBy[i]].buffer)
  }

  lemma OtherKeepsOps<B>(w: World<B>, given: seq<Action<B>>, a: Action<B>)
    requires forall i :: 0 <= i < |given| ==> given[i].Submit?
    requires OpsOk(w, given) && Next(w, a).Some? && !a.Submit? && !a.Complete?
    ensures OpsOk(Next(w, a).value, given)
  {
    if a.Cancel? || a.Close? {
      TableKeepsOps(w, given, a);
    }
  }

  lemma TableKeepsOps<B>(w: World<B>, given: seq<Action<B>>, a: Action<B>)
    requires forall i :: 0 <= i < |given| ==> given[i].Submit?
    requires OpsOk(w, given) && (a.Cancel? || a.Close?)
    ensures OpsOk(Next(w, a).value, given)
  {
  }

  lemma SubmitKeepsOps<B>(w: World<B>, given: seq<Action<B>>, cq: QueueId, b: Option<B>)
    requires forall i :: 0 <= i < |given| ==> given[i].Submit?
    requires OpsOk(w, given) && SerialsOk(w)
    ensures var w' := Next(w, Submit(cq, b)).value;
            OpsOk(w', if w'.submits > w.submits then given + [Submit(cq, b)] else given)
  {
  }

  lemma CompleteKeepsOps<B>(w: World<B>, given: seq<Action<B>>, cap: Cap, result: OpResult)
    requires forall i :: 0 <= i < |given| ==> given[i].Submit?
    requires OpsOk(w, given) && SerialsOk(w) && Next(w, Complete(cap, result)).Some?
    ensures OpsOk(Next(w, Complete(cap, result)).value, given)
  {
    var w' := Next(w, Complete(cap, result)).value;
    if w'.postedBy != w.postedBy {
      assert w'.postedBy == w.postedBy + [w.holder[cap]];
      forall c | c in w'.kernel.ops && c != cap ensures w'.holder[c] in w'.postedBy <==> w.holder[c] in w.postedBy {
      }
    }
  }

  lemma CompleteReturns<B>(w: World<B>, given: seq<Action<B>>, cap: Cap, result: OpResult)
    requires forall i :: 0 <= i < |given| ==> given[i].Submit?
    requires OpsOk(w, given) && BuffersComeBack(w.posted, w.postedBy, given) && Next(w, Complete(cap, result)).Some?
    ensures var w' := Next(w, Complete(cap, result)).value; BuffersComeBack(w'.posted, w'.postedBy, given)
  {
    var w' := Next(w, Complete(cap, result)).value;
    forall i | 0 <= i < |w'.posted|
      ensures w'.postedBy[i] < |given| &&
              w'.posted[i].completion.returned
           == if w'.postedBy[i] in w'.postedBy[..i] then None else given[w'.postedBy[i]].buffer
    {
      assert w'.postedBy[..i] == w.postedBy[..i];
      assert i == |w.posted| ==> w.postedBy[..i] == w.postedBy;
    }
  }

  lemma GivenGrows<B>(posted: seq<Entry<B>>, postedBy: seq<nat>, given: seq<Action<B>>, a: Action<B>)
    requires (forall i :: 0 <= i < |given| ==> given[i].Submit?) && a.Submit?
    requires BuffersComeBack(posted, postedBy, given)
    ensures BuffersComeBack(posted, postedBy, given + [a])
  {
  }

  lemma StepKeepsSubmissions<B>(w: World<B>, given: seq<Action<B>>, a: Action<B>)
    requires forall i :: 0 <= i < |given| ==> given[i].Submit?
    requires OpsOk(w, given) && BuffersComeBack(w.posted, w.postedBy, given) && SerialsOk(w) && Next(w, a).Some?
    ensures var w' := Next(w, a).value;
            var given' := given + if a.Submit? && w'.submits > w.submits then [a] else [];
            OpsOk(w', given') && BuffersComeBack(w'.posted, w'.postedBy, given')
  {
    assert given + [] == given;
    match a {
      case Submit(cq, b) =>
        SubmitKeepsOps(w, given, cq, b);
        GivenGrows(w.posted, w.postedBy, given, a);
      case Complete(cap, result) =>
        CompleteKeepsOps(w, given, cap, result);
        CompleteReturns(w, given, cap, result);
      case _ => OtherKeepsOps(w, given, a);
    }
  }

  /**
   * In every run each operation goes to the queue it was submitted to, and its
   * buffer is the one that its first completion hands back.
   */
  lemma {:induction false} HistoryOfSubmissions<B>(capTableCapacity: nat, trace: seq<Action<B>>)
    requires Run(Init(capTableCapacity), trace).Some?
    ensures var w := Run(Init(capTableCapacity), trace).value;
            && OpsOk(w, Accepted(capTableCapacity, trace))
            && BuffersComeBack(w.posted, w.postedBy, Accepted(capTableCapacity, trace))
  {
    if trace != [] {
      var before, a := trace[..|trace| - 1], trace[|trace| - 1];
      HistoryOfSubmissions(capTableCapacity, before);
      CompletionProtocol(capTableCapacity, before);
      StepKeepsSubmissions(Run(Init(capTableCapacity), before).value, Accepted(capTableCapacity, before), a);
    }
  }

  /**
   * A submission is accepted exactly when its queue is in use and fewer operations
   * than the table holds are open; its capability is its serial number modulo 2^32.
   */
  lemma SubmitAnswers<B>(capTableCapacity: nat, trace: seq<Action<B>>, cq: QueueId, b: Option<B>)
    requires Run(Init(capTableCapacity), trace).Some?
    ensures var w := Run(Init(capTableCapacity), trace).value;
            w.kernel.Submit(cq, b).1 ==
            if !InUse(trace, cq) then BadArgs
            else if |w.holder| >= capTableCapacity then WouldBlock
            else SubmitResult.Accepted(|Accepted(capTableCapacity, trace)| % U32)
  {
    HistoryOfQueue(capTableCapacity, trace, cq);
    HistoryOfSubmissions(capTableCapacity, trace);
    CompletionProtocol(capTableCapacity, trace);
    CapacityIsFixed(capTableCapacity, trace);
    var w := Run(Init(capTableCapacity), trace).value;
    assert |w.holder| == |w.holder.Keys| == |w.kernel.ops.Keys| == |w.kernel.ops|;
  }

  lemma {:induction false} CapacityIsFixed<B>(capTableCapacity: nat, trace: seq<Action<B>>)
    requires Run(Init(capTableCapacity), trace).Some?
    ensures Run(Init(capTableCapacity), trace).value.kernel.capTableCapacity == capTableCapacity
  {
    if trace != [] {
      CapacityIsFixed(capTableCapacity, trace[..|trace| - 1]);
      StepKeepsCapacity(Run(Init(capTableCapacity), trace[..|trace| - 1]).value, trace[|trace| - 1]);
    }
  }

  lemma StepKeepsCapacity<B>(w: World<B>, a: Action<B>)
    requires Next(w, a).Some?
    ensures Next(w, a).value.kernel.capTableCapacity == w.kernel.capTableCapacity
  {
  }

  /** The table never holds more operations than it may. */
  lemma {:induction false} TableIsBounded<B>(capTableCapacity: nat, trace: seq<Action<B>>)
    requires Run(Init(capTableCapacity), trace).Some?
    ensures |Run(Init(capTableCapacity), trace).value.kernel.ops| <= capTableCapacity
  {
    CapacityIsFixed(capTableCapacity, trace);
    if trace != [] {
      var before := trace[..|trace| - 1];
      TableIsBounded(capTableCapacity, before);
      CapacityIsFixed(capTableCapacity, before);
      StepKeepsBound(Run(Init(capTableCapacity), before).value, trace[|trace| - 1]);
    }
  }

  lemma StepKeepsBound<B>(w: World<B>, a: Action<B>)
    requires |w.kernel.ops| <= w.kernel.capTableCapacity && Next(w, a).Some?
    ensures |Next(w, a).value.kernel.ops| <= w.kernel.capTableCapacity
  {
    var ops, ops' := w.kernel.ops, Next(w, a).value.kernel.ops;
    StepKeepsKeys(w, a);
    CountKeys(ops);
    CountKeys(ops');
  }

  lemma CountKeys<B>(ops: map<Cap, OpState<B>>)
    ensures |ops| == |ops.Keys|
  {
  }

  /** Only a submission adds a key to the table, and only below the bound. */
  lemma StepKeepsKeys<B>(w: World<B>, a: Action<B>)
    requires Next(w, a).Some?
    ensures var keys, keys' := w.kernel.ops.Keys, Next(w, a).value.kernel.ops.Keys;
            |keys'| <= |keys| || (|keys'| <= |keys| + 1 && |w.kernel.ops| < w.kernel.capTableCapacity)
  {
    match a {
      case Submit(cq, b) => SubmitAddsKey(w, cq, b);
      case Close(cap) => CloseDropsKey(w, cap);
      case _ => OthersKeepKeys(w, a);
    }
  }

  lemma SubmitAddsKey<B>(w: World<B>, cq: QueueId, b: Option<B>)
    ensures var keys, keys' := w.kernel.ops.Keys, Next(w, Submit(cq, b)).value.kernel.ops.Keys;
            keys' == keys || (|keys'| <= |keys| + 1 && |w.kernel.ops| < w.kernel.capTableCapacity)
  {
    if w.kernel.Submit(cq, b).1.Accepted? {
      assert Next(w, Submit(cq, b)).value.kernel.ops.Keys == w.kernel.ops.Keys + {w.kernel.nextCap};
    }
  }

  lemma CloseDropsKey<B>(w: World<B>, cap: Cap)
    ensures |Next(w, Close(cap)).value.kernel.ops.Keys| <= |w.kernel.ops.Keys|
  {
    if w.kernel.Close(cap).1.Closed? {
      assert Next(w, Close(cap)).value.kernel.ops.Keys == w.kernel.ops.Keys - {cap};
    }
  }

  lemma OthersKeepKeys<B>(w: World<B>, a: Action<B>)
    requires Next(w, a).Some? && !a.Submit? && !a.Close?
    ensures Next(w, a).value.kernel.ops.Keys == w.kernel.ops.Keys
  {
    if a.Complete? || a.Cancel? {
      TouchKeepsKeys(w, a);
    }
  }

  lemma TouchKeepsKeys<B>(w: World<B>, a: Action<B>)
    requires Next(w, a).Some? && (a.Complete? || a.Cancel?)
    ensures Next(w, a).value.kernel.ops.Keys == w.kernel.ops.Keys
  {
  }

  // ----- completing, cancelling and closing -----

  /**
   * The worker may complete exactly the open operations. A completion is posted
   * exactly when the undrained completions of the queue that the operation was
   * submitted to are fewer than the bound it was registered with.
   */
  lemma CompleteAnswers<B>(capTableCapacity: nat, trace: seq<Action<B>>, cap: Cap, result: OpResult)
    requires Run(Init(capTableCapacity), trace).Some?
    ensures var w, given := Run(Init(capTableCapacity), trace).value, Accepted(capTableCapacity, trace);
            && (w.kernel.CanComplete(cap) <==> cap in w.holder)
            && (cap in w.holder ==>
                  && w.holder[cap] < |given|
                  && (var q := given[w.holder[cap]].cq;
                      && q in w.regs && QueueInOrder(w, w.regs[q])
                      && (w.kernel.Complete(cap, result).1.Posted? <==> |Undrained(w, q)| < BoundOf(trace, q))))
  {
    HistoryOfSubmissions(capTableCapacity, trace);
    CompletionProtocol(capTableCapacity, trace);
    var w, given := Run(Init(capTableCapacity), trace).value, Accepted(capTableCapacity, trace);
    if cap in w.holder {
      var q := given[w.holder[cap]].cq;
      HistoryOfQueue(capTableCapacity, trace, q);
      UndrainedIsQueue(capTableCapacity, trace, q);
    }
  }

  /** A cancel is accepted exactly for an open operation whose completion was not posted. */
  lemma CancelAnswers<B>(capTableCapacity: nat, trace: seq<Action<B>>, cap: Cap)
    requires Run(Init(capTableCapacity), trace).Some?
    ensures var w := Run(Init(capTableCapacity), trace).value;
            w.kernel.Cancel(cap).1 ==
            if cap !in w.holder then CancelUnknown
            else if w.holder[cap] in w.postedBy then AlreadyComplete
            else CancelRequested
  {
    CompletionProtocol(capTableCapacity, trace);
  }

  /** A close is accepted exactly for an open operation whose completion was posted, and frees its place. */
  lemma CloseAnswers<B>(capTableCapacity: nat, trace: seq<Action<B>>, cap: Cap)
    requires Run(Init(capTableCapacity), trace).Some?
    ensures var w := Run(Init(capTableCapacity), trace).value;
            && (w.kernel.Close(cap).1 ==
                if cap !in w.holder then CloseUnknown
                else if w.holder[cap] in w.postedBy then Closed
                else NotComplete)
            && (w.kernel.Close(cap).1.Closed? ==> |w.kernel.Close(cap).0.ops| == |w.kernel.ops| - 1)
  {
    CompletionProtocol(capTableCapacity, trace);
    var w := Run(Init(capTableCapacity), trace).value;
    if w.kernel.Close(cap).1.Closed? {
      assert (w.kernel.ops - {cap}).Keys == w.kernel.ops.Keys - {cap};
    }
  }

  // ----- backpressure -----

  /** The completion of `cap` was refused, and its operation was submitted to `q`. */
  ghost predicate RefusedFor<B>(w: World<B>, w': World<B>, given: seq<Action<B>>, cap: Cap, q: QueueId)
    requires forall i :: 0 <= i < |given| ==> given[i].Submit?
  {
    |w'.posted| == |w.posted| && cap in w.holder && w.holder[cap] < |given| && given[w.holder[cap]].cq == q
  }

  /** Whether a refusal is outstanding after a step, if `was` says so before it. */
  ghost predicate StillRefused<B>(w: World<B>, w': World<B>, given: seq<Action<B>>, before: seq<Action<B>>,
                                  a: Action<B>, q: QueueId, was: bool)
    requires forall i :: 0 <= i < |given| ==> given[i].Submit?
  {
    match a
    case Complete(cap, _) => was || RefusedFor(w, w', given, cap, q)
    case Drain(p) => was && p != q
    case RegisterShard(_) => was && !HandsOut(before, q)
    case _ => was
  }

  /** A completion for `q` was refused, and `q` was neither drained nor handed out anew since. */
  ghost predicate Refused<B>(capTableCapacity: nat, trace: seq<Action<B>>, q: QueueId)
    requires Run(Init(capTableCapacity), trace).Some?
  {
    trace != [] &&
    (var before := trace[..|trace| - 1];
     StillRefused(Run(Init(capTableCapacity), before).value, Run(Init(capTableCapacity), trace).value,
                  Accepted(capTableCapacity, before), before, trace[|trace| - 1], q,
                  Refused(capTableCapacity, before, q)))
  }

  lemma CompleteRefuses<B>(w: World<B>, given: seq<Action<B>>, cap: Cap, result: OpResult, q: QueueId)
    requires forall i :: 0 <= i < |given| ==> given[i].Submit?
    requires OpsOk(w, given) && Next(w, Complete(cap, result)).Some?
    ensures var w' := Next(w, Complete(cap, result)).value;
            w'.kernel.OverflowPending(q) <==> w.kernel.OverflowPending(q) || RefusedFor(w, w', given, cap, q)
  {
    var w' := Next(w, Complete(cap, result)).value;
    assert w.kernel.Complete(cap, result).1.Posted? <==> |w'.posted| != |w.posted|;
  }

  lemma StepRefuses<B>(w: World<B>, given: seq<Action<B>>, before: seq<Action<B>>, a: Action<B>, q: QueueId)
    requires forall i :: 0 <= i < |given| ==> given[i].Submit?
    requires OpsOk(w, given) && NumbersOk(w, before) && Next(w, a).Some?
    ensures var w' := Next(w, a).value;
            w'.kernel.OverflowPending(q) <==> StillRefused(w, w', given, before, a, q, w.kernel.OverflowPending(q))
  {
    if a.Complete? {
      CompleteRefuses(w, given, a.cap, a.result, q);
    }
  }

  /** Overflow is pending exactly while a completion was refused and the queue was not drained since. */
  lemma {:induction false} OverflowAnswers<B>(capTableCapacity: nat, trace: seq<Action<B>>, q: QueueId)
    requires Run(Init(capTableCapacity), trace).Some?
    ensures Run(Init(capTableCapacity), trace).value.kernel.OverflowPending(q) <==> Refused(capTableCapacity, trace, q)
  {
    if trace != [] {
      var before, a := trace[..|trace| - 1], trace[|trace| - 1];
      OverflowAnswers(capTableCapacity, before, q);
      HistoryOfQueue(capTableCapacity, before, q);
      HistoryOfSubmissions(capTableCapacity, before);
      StepRefuses(Run(Init(capTableCapacity), before).value, Accepted(capTableCapacity, before), before, a, q);
    }
  }
}
