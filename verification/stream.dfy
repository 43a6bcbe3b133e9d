/**
 * The streaming reply: any number of cloned senders push values under a mutex,
 * the count of senders is a separate atomic, and one consumer drains the values
 * blocking, without blocking, or as a future.
 *
 * The consumer's read position is always 0, because every receive removes the
 * values it returns; the model leaves it out.
 */
module StreamReply {
  import opened Wrappers

  type Waker = nat

  datatype SendResult = Accepted | ReceiverDropped
  datatype RecvResult<+T> = Batch(values: seq<T>) | MustWait
  datatype PollCheck = Ended | Available | MayRegister

  function Min(a: nat, b: nat): nat {
    if a <= b then a else b
  }

  datatype State<+T> = State(values: seq<T>, done: bool, waker: Option<Waker>, senders: nat) {
    /** The lock section of `send`: the new state, the result, and the waker taken. */
    function Send(v: T): (State<T>, SendResult, Option<Waker>) {
      if done then (this, ReceiverDropped, None)
      else (this.(values := values + [v], waker := None), Accepted, waker)
    }

    /** The lock section of the last sender's drop. */
    function TakeWaker(): (State<T>, Option<Waker>) {
      (this.(waker := None), waker)
    }

    /** One pass of the loop in `recv_batch`; an empty batch reports the end. */
    function Recv(max: nat): (State<T>, RecvResult<T>) {
      if values != [] then
        var n := Min(|values|, max);
        (this.(values := values[n..]), Batch(values[..n]))
      else if senders == 0 then (this.(done := true), Batch([]))
      else (this, MustWait)
    }

    function TryRecv(max: nat): (State<T>, Option<seq<T>>) {
      if values == [] then (this, None)
      else
        var n := Min(|values|, max);
        (this.(values := values[n..]), Some(values[..n]))
    }

    /** The second lock section of a poll, up to the registration. */
    function CheckPoll(): PollCheck {
      if senders == 0 && values == [] then Ended
      else if values != [] then Available
      else MayRegister
    }

    predicate IsDone() {
      senders == 0 && values == []
    }
  }

  /**
   * An empty batch means the end of the stream exactly when it was not asked for
   * with a limit of zero while values were waiting.
   */
  lemma EmptyBatchMeansEnd<T>(s: State<T>, max: nat)
    requires s.Recv(max).1 == Batch([])
    ensures s.IsDone() <==> !(max == 0 && s.values != [])
  {
  }

  datatype TryResult<+T> = Values(values: seq<T>) | NotYet | SenderDropped

  /** What `try_recv` is documented to answer. */
  function DocumentedTryRecv<T>(s: State<T>, max: nat): TryResult<T> {
    if s.values != [] then Values(s.values[..Min(|s.values|, max)])
    else if s.senders == 0 then SenderDropped
    else NotYet
  }

  function ActualTryRecv<T>(s: State<T>, max: nat): TryResult<T> {
    match s.TryRecv(max).1
    case Some(values) => Values(values)
    case None => NotYet
  }

  /** `try_recv` answers as documented exactly until the stream has ended. */
  lemma TryRecvAsDocumentedExactlyWhen<T>(s: State<T>, max: nat)
    ensures ActualTryRecv(s, max) == DocumentedTryRecv(s, max) <==> !s.IsDone()
  {
  }

  class StreamShared<T> {
    var values: seq<T>
    var done: bool
    var waker: Option<Waker>
    var senders: nat

    ghost function Value(): State<T>
      reads this
    {
      State(values, done, waker, senders)
    }

    constructor ()
      ensures Value() == State([], false, None, 1)
    {
      values, done, waker, senders := [], false, None, 1;
    }

    method Send(v: T) returns (r: SendResult, wake: Option<Waker>)
      modifies this
      ensures (Value(), r, wake) == old(Value()).Send(v)
    {
      if done {
        return ReceiverDropped, None;
      }
      values := values + [v];
      wake := waker;
      waker := None;
      r := Accepted;
    }

    method Clone()
      modifies this
      ensures Value() == old(Value()).(senders := old(senders) + 1)
    {
      senders := senders + 1;
    }

    /** The atomic decrement of a drop; the last sender must go on to `TakeWaker`. */
    method ReleaseSender() returns (last: bool)
      requires senders > 0
      modifies this
      ensures Value() == old(Value()).(senders := old(senders) - 1)
      ensures last <==> senders == 0
    {
      last := senders == 1;
      senders := senders - 1;
    }

    method TakeWaker() returns (wake: Option<Waker>)
      modifies this
      ensures (Value(), wake) == old(Value()).TakeWaker()
    {
      wake := waker;
      waker := None;
    }

    method Recv(max: nat) returns (r: RecvResult<T>)
      modifies this
      ensures (Value(), r) == old(Value()).Recv(max)
    {
      if |values| > 0 {
        var n := Min(|values|, max);
        r := Batch(values[..n]);
        values := values[n..];
      } else if senders == 0 {
        done := true;
        r := Batch([]);
      } else {
        r := MustWait;
      }
    }

    method TryRecv(max: nat) returns (r: Option<seq<T>>)
      modifies this
      ensures (Value(), r) == old(Value()).TryRecv(max)
    {
      if |values| > 0 {
        var n := Min(|values|, max);
        r := Some(values[..n]);
        values := values[n..];
      } else {
        r := None;
      }
    }

    /** Collects what is left once every sender is gone: the loop of `collect`. */
    method Collect() returns (all: seq<T>)
      requires senders == 0
      modifies this
      ensures all == old(values)
      ensures Value() == old(Value()).(values := [], done := true)
    {
      all := [];
      var ended := false;
      while !ended
        invariant senders == 0 && waker == old(waker)
        invariant all + values == old(values)
        invariant if ended then values == [] && done else done == old(done)
        decreases !ended, |values|
      {
        var r := Recv(|values|);
        if r.values == [] {
          ended := true;
        }
        all := all + r.values;
      }
    }
  }
}

/**
 * All interleavings of one stream: its senders, its consumer, the mutex, the
 * condition variable and the registered waker.
 */
module StreamRuns {
  import opened Wrappers
  import opened StreamReply

  type SenderId = nat

  /** What a sender handle still has to do after a step of `send` or `drop`. */
  datatype Duty =
    | MustTakeWaker                    // decremented the count to zero, lock not yet taken
    | MustNotify(waker: Option<Waker>) // lock released, condition variable not yet notified
    | MustWake(w: Waker)               // notified, waker not yet woken

  datatype Consumer =
    | Idle
    | Polling(w: Waker)          // between the two lock sections of a poll
    | Registering(w: Waker)      // holds the mutex, has seen no value and a live sender
    | Repolling(w: Waker)        // the second section found values
    | Asleep(w: Waker)           // returned Pending; the future may still be dropped for another receive
    | EnteringWait(max: nat)     // holds the mutex, has seen no value and a live sender
    | Blocked(max: nat)          // in the condition variable
    | Retrying(max: nat)         // notified, about to take the mutex again
    | Dropped

  predicate HoldsLock(c: Consumer) {
    c.Registering? || c.EnteringWait?
  }

  datatype System<+T> = System(
    shared: State<T>,
    alive: set<SenderId>,
    duties: map<SenderId, Duty>,
    consumer: Consumer,
    accepted: seq<T>,
    delivered: seq<T>,
    ended: bool)

  datatype Action<+T> =
    | Send(id: SenderId, v: T)
    | Clone(from: SenderId, id: SenderId)
    | DropSender(id: SenderId)
    | Act(id: SenderId)
    | TryReceive(max: nat)
    | Receive(max: nat)
    | Wait
    | SpuriousWakeup
    | Poll(w: Waker)
    | Check
    | Register
    | DropReply

  function Init<T>(first: SenderId): System<T> {
    System(State([], false, None, 1), {first}, map[], Idle, [], [], false)
  }

  function Next<T>(s: System<T>, a: Action<T>): Option<System<T>> {
    match a
    case Send(id, v) =>
      if id !in s.alive || id in s.duties || HoldsLock(s.consumer) then None
      else
        var (shared, r, wake) := s.shared.Send(v);
        if r.ReceiverDropped? then Some(s)
        else Some(s.(shared := shared, accepted := s.accepted + [v], duties := s.duties[id := MustNotify(wake)]))
    case Clone(from, id) =>
      if from !in s.alive || id in s.alive || id in s.duties then None
      else Some(s.(shared := s.shared.(senders := s.shared.senders + 1), alive := s.alive + {id}))
    case DropSender(id) =>
      if id !in s.alive || id in s.duties || s.shared.senders == 0 then None
      else
        var n := s.shared.senders - 1;
        Some(s.(shared := s.shared.(senders := n), alive := s.alive - {id},
                duties := if n == 0 then s.duties[id := MustTakeWaker] else s.duties))
    case Act(id) => if id !in s.duties then None else Perform(s, id, s.duties[id])
    case TryReceive(max) =>
      if !(s.consumer.Idle? || s.consumer.Asleep?) then None
      else
        var (shared, r) := s.shared.TryRecv(max);
        var s' := s.(consumer := Idle);
        Some(if r.None? then s' else s'.(shared := shared, delivered := s.delivered + r.value))
    case Receive(max) =>
      if !(s.consumer.Idle? || s.consumer.Asleep? || s.consumer == Retrying(max)) then None
      else
        var (shared, r) := s.shared.Recv(max);
        Some(match r
             case MustWait => s.(consumer := EnteringWait(max))
             case Batch(values) =>
               s.(shared := shared, consumer := Idle, delivered := s.delivered + values,
                  ended := s.ended || s.shared.IsDone()))
    case Wait => if s.consumer.EnteringWait? then Some(s.(consumer := Blocked(s.consumer.max))) else None
    case SpuriousWakeup => if s.consumer.Blocked? then Some(s.(consumer := Retrying(s.consumer.max))) else None
    case Poll(w) =>
      if !(s.consumer.Idle? || s.consumer.Asleep? || s.consumer == Repolling(w)) then None
      else
        var (shared, r) := s.shared.TryRecv(|s.shared.values|);
        Some(if r.None? then s.(consumer := Polling(w))
             else s.(shared := shared, consumer := Idle, delivered := s.delivered + r.value))
    case Check =>
      if !s.consumer.Polling? then None
      else
        Some(match s.shared.CheckPoll()
             case Ended => s.(consumer := Idle, ended := true)
             case Available => s.(consumer := Repolling(s.consumer.w))
             case MayRegister => s.(consumer := Registering(s.consumer.w)))
    case Register =>
      if s.consumer.Registering? then
        Some(s.(shared := s.shared.(waker := Some(s.consumer.w)), consumer := Asleep(s.consumer.w)))
      else None
    case DropReply =>
      if s.consumer.Idle? || s.consumer.Asleep? then Some(s.(shared := s.shared.(done := true), consumer := Dropped))
      else None
  }

  /** The next step of a sender that has a duty. */
  function Perform<T>(s: System<T>, id: SenderId, duty: Duty): Option<System<T>> {
    match duty
    case MustTakeWaker =>
      if HoldsLock(s.consumer) then None
      else
        var (shared, wake) := s.shared.TakeWaker();
        Some(s.(shared := shared, duties := s.duties[id := MustNotify(wake)]))
    case MustNotify(wake) =>
      Some(s.(consumer := if s.consumer.Blocked? then Retrying(s.consumer.max) else s.consumer,
              duties := if wake.Some? then s.duties[id := MustWake(wake.value)] else s.duties - {id}))
    case MustWake(w) =>
      Some(s.(consumer := if s.consumer == Asleep(w) then Idle else s.consumer, duties := s.duties - {id}))
  }

  function Run<T>(first: SenderId, trace: seq<Action<T>>): Option<System<T>> {
    if trace == [] then Some(Init(first))
    else
      match Run(first, trace[..|trace| - 1])
      case None => None
      case Some(s) => Next(s, trace[|trace| - 1])
  }

  // ----- what every step keeps -----

  /** Something the consumer is waiting for has happened. */
  predicate Ready<T>(shared: State<T>) {
    shared.values != [] || shared.senders == 0
  }

  ghost predicate NotifyComing(duties: map<SenderId, Duty>) {
    exists id :: id in duties && !duties[id].MustWake?
  }

  ghost predicate TakeComing(duties: map<SenderId, Duty>) {
    exists id :: id in duties && duties[id].MustTakeWaker?
  }

  /** Some sender has taken `w` out and will wake it. */
  ghost predicate WakeComing(duties: map<SenderId, Duty>, w: Waker) {
    exists id :: id in duties && (duties[id] == MustNotify(Some(w)) || duties[id] == MustWake(w))
  }

  /** The last sender gone has its wake-up work still ahead while a consumer holds or waits for the mutex. */
  ghost predicate ConsumerSafe<T>(shared: State<T>, duties: map<SenderId, Duty>, c: Consumer) {
    match c
    case Blocked(_) => Ready(shared) ==> NotifyComing(duties)
    case EnteringWait(_) => shared.values == [] && (shared.senders == 0 ==> TakeComing(duties))
    case Registering(_) => shared.values == [] && (shared.senders == 0 ==> TakeComing(duties))
    case Repolling(_) => shared.values != []
    case Asleep(w) =>
      || WakeComing(duties, w)
      || (shared.waker == Some(w) && shared.values == [] && (shared.senders == 0 ==> TakeComing(duties)))
    case _ => true
  }

  ghost predicate Counted<T>(s: System<T>) {
    && s.shared.senders == |s.alive|
    && (forall id :: id in s.duties && s.duties[id].MustTakeWaker? ==> id !in s.alive && s.alive == {})
    && (s.shared.done && s.alive != {} ==> s.consumer.Dropped?)
    && (s.consumer.Dropped? ==> s.shared.done)
  }

  ghost predicate Delivery<T>(s: System<T>) {
    && s.accepted == s.delivered + s.shared.values
    && (s.ended ==> s.alive == {} && s.shared.values == [])
  }

  ghost predicate Inv<T>(s: System<T>) {
    && Counted(s)
    && Delivery(s)
    && ConsumerSafe(s.shared, s.duties, s.consumer)
  }

  lemma ActKeepsCounted<T>(s: System<T>, id: SenderId)
    requires Counted(s) && Next(s, Act(id)).Some?
    ensures Counted(Next(s, Act(id)).value)
  {
  }

  lemma DropKeepsCounted<T>(s: System<T>, id: SenderId)
    requires Counted(s) && Next(s, DropSender(id)).Some?
    ensures Counted(Next(s, DropSender(id)).value)
  {
    assert |s.alive - {id}| == |s.alive| - 1;
  }

  lemma SenderKeepsCounted<T>(s: System<T>, a: Action<T>)
    requires Counted(s) && (a.Send? || a.Clone?) && Next(s, a).Some?
    ensures Counted(Next(s, a).value)
  {
  }

  lemma StepKeepsCounted<T>(s: System<T>, a: Action<T>)
    requires Counted(s) && Next(s, a).Some?
    ensures Counted(Next(s, a).value)
  {
    match a {
      case Act(id) => ActKeepsCounted(s, id);
      case DropSender(id) => DropKeepsCounted(s, id);
      case Send(_, _) => SenderKeepsCounted(s, a);
      case Clone(_, _) => SenderKeepsCounted(s, a);
      case _ =>
    }
  }

  lemma StepKeepsDelivery<T>(s: System<T>, a: Action<T>)
    requires Counted(s) && Delivery(s) && Next(s, a).Some?
    ensures Delivery(Next(s, a).value)
  {
  }

  /** Work that some sender other than `id` has ahead of it stays ahead of it. */
  lemma OthersKeepDuties(duties: map<SenderId, Duty>, duties': map<SenderId, Duty>, id: SenderId)
    requires forall k :: k in duties && k != id ==> k in duties' && duties'[k] == duties[k]
    ensures NotifyComing(duties) && !(id in duties && !duties[id].MustWake?) ==> NotifyComing(duties')
    ensures TakeComing(duties) && !(id in duties && duties[id].MustTakeWaker?) ==> TakeComing(duties')
    ensures forall w :: WakeComing(duties, w) && !(id in duties && duties[id] in {MustNotify(Some(w)), MustWake(w)}) ==>
              WakeComing(duties', w)
  {
    if NotifyComing(duties) && !(id in duties && !duties[id].MustWake?) {
      var k :| k in duties && !duties[k].MustWake?;
      assert k in duties' && !duties'[k].MustWake?;
    }
    if TakeComing(duties) && !(id in duties && duties[id].MustTakeWaker?) {
      var k :| k in duties && duties[k].MustTakeWaker?;
      assert k in duties' && duties'[k].MustTakeWaker?;
    }
    forall w | WakeComing(duties, w) && !(id in duties && duties[id] in {MustNotify(Some(w)), MustWake(w)})
      ensures WakeComing(duties', w)
    {
      var k :| k in duties && (duties[k] == MustNotify(Some(w)) || duties[k] == MustWake(w));
      assert k in duties' && duties'[k] == duties[k];
    }
  }

  lemma SendIsSafe<T>(s: System<T>, id: SenderId, v: T)
    requires ConsumerSafe(s.shared, s.duties, s.consumer) && Next(s, Send(id, v)).Some?
    ensures var s' := Next(s, Send(id, v)).value; ConsumerSafe(s'.shared, s'.duties, s'.consumer)
  {
    var s' := Next(s, Send(id, v)).value;
    if !s.shared.done {
      OthersKeepDuties(s.duties, s'.duties, id);
      assert id in s'.duties && s'.duties[id] == MustNotify(s.shared.waker);
    }
  }

  lemma DropIsSafe<T>(s: System<T>, id: SenderId)
    requires ConsumerSafe(s.shared, s.duties, s.consumer) && Next(s, DropSender(id)).Some?
    ensures var s' := Next(s, DropSender(id)).value; ConsumerSafe(s'.shared, s'.duties, s'.consumer)
  {
    var s' := Next(s, DropSender(id)).value;
    OthersKeepDuties(s.duties, s'.duties, id);
    if s'.shared.senders == 0 {
      assert id in s'.duties && s'.duties[id].MustTakeWaker?;
    }
  }

  lemma ActIsSafe<T>(s: System<T>, id: SenderId)
    requires Counted(s) && ConsumerSafe(s.shared, s.duties, s.consumer) && Next(s, Act(id)).Some?
    ensures var s' := Next(s, Act(id)).value; ConsumerSafe(s'.shared, s'.duties, s'.consumer)
  {
    var s' := Next(s, Act(id)).value;
    OthersKeepDuties(s.duties, s'.duties, id);
    if id in s'.duties {
      assert s'.duties[id].MustNotify? || s'.duties[id].MustWake?;
    }
  }

  lemma StepKeepsConsumerSafe<T>(s: System<T>, a: Action<T>)
    requires Counted(s) && ConsumerSafe(s.shared, s.duties, s.consumer) && Next(s, a).Some?
    ensures var s' := Next(s, a).value; ConsumerSafe(s'.shared, s'.duties, s'.consumer)
  {
    match a {
      case Send(id, v) => SendIsSafe(s, id, v);
      case DropSender(id) => DropIsSafe(s, id);
      case Act(id) => ActIsSafe(s, id);
      case _ =>
    }
  }

  lemma {:induction false} Reachable<T>(first: SenderId, trace: seq<Action<T>>)
    requires Run(first, trace).Some?
    ensures Inv(Run(first, trace).value)
  {
    if trace != [] {
      Reachable(first, trace[..|trace| - 1]);
      var s, a := Run(first, trace[..|trace| - 1]).value, trace[|trace| - 1];
      StepKeepsCounted(s, a);
      StepKeepsDelivery(s, a);
      StepKeepsConsumerSafe(s, a);
    }
  }

  // ----- the theorems -----

  /**
   * Every interleaving delivers what the senders were told was accepted, in that
   * order and once; what is not delivered yet is still buffered. The consumer is
   * told of the end only when everything was delivered and no sender is left.
   */
  lemma DeliveredInOrder<T>(first: SenderId, trace: seq<Action<T>>)
    requires Run(first, trace).Some?
    ensures var s := Run(first, trace).value;
            && s.accepted == s.delivered + s.shared.values
            && (s.ended ==> s.accepted == s.delivered && s.alive == {})
  {
    Reachable(first, trace);
  }

  /** The end is final: after it nothing is accepted, so nothing can be missed. */
  lemma {:induction false} EndIsFinal<T>(first: SenderId, trace: seq<Action<T>>, more: seq<Action<T>>)
    requires Run(first, trace + more).Some? && Run(first, trace).Some? && Run(first, trace).value.ended
    ensures Run(first, trace + more).value.accepted == Run(first, trace).value.accepted
    ensures Run(first, trace + more).value.ended
  {
    if more == [] {
      assert trace + more == trace;
    } else {
      var shorter := more[..|more| - 1];
      assert (trace + more)[..|trace + more| - 1] == trace + shorter;
      EndIsFinal(first, trace, shorter);
      Reachable(first, trace + shorter);
    }
  }

  /**
   * No lost wake-up, blocking or asynchronous: whenever the consumer sleeps
   * although a value or the end of the stream is there for it, some sender is
   * still on its way to notify the condition variable or to wake that waker.
   */
  lemma NoLostWake<T>(first: SenderId, trace: seq<Action<T>>)
    requires Run(first, trace).Some? && Ready(Run(first, trace).value.shared)
    ensures var s := Run(first, trace).value;
            && (s.consumer.Blocked? ==> NotifyComing(s.duties))
            && (s.consumer.Asleep? ==>
                  || WakeComing(s.duties, s.consumer.w)
                  || (TakeComing(s.duties) && s.shared.waker == Some(s.consumer.w)))
  {
    Reachable(first, trace);
  }

  /** When no sender has work left, a sleeping consumer really has nothing to receive and may still get more. */
  lemma QuietConsumerHasNothing<T>(first: SenderId, trace: seq<Action<T>>)
    requires Run(first, trace).Some?
    requires Run(first, trace).value.duties == map[]
    requires Run(first, trace).value.consumer.Blocked? || Run(first, trace).value.consumer.Asleep?
    ensures var s := Run(first, trace).value;
            s.accepted == s.delivered && s.alive != {} && (s.consumer.Asleep? ==> s.shared.waker == Some(s.consumer.w))
  {
    Reachable(first, trace);
  }

  /** A sender is refused exactly when the consumer has dropped its reply. */
  lemma RefusedExactlyWhenDropped<T>(first: SenderId, trace: seq<Action<T>>, id: SenderId, v: T)
    requires Run(first, trace).Some? && id in Run(first, trace).value.alive
    ensures var s := Run(first, trace).value;
            s.shared.Send(v).1 == ReceiverDropped <==> DropReply in trace
  {
    Reachable(first, trace);
    HistoryOfHandles(first, trace);
  }

  // ----- what the consumer is answered -----

  /** The senders that were made and not dropped. */
  function Senders<T>(first: SenderId, trace: seq<Action<T>>): set<SenderId> {
    if trace == [] then {first}
    else
      var before := Senders(first, trace[..|trace| - 1]);
      match trace[|trace| - 1]
      case Clone(_, id) => before + {id}
      case DropSender(id) => before - {id}
      case _ => before
  }

  lemma {:induction false} HistoryOfHandles<T>(first: SenderId, trace: seq<Action<T>>)
    requires Run(first, trace).Some?
    ensures Run(first, trace).value.alive == Senders(first, trace)
    ensures Run(first, trace).value.consumer.Dropped? <==> DropReply in trace
  {
    if trace != [] {
      HistoryOfHandles(first, trace[..|trace| - 1]);
      StepKeepsHandles(Run(first, trace[..|trace| - 1]).value, trace[|trace| - 1]);
    }
  }

  lemma StepKeepsHandles<T>(s: System<T>, a: Action<T>)
    requires Next(s, a).Some?
    ensures var s' := Next(s, a).value;
            && s'.alive == (if a.Clone? then s.alive + {a.id} else if a.DropSender? then s.alive - {a.id} else s.alive)
            && (s'.consumer.Dropped? <==> s.consumer.Dropped? || a.DropReply?)
  {
  }

  /** The next values that were accepted and not delivered, at most `max` of them. */
  ghost function NextValues<T>(s: System<T>, max: nat): seq<T>
    requires s.delivered <= s.accepted
  {
    var waiting := s.accepted[|s.delivered|..];
    if |waiting| <= max then waiting else waiting[..max]
  }

  /**
   * Every receive, blocking, polling or not, delivers as many of the waiting values
   * as its limit allows. With none waiting, the stream has ended exactly when every
   * sender was dropped; until then a blocking receive waits and a poll registers.
   */
  lemma ReceiveAnswers<T>(first: SenderId, trace: seq<Action<T>>, max: nat)
    requires Run(first, trace).Some?
    ensures var s := Run(first, trace).value;
            && s.delivered <= s.accepted
            && (if s.delivered != s.accepted then
                  && s.shared.Recv(max).1 == Batch(NextValues(s, max))
                  && s.shared.TryRecv(max).1 == Some(NextValues(s, max))
                  && s.shared.CheckPoll().Available?
                else if Senders(first, trace) == {} then
                  && s.shared.Recv(max).1 == Batch([])
                  && s.shared.TryRecv(max).1 == None
                  && s.shared.CheckPoll().Ended?
                else
                  && s.shared.Recv(max).1 == MustWait
                  && s.shared.TryRecv(max).1 == None
                  && s.shared.CheckPoll().MayRegister?)
  {
    Reachable(first, trace);
    HistoryOfHandles(first, trace);
    var s := Run(first, trace).value;
    assert s.accepted[|s.delivered|..] == s.shared.values;
  }

  /** A poll that starts over finds its values: it cannot start over twice. */
  lemma RepollDelivers<T>(first: SenderId, trace: seq<Action<T>>)
    requires Run(first, trace).Some? && Run(first, trace).value.consumer.Repolling?
    ensures var s := Run(first, trace).value;
            var s' := Next(s, Poll(s.consumer.w));
            s'.Some? && s'.value.consumer == Idle && s'.value.delivered == s.accepted
              && s'.value.delivered != s.delivered
  {
    Reachable(first, trace);
  }

  lemma OneStep<T>(first: SenderId, a: Action<T>) returns (trace: seq<Action<T>>, s: System<T>)
    requires Next(Init(first), a).Some?
    ensures trace == [a] && Run(first, trace) == Some(s) && s == Next(Init(first), a).value
  {
    trace, s := [a], Next(Init(first), a).value;
    assert trace[..|trace| - 1] == [];
  }

  /** An ended stream is reached by dropping the only sender; `try_recv` then reports that nothing is there yet. */
  lemma TryRecvHidesEnd<T>(first: SenderId, max: nat) returns (trace: seq<Action<T>>)
    ensures Run(first, trace).Some?
    ensures var shared := Run(first, trace).value.shared;
            ActualTryRecv(shared, max) == NotYet && DocumentedTryRecv(shared, max) == SenderDropped
  {
    var s;
    trace, s := OneStep(first, DropSender(first));
  }

  /** A receive with limit zero reports an empty batch, as at the end, although a value is waiting. */
  lemma EmptyBatchBeforeEnd<T>(first: SenderId, v: T) returns (trace: seq<Action<T>>)
    ensures Run(first, trace).Some?
    ensures var shared := Run(first, trace).value.shared;
            shared.values == [v] && shared.Recv(0).1 == Batch([]) && !shared.IsDone()
  {
    var s;
    trace, s := OneStep(first, Send(first, v));
    assert s.shared.values == [v];
  }
}
