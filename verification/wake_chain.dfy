/**
 * The no_std wake chain: sender -> ring -> registered waker -> ready queue ->
 * reactor, interleaved with the receiving task and the executor loop.
 *
 * Every load, slot access, store, lock section and wake is its own action. The
 * ring is the step model of `RingSteps`, so the channel is exercised at the
 * level of its individual index loads and stores. The reactor is its contract:
 * a posted wake stays pending until a wait returns and clears it, and several
 * wakes coalesce.
 */
module WakeChain {
  import opened Wrappers
  import Ring = RingSteps

  type ThreadId = Ring.ThreadId
  type TaskId = nat

  /** A thread outside the shard: a sender, a closer, or the owner of some other task's waker. */
  datatype Thread<+M> =
    | Idle
    | SawOpen(item: M)          // try_send read `closed == false`
    | Pushing                   // holds the push lock
    | MustTakeWaker             // pushed or closed, about to call wake_receiver
    | HoldsWaker(task: TaskId)  // about to run mark_ready(task)
    | MustWakeReactor           // ran the locked half of mark_ready

  /** Where the receiving task is inside `Recv::poll`. */
  datatype Receive = NotPolling | FirstPop | FirstCheck | Register | SecondPop | SecondCheck

  /** Where the shard is inside `ShardExecutor::run`. */
  datatype Loop =
    | TakeReady(polled: nat)
    | PollReceiver(polled: nat)
    | PollOther(polled: nat, task: TaskId)
    | CheckLive
    | CheckReady
    | EnterWait
    | Waiting
    | WaitReturned
    | Finished

  /**
   * `live` are the unfinished tasks, `woke` is the reactor's pending wake, and
   * `drainedAt` is how many messages had been sent when the receiver last found
   * the ring empty.
   */
  datatype State<+M> = State(
    ring: Ring.State<M>,
    closed: bool,
    waker: bool,
    threads: map<ThreadId, Thread<M>>,
    receive: Receive,
    loop: Loop,
    queue: seq<TaskId>,
    live: set<TaskId>,
    woke: bool,
    drainedAt: nat
  )

  datatype Config = Config(capacity: nat, tasks: nat, receiver: TaskId, budget: nat) {
    /** `channel` refuses fewer than two slots; `with_poll_budget` raises zero to one. */
    predicate Valid() {
      capacity >= 2 && receiver < tasks && budget >= 1
    }
  }

  datatype Action<+M> =
    | LoadClosed(t: ThreadId, item: M)
    | LockPush(t: ThreadId)
    | PushStep(t: ThreadId, step: Ring.Action<M>)
    | UnlockPush(t: ThreadId)
    | StoreClosed(t: ThreadId)
    | TakeWaker(t: ThreadId)
    | FireOther(t: ThreadId, task: TaskId)
    | MarkReady(t: ThreadId)
    | WakeReactor(t: ThreadId)
    | Take
    | PopStep(step: Ring.Action<M>)
    | PopReturn
    | LoadClosedAgain
    | RegisterWaker
    | OtherReturns(done: bool)
    | LoopCheck
    | WaitReturns
    | WaitFails
    | ClearWake

  function Tasks(n: nat): (r: set<TaskId>)
    ensures forall t: TaskId :: t in r <==> t < n
  {
    if n == 0 then {} else Tasks(n - 1) + {n - 1}
  }

  function Init<M>(c: Config): State<M> {
    State(Ring.Init(c.capacity), false, false, map[], NotPolling, TakeReady(0),
          seq(c.tasks, i => i), Tasks(c.tasks), false, 0)
  }

  function Pc<M>(s: State<M>, t: ThreadId): Thread<M> {
    if t in s.threads then s.threads[t] else Idle
  }

  function Move<M>(s: State<M>, t: ThreadId, pc: Thread<M>): State<M> {
    s.(threads := s.threads[t := pc])
  }

  function RingNext<M>(s: State<M>, a: Ring.Action<M>): Option<State<M>> {
    if Ring.InBounds(s.ring) && Ring.Next(s.ring, a).Some? then Some(s.(ring := Ring.Next(s.ring, a).value)) else None
  }

  function NextThread<M>(c: Config, s: State<M>, a: Action<M>): Option<State<M>> {
    match a
    case LoadClosed(t, m) =>
      if Pc(s, t).Idle? then Some(Move(s, t, if s.closed then Idle else SawOpen(m))) else None
    case LockPush(t) =>
      if Pc(s, t).SawOpen? && RingNext(s, Ring.Lock(t, Pc(s, t).item)).Some? then
        Some(Move(RingNext(s, Ring.Lock(t, Pc(s, t).item)).value, t, Pushing))
      else None
    case PushStep(t, step) =>
      if && Pc(s, t).Pushing?
         && (step.LoadHead? || step.LoadTail? || step.WriteSlot? || step.StoreHead?)
      then RingNext(s, step)
      else None
    case UnlockPush(t) =>
      if Pc(s, t).Pushing? && RingNext(s, Ring.Unlock).Some? then
        Some(Move(RingNext(s, Ring.Unlock).value, t, if s.ring.producer.Pushed? then MustTakeWaker else Idle))
      else None
    case StoreClosed(t) =>
      if Pc(s, t).Idle? then Some(Move(s.(closed := true), t, MustTakeWaker)) else None
    case TakeWaker(t) =>
      if Pc(s, t).MustTakeWaker? then
        Some(Move(s.(waker := false), t, if s.waker then HoldsWaker(c.receiver) else Idle))
      else None
    case FireOther(t, task) =>
      if Pc(s, t).Idle? then Some(Move(s, t, HoldsWaker(task))) else None
    case MarkReady(t) =>
      if Pc(s, t).HoldsWaker? then
        var task := Pc(s, t).task;
        Some(Move(s.(queue := if task < c.tasks && task !in s.queue then s.queue + [task] else s.queue), t,
                  MustWakeReactor))
      else None
    case WakeReactor(t) =>
      if Pc(s, t).MustWakeReactor? then Some(Move(s.(woke := true), t, Idle)) else None
    case _ => None
  }

  /** The receiving task: a message loop that awaits `recv` until it yields `None`. */
  function NextReceive<M>(c: Config, s: State<M>, a: Action<M>): Option<State<M>> {
    if !s.loop.PollReceiver? then None
    else
      match a
      case PopStep(step) =>
        if && (s.receive.FirstPop? || s.receive.SecondPop?)
           && (step.ConsumerLoadTail? || step.ConsumerLoadHead? || step.ReadSlot? || step.StoreTail?)
           && RingNext(s, step).Some?
        then
          var s' := RingNext(s, step).value;
          Some(if s'.ring.consumer.SawEmpty? then s'.(drainedAt := |s'.ring.sent|) else s')
        else None
      case PopReturn =>
        if (s.receive.FirstPop? || s.receive.SecondPop?) && RingNext(s, Ring.Return).Some? then
          var s' := RingNext(s, Ring.Return).value;
          Some(s'.(receive := if s.ring.consumer.Popped? then FirstPop
                              else if s.receive.FirstPop? then FirstCheck
                              else SecondCheck))
        else None
      case LoadClosedAgain =>
        if s.receive.FirstCheck? || s.receive.SecondCheck? then
          if s.closed then
            Some(s.(live := s.live - {c.receiver}, receive := NotPolling, loop := TakeReady(s.loop.polled + 1)))
          else if s.receive.FirstCheck? then Some(s.(receive := Register))
          else Some(s.(receive := NotPolling, loop := TakeReady(s.loop.polled + 1)))
        else None
      case RegisterWaker =>
        if s.receive.Register? then Some(s.(waker := true, receive := SecondPop)) else None
      case _ => None
  }

  function NextLoop<M>(c: Config, s: State<M>, a: Action<M>): Option<State<M>> {
    match a
    case Take =>
      if s.loop.TakeReady? then
        if s.loop.polled < c.budget && s.queue != [] then
          var task, s' := s.queue[0], s.(queue := s.queue[1..]);
          if task !in s.live then Some(s'.(loop := TakeReady(s.loop.polled + 1)))
          else if task == c.receiver then Some(s'.(loop := PollReceiver(s.loop.polled), receive := FirstPop))
          else Some(s'.(loop := PollOther(s.loop.polled, task)))
        else Some(s.(loop := CheckLive))
      else None
    case OtherReturns(done) =>
      if s.loop.PollOther? then
        Some(s.(loop := TakeReady(s.loop.polled + 1), live := if done then s.live - {s.loop.task} else s.live))
      else None
    case LoopCheck =>
      if s.loop.CheckLive? then Some(s.(loop := if s.live == {} then Finished else CheckReady))
      else if s.loop.CheckReady? then Some(s.(loop := if s.queue == [] then EnterWait else TakeReady(0)))
      else if s.loop.EnterWait? then Some(s.(loop := Waiting))
      else None
    case WaitReturns =>
      if s.loop.Waiting? then Some(s.(loop := WaitReturned)) else None
    case WaitFails =>
      if s.loop.Waiting? then Some(s.(loop := TakeReady(0))) else None
    case ClearWake =>
      if s.loop.WaitReturned? then Some(s.(loop := TakeReady(0), woke := false)) else None
    case _ => None
  }

  function Next<M>(c: Config, s: State<M>, a: Action<M>): Option<State<M>> {
    match a
    case PopStep(_) => NextReceive(c, s, a)
    case PopReturn => NextReceive(c, s, a)
    case LoadClosedAgain => NextReceive(c, s, a)
    case RegisterWaker => NextReceive(c, s, a)
    case Take => NextLoop(c, s, a)
    case OtherReturns(_) => NextLoop(c, s, a)
    case LoopCheck => NextLoop(c, s, a)
    case WaitReturns => NextLoop(c, s, a)
    case WaitFails => NextLoop(c, s, a)
    case ClearWake => NextLoop(c, s, a)
    case _ => NextThread(c, s, a)
  }

  function Exec<M>(c: Config, trace: seq<Action<M>>): Option<State<M>> {
    if trace == [] then Some(Init(c))
    else
      match Exec(c, trace[..|trace| - 1])
      case None => None
      case Some(s) => Next(c, s, trace[|trace| - 1])
  }

  // ----- what is in flight -----

  predicate HasMail<M>(s: State<M>) {
    |s.ring.received| < |s.ring.sent|
  }

  /** Some sender or closer is between its store and its take of the receive waker. */
  ghost predicate TakePending<M>(s: State<M>) {
    s.ring.producer.Pushed? || TakerWaits(s)
  }

  ghost predicate TakerWaits<M>(s: State<M>) {
    exists t: ThreadId :: Pc(s, t).MustTakeWaker?
  }

  /** Some thread took the receiver's waker and has not yet queued the task. */
  ghost predicate WakerTaken<M>(c: Config, s: State<M>) {
    exists t: ThreadId :: Pc(s, t) == HoldsWaker(c.receiver)
  }

  /** The reactor has a pending wake, or some thread is about to post one. */
  ghost predicate ReactorWakePending<M>(s: State<M>) {
    s.woke || ReactorWakerWaits(s)
  }

  ghost predicate ReactorWakerWaits<M>(s: State<M>) {
    exists t: ThreadId :: Pc(s, t).MustWakeReactor?
  }

  /** A wake that will get the receiver polled again is at one of its stages. */
  ghost predicate WakeInFlight<M>(c: Config, s: State<M>) {
    || (s.waker && TakePending(s))
    || WakerTaken(c, s)
    || (c.receiver in s.queue && ReactorWakePending(s))
  }

  // ----- the invariant -----

  ghost predicate LockAgrees<M>(s: State<M>) {
    forall t: ThreadId :: Pc(s, t).Pushing? <==> !s.ring.producer.Unlocked? && s.ring.producer.owner == t
  }

  ghost predicate Wiring<M>(c: Config, s: State<M>) {
    && s.ring.capacity == c.capacity
    && LockAgrees(s)
    && (s.ring.consumer.Outside? || s.receive.FirstPop? || s.receive.SecondPop?)
    && (s.receive.NotPolling? <==> !s.loop.PollReceiver?)
    && (s.loop.PollReceiver? ==> c.receiver in s.live)
    && (s.loop.PollOther? ==> s.loop.task != c.receiver)
    && (s.loop.Finished? ==> c.receiver !in s.live)
  }

  /** The receiver will be re-polled if a sender or closer arrives from now on. */
  ghost predicate Armed<M>(c: Config, s: State<M>) {
    s.waker || WakerTaken(c, s) || c.receiver in s.queue
  }

  /** The receiver will be re-polled, also for what has already arrived. */
  ghost predicate Covered<M>(c: Config, s: State<M>, arrived: bool) {
    (s.waker && (arrived ==> TakePending(s))) || WakerTaken(c, s) || c.receiver in s.queue
  }

  ghost predicate ReceiverSafe<M>(c: Config, s: State<M>) {
    c.receiver in s.live ==>
      match s.receive
      case NotPolling => Covered(c, s, HasMail(s) || s.closed)
      case SecondPop => if s.ring.consumer.SawEmpty? then Covered(c, s, HasMail(s)) else Armed(c, s)
      case SecondCheck => Covered(c, s, HasMail(s))
      case _ => true
  }

  ghost predicate QueueSafe<M>(s: State<M>) {
    (s.loop.EnterWait? || s.loop.Waiting?) && s.queue != [] ==> ReactorWakePending(s)
  }

  /** `drainedAt` is exact whenever the task is about to act on an empty ring, and after it finished. */
  ghost predicate DrainSafe<M>(c: Config, s: State<M>) {
    && (s.receive.FirstCheck? || s.receive.SecondCheck? || s.ring.consumer.SawEmpty? || c.receiver !in s.live ==>
          |s.ring.received| == s.drainedAt)
    && (c.receiver !in s.live ==> s.closed)
  }

  /** The invariant apart from the ring's own. */
  ghost predicate Safe<M>(c: Config, s: State<M>) {
    c.Valid() && Wiring(c, s) && ReceiverSafe(c, s) && QueueSafe(s) && DrainSafe(c, s)
  }

  ghost predicate Inv<M>(c: Config, s: State<M>) {
    Ring.Inv(s.ring) && Safe(c, s)
  }

  lemma InitInv<M>(c: Config)
    requires c.Valid()
    ensures Inv(c, Init<M>(c))
  {
    Ring.InitInv<M>(c.capacity);
    var tasks := seq(c.tasks, i => i);
    assert tasks[c.receiver] == c.receiver;
  }

  /** When only thread `t` moves, what the other threads owe is still owed. */
  lemma OthersPersist<M>(c: Config, s: State<M>, s': State<M>, t: ThreadId)
    requires t in s'.threads && s'.threads == s.threads[t := s'.threads[t]]
    ensures forall u: ThreadId :: u != t ==> Pc(s', u) == Pc(s, u)
    ensures TakerWaits(s) && !Pc(s, t).MustTakeWaker? ==> TakerWaits(s')
    ensures WakerTaken(c, s) && Pc(s, t) != HoldsWaker(c.receiver) ==> WakerTaken(c, s')
    ensures ReactorWakerWaits(s) && !Pc(s, t).MustWakeReactor? ==> ReactorWakerWaits(s')
  {
    if TakerWaits(s) && !Pc(s, t).MustTakeWaker? {
      var u: ThreadId :| Pc(s, u).MustTakeWaker?;
      assert Pc(s', u).MustTakeWaker?;
    }
    if WakerTaken(c, s) && Pc(s, t) != HoldsWaker(c.receiver) {
      var u: ThreadId :| Pc(s, u) == HoldsWaker(c.receiver);
      assert Pc(s', u) == HoldsWaker(c.receiver);
    }
    if ReactorWakerWaits(s) && !Pc(s, t).MustWakeReactor? {
      var u: ThreadId :| Pc(s, u).MustWakeReactor?;
      assert Pc(s', u).MustWakeReactor?;
    }
  }

  /** When no thread moves, everything owed is still owed. */
  lemma AllPersist<M>(c: Config, s: State<M>, s': State<M>)
    requires s'.threads == s.threads
    ensures forall u: ThreadId :: Pc(s', u) == Pc(s, u)
    ensures TakerWaits(s) ==> TakerWaits(s')
    ensures WakerTaken(c, s) ==> WakerTaken(c, s')
    ensures ReactorWakerWaits(s) ==> ReactorWakerWaits(s')
  {
    if TakerWaits(s) {
      var u: ThreadId :| Pc(s, u).MustTakeWaker?;
      assert Pc(s', u).MustTakeWaker?;
    }
    if WakerTaken(c, s) {
      var u: ThreadId :| Pc(s, u) == HoldsWaker(c.receiver);
      assert Pc(s', u) == HoldsWaker(c.receiver);
    }
    if ReactorWakerWaits(s) {
      var u: ThreadId :| Pc(s, u).MustWakeReactor?;
      assert Pc(s', u).MustWakeReactor?;
    }
  }

  predicate IsSend<M>(a: Action<M>) {
    a.LockPush? || a.PushStep? || a.UnlockPush?
  }

  /** Steps of outside threads that leave the ring alone. */
  lemma SignalStepIsSafe<M>(c: Config, s: State<M>, a: Action<M>)
    requires Safe(c, s) && !IsSend(a) && NextThread(c, s, a).Some?
    ensures Safe(c, NextThread(c, s, a).value)
    ensures NextThread(c, s, a).value.ring == s.ring
  {
    var s' := NextThread(c, s, a).value;
    OthersPersist(c, s, s', a.t);
    assert Pc(s', a.t) == s'.threads[a.t];
  }

  lemma SendStepIsSafe<M>(c: Config, s: State<M>, a: Action<M>)
    requires Safe(c, s) && IsSend(a) && NextThread(c, s, a).Some?
    ensures Safe(c, NextThread(c, s, a).value)
  {
    var s' := NextThread(c, s, a).value;
    if a.PushStep? {
      AllPersist(c, s, s');
    } else {
      OthersPersist(c, s, s', a.t);
      assert Pc(s', a.t) == s'.threads[a.t];
    }
  }

  lemma LoopStepIsSafe<M>(c: Config, s: State<M>, a: Action<M>)
    requires Safe(c, s) && NextLoop(c, s, a).Some?
    ensures Safe(c, NextLoop(c, s, a).value)
    ensures NextLoop(c, s, a).value.ring == s.ring
  {
    if a.Take? {
      TakeIsSafe(c, s);
    } else {
      AllPersist(c, s, NextLoop(c, s, a).value);
      LoopKeepsReceiver(c, s, NextLoop(c, s, a).value);
    }
  }

  lemma LoopKeepsReceiver<M>(c: Config, s: State<M>, s': State<M>)
    requires ReceiverSafe(c, s)
    requires s' == s.(loop := s'.loop, woke := s'.woke, live := s'.live)
    requires c.receiver in s'.live <==> c.receiver in s.live
    ensures ReceiverSafe(c, s')
  {
    AllPersist(c, s, s');
  }

  lemma TakeIsSafe<M>(c: Config, s: State<M>)
    requires Safe(c, s) && s.loop.TakeReady?
    ensures Safe(c, NextLoop(c, s, Take).value)
    ensures NextLoop(c, s, Take).value.ring == s.ring
  {
    TakeKeepsReceiver(c, s);
    TakeKeepsRest(c, s);
  }

  lemma TakeKeepsRest<M>(c: Config, s: State<M>)
    requires c.Valid() && Wiring(c, s) && DrainSafe(c, s) && s.loop.TakeReady?
    ensures var s' := NextLoop(c, s, Take).value;
            Wiring(c, s') && QueueSafe(s') && DrainSafe(c, s') && s'.ring == s.ring
  {
    AllPersist(c, s, NextLoop(c, s, Take).value);
  }

  /** Taking the front task leaves the receiver queued unless it is the one taken. */
  lemma TakeKeepsReceiver<M>(c: Config, s: State<M>)
    requires s.loop.TakeReady? && s.receive.NotPolling? && ReceiverSafe(c, s)
    ensures ReceiverSafe(c, NextLoop(c, s, Take).value)
  {
    var s' := NextLoop(c, s, Take).value;
    if s.loop.polled >= c.budget || s.queue == [] {
      LoopKeepsReceiver(c, s, s');
    } else if s.queue[0] != c.receiver {
      OtherLeavesQueue(c, s, s');
    }
  }

  lemma OtherLeavesQueue<M>(c: Config, s: State<M>, s': State<M>)
    requires s.queue != [] && s.queue[0] != c.receiver && ReceiverSafe(c, s)
    requires s' == s.(queue := s.queue[1..], loop := s'.loop)
    ensures ReceiverSafe(c, s')
  {
    AllPersist(c, s, s');
    if c.receiver in s.queue {
      StaysQueued(s.queue, c.receiver);
    }
  }

  lemma StaysQueued(queue: seq<TaskId>, task: TaskId)
    requires task in queue && task != queue[0]
    ensures task in queue[1..]
  {
    assert queue == [queue[0]] + queue[1..];
  }

  lemma ReceiveStepIsSafe<M>(c: Config, s: State<M>, a: Action<M>)
    requires Safe(c, s) && NextReceive(c, s, a).Some?
    requires |s.ring.received| <= |s.ring.sent|
    requires s.ring.consumer.TailLoaded? && s.ring.consumer.tail == s.ring.head ==> s.ring.received == s.ring.sent
    ensures Safe(c, NextReceive(c, s, a).value)
  {
    if a.PopStep? {
      PopStepIsSafe(c, s, a.step);
    } else {
      AllPersist(c, s, NextReceive(c, s, a).value);
    }
  }

  lemma PopStepIsSafe<M>(c: Config, s: State<M>, step: Ring.Action<M>)
    requires Safe(c, s) && NextReceive(c, s, PopStep(step)).Some?
    requires |s.ring.received| <= |s.ring.sent|
    requires s.ring.consumer.TailLoaded? && s.ring.consumer.tail == s.ring.head ==> s.ring.received == s.ring.sent
    ensures Safe(c, NextReceive(c, s, PopStep(step)).value)
  {
    AllPersist(c, s, NextReceive(c, s, PopStep(step)).value);
  }

  /** The step of the ring, if any, that an action performs. */
  function RingStep<M>(s: State<M>, a: Action<M>): Option<Ring.Action<M>> {
    match a
    case LockPush(t) => if Pc(s, t).SawOpen? then Some(Ring.Lock(t, Pc(s, t).item)) else None
    case PushStep(_, step) => Some(step)
    case UnlockPush(_) => Some(Ring.Unlock)
    case PopStep(step) => Some(step)
    case PopReturn => Some(Ring.Return)
    case _ => None
  }

  lemma RingFollows<M>(c: Config, s: State<M>, a: Action<M>)
    requires Next(c, s, a).Some?
    ensures var s' := Next(c, s, a).value;
            match RingStep(s, a)
            case None => s'.ring == s.ring
            case Some(step) => Ring.InBounds(s.ring) && Ring.Next(s.ring, step) == Some(s'.ring)
  {
  }

  lemma StepKeepsInv<M>(c: Config, s: State<M>, a: Action<M>)
    requires Inv(c, s) && Next(c, s, a).Some?
    ensures Inv(c, Next(c, s, a).value)
  {
    RingFollows(c, s, a);
    if RingStep(s, a).Some? {
      Ring.StepKeepsInv(s.ring, RingStep(s, a).value);
    }
    if NextReceive(c, s, a).Some? {
      if s.ring.consumer.TailLoaded? {
        Ring.LoadHeadIsExact(s.ring);
      }
      ReceiveStepIsSafe(c, s, a);
    } else if NextLoop(c, s, a).Some? {
      LoopStepIsSafe(c, s, a);
    } else if IsSend(a) {
      SendStepIsSafe(c, s, a);
    } else {
      SignalStepIsSafe(c, s, a);
    }
  }

  lemma {:induction false} Reachable<M>(c: Config, trace: seq<Action<M>>)
    requires c.Valid() && Exec(c, trace).Some?
    ensures Inv(c, Exec(c, trace).value)
  {
    if trace == [] {
      InitInv<M>(c);
    } else {
      Reachable(c, trace[..|trace| - 1]);
      StepKeepsInv(c, Exec(c, trace[..|trace| - 1]).value, trace[|trace| - 1]);
    }
  }

  // ----- the theorems -----

  /**
   * No lost wake, end to end: whenever the shard is blocked in its reactor, the
   * receiving task is unfinished and the channel has mail or is closed, a wake
   * of that task is on its way: its waker is still registered and about to be
   * taken, or was taken, or has queued the task and the reactor will be woken.
   */
  lemma NoLostWake<M>(c: Config, trace: seq<Action<M>>)
    requires c.Valid() && Exec(c, trace).Some?
    ensures var s := Exec(c, trace).value;
            s.loop.Waiting? && c.receiver in s.live && (HasMail(s) || s.closed) ==> WakeInFlight(c, s)
  {
    Reachable(c, trace);
  }

  /**
   * Quiescence: when every outside thread is idle and the shard sleeps with no
   * wake pending, the receiving task got every message ever pushed, in order,
   * and the channel is still open.
   */
  lemma QuiescentMeansDelivered<M>(c: Config, trace: seq<Action<M>>)
    requires c.Valid() && Exec(c, trace).Some?
    requires var s := Exec(c, trace).value;
             s.loop.Waiting? && !s.woke && c.receiver in s.live && forall t: ThreadId :: Pc(s, t).Idle?
    ensures var s := Exec(c, trace).value; s.ring.received == s.ring.sent && !s.closed
  {
    Reachable(c, trace);
    var s := Exec(c, trace).value;
    assert !s.ring.producer.Pushed? by {
      assert s.ring.producer.Pushed? ==> Pc(s, s.ring.producer.owner).Pushing?;
    }
    assert !WakeInFlight(c, s);
  }

  /**
   * Channel close: the receiving task sees `None` only after a close, and by
   * then it got exactly the messages that were in when its last pop found the
   * ring empty, in the order they were sent.
   */
  lemma NoneOnlyAfterDrain<M>(c: Config, trace: seq<Action<M>>)
    requires c.Valid() && Exec(c, trace).Some?
    ensures var s := Exec(c, trace).value;
            && s.ring.received <= s.ring.sent
            && (c.receiver !in s.live ==>
                  && s.closed
                  && s.drainedAt <= |s.ring.sent|
                  && s.ring.received == s.ring.sent[..s.drainedAt])
  {
    Reachable(c, trace);
  }

  const Smallest := Config(2, 1, 0, 1)

  /** The receiver is at its first pop and thread 0 has seen the channel open. */
  ghost predicate Racing<M>(s: State<M>, item: M) {
    && s.ring.capacity == 2 && s.ring.slots == [None, None] && s.ring.head == s.ring.tail == 0
    && s.ring.producer.Unlocked? && s.ring.sent == s.ring.received == []
    && s.threads == map[0 := SawOpen(item)]
    && s.receive.FirstPop? && s.loop.PollReceiver?
  }

  lemma RaceStarts<M>(item: M) returns (trace: seq<Action<M>>, s: State<M>)
    ensures Exec(Smallest, trace) == Some(s) && Racing(s, item) && s.ring.consumer.Outside?
  {
    s := Init(Smallest);
    s, trace := Step(Smallest, [], s, LoadClosed(0, item));
    s, trace := Step(Smallest, trace, s, Take);
  }

  lemma PopLoadsTail<M>(item: M, before: seq<Action<M>>, s0: State<M>) returns (trace: seq<Action<M>>, s: State<M>)
    requires Exec(Smallest, before) == Some(s0) && Racing(s0, item) && s0.ring.consumer.Outside?
    ensures Exec(Smallest, trace) == Some(s) && Racing(s, item) && s.ring.consumer == Ring.TailLoaded(0)
  {
    s, trace := Step(Smallest, before, s0, PopStep(Ring.ConsumerLoadTail));
  }

  lemma PopFindsEmpty<M>(item: M, before: seq<Action<M>>, s0: State<M>) returns (trace: seq<Action<M>>, s: State<M>)
    requires Exec(Smallest, before) == Some(s0) && Racing(s0, item) && s0.ring.consumer == Ring.TailLoaded(0)
    ensures Exec(Smallest, trace) == Some(s) && Racing(s, item) && s.ring.consumer.SawEmpty?
  {
    s, trace := Step(Smallest, before, s0, PopStep(Ring.ConsumerLoadHead));
  }

  lemma SenderFindsRoom<M>(item: M, before: seq<Action<M>>, s0: State<M>) returns (trace: seq<Action<M>>, s: State<M>)
    requires Exec(Smallest, before) == Some(s0) && Racing(s0, item) && s0.ring.consumer.SawEmpty?
    ensures Exec(Smallest, trace) == Some(s)
    ensures s == s0.(threads := map[0 := Pushing], ring := s0.ring.(producer := Ring.HasRoom(0, item, 0)))
  {
    s, trace := Step(Smallest, before, s0, LockPush(0));
    s, trace := Step(Smallest, trace, s, PushStep(0, Ring.LoadHead));
    s, trace := Step(Smallest, trace, s, PushStep(0, Ring.LoadTail));
  }

  lemma SenderPushes<M>(before: seq<Action<M>>, s0: State<M>) returns (trace: seq<Action<M>>, s: State<M>)
    requires Exec(Smallest, before) == Some(s0) && Ring.InBounds(s0.ring) && s0.ring.producer.HasRoom?
    requires s0.threads == map[0 := Pushing]
    ensures Exec(Smallest, trace) == Some(s)
    ensures s == s0.(ring := s.ring) && Ring.InBounds(s.ring) && s.ring.consumer == s0.ring.consumer
    ensures |s.ring.sent| == |s0.ring.sent| + 1 && s.ring.received == s0.ring.received
  {
    s, trace := Step(Smallest, before, s0, PushStep(0, Ring.WriteSlot));
    s, trace := Step(Smallest, trace, s, PushStep(0, Ring.StoreHead));
  }

  lemma CloseEndsTask<M>(before: seq<Action<M>>, s0: State<M>) returns (trace: seq<Action<M>>, s: State<M>)
    requires Exec(Smallest, before) == Some(s0)
    requires Ring.InBounds(s0.ring) && s0.ring.consumer.SawEmpty? && s0.receive.FirstPop? && s0.loop.PollReceiver?
    requires Pc(s0, 1).Idle?
    ensures Exec(Smallest, trace) == Some(s)
    ensures Smallest.receiver !in s.live && s.ring.sent == s0.ring.sent && s.ring.received == s0.ring.received
  {
    s, trace := Step(Smallest, before, s0, StoreClosed(1));
    s, trace := Step(Smallest, trace, s, PopReturn);
    s, trace := Step(Smallest, trace, s, LoadClosedAgain);
  }

  /**
   * The drain is not a promise that the ring is empty: a push and a close that
   * both land between the pop and the closed check leave a message behind.
   */
  lemma NoneCanStrandMail<M>(item: M) returns (trace: seq<Action<M>>)
    ensures Smallest.Valid() && Exec(Smallest, trace).Some?
    ensures var s := Exec(Smallest, trace).value; Smallest.receiver !in s.live && HasMail(s)
  {
    var s;
    trace, s := RaceStarts(item);
    trace, s := PopLoadsTail(item, trace, s);
    trace, s := PopFindsEmpty(item, trace, s);
    trace, s := SenderFindsRoom(item, trace, s);
    trace, s := SenderPushes(trace, s);
    trace, s := CloseEndsTask(trace, s);
  }

  lemma Step<M>(c: Config, trace: seq<Action<M>>, s: State<M>, a: Action<M>)
    returns (s': State<M>, trace': seq<Action<M>>)
    requires Exec(c, trace) == Some(s) && Next(c, s, a).Some?
    ensures trace' == trace + [a] && Exec(c, trace') == Some(s') && s' == Next(c, s, a).value
  {
    s', trace' := Next(c, s, a).value, trace + [a];
    assert trace'[..|trace|] == trace;
  }
}
