/**
 * What the channel still delivers. While it is open, everything pushed reaches the
 * receiver by what is already under way. A close is clean when no send is under
 * way that saw the channel open and can still push, and the receiver is not about
 * to end on an empty pop while mail is queued. Clean closes never strand a
 * message; after any other close some continuation does.
 */
module ChannelClose {
  import opened Wrappers
  import opened WakeChain
  import Ring = RingSteps

  predicate MidPush<M>(p: Ring.Producer<M>) {
    p.Locked? || p.HeadLoaded? || p.HasRoom? || p.SlotWritten?
  }

  ghost predicate SomeSawOpen<M>(s: State<M>) {
    exists t: ThreadId :: Pc(s, t).SawOpen?
  }

  /** Some `try_send` got past its closed check and has not stored or given up yet. */
  ghost predicate CanPush<M>(s: State<M>) {
    SomeSawOpen(s) || MidPush(s.ring.producer)
  }

  /** The receiver's last pop found nothing and its closed check comes next. */
  predicate AboutToEnd<M>(s: State<M>) {
    s.receive.FirstCheck? || s.receive.SecondCheck? || s.ring.consumer.SawEmpty?
  }

  /** No send can still push, and mail has a receiver that will look at the ring again. */
  ghost predicate Drainable<M>(c: Config, s: State<M>) {
    !CanPush(s) && (HasMail(s) ==> c.receiver in s.live && !AboutToEnd(s))
  }

  ghost predicate Clean<M>(c: Config, s: State<M>) {
    s.closed && Drainable(c, s)
  }

  predicate Stranded<M>(c: Config, s: State<M>) {
    c.receiver !in s.live && HasMail(s)
  }

  // ----- a clean close stays clean -----

  lemma ThreadKeepsClean<M>(c: Config, s: State<M>, a: Action<M>)
    requires Inv(c, s) && Clean(c, s) && NextThread(c, s, a).Some?
    ensures Clean(c, NextThread(c, s, a).value)
  {
    var s' := NextThread(c, s, a).value;
    if a.PushStep? {
      AllPersist(c, s, s');
    } else {
      OthersPersist(c, s, s', a.t);
      assert Pc(s', a.t) == s'.threads[a.t];
    }
  }

  lemma ReceiveKeepsClean<M>(c: Config, s: State<M>, a: Action<M>)
    requires Inv(c, s) && Clean(c, s) && NextReceive(c, s, a).Some?
    ensures Clean(c, NextReceive(c, s, a).value)
  {
    if s.ring.consumer.TailLoaded? {
      Ring.LoadHeadIsExact(s.ring);
    }
    AllPersist(c, s, NextReceive(c, s, a).value);
  }

  lemma StepKeepsClean<M>(c: Config, s: State<M>, a: Action<M>)
    requires Inv(c, s) && Clean(c, s) && Next(c, s, a).Some?
    ensures Clean(c, Next(c, s, a).value)
  {
    if NextReceive(c, s, a).Some? {
      ReceiveKeepsClean(c, s, a);
    } else if NextLoop(c, s, a).Some? {
      AllPersist(c, s, Next(c, s, a).value);
    } else {
      ThreadKeepsClean(c, s, a);
    }
  }

  /** After a clean close the receiver gets every message: whenever it has ended, the ring is empty. */
  lemma {:induction false} CleanCloseDrains<M>(c: Config, trace: seq<Action<M>>, more: seq<Action<M>>)
    requires c.Valid() && Exec(c, trace).Some? && Clean(c, Exec(c, trace).value)
    requires Exec(c, trace + more).Some?
    ensures var s := Exec(c, trace + more).value;
            Clean(c, s) && (c.receiver !in s.live ==> s.ring.received == s.ring.sent)
  {
    if more == [] {
      assert trace + more == trace;
      Reachable(c, trace);
    } else {
      var shorter := more[..|more| - 1];
      assert (trace + more)[..|trace + more| - 1] == trace + shorter;
      CleanCloseDrains(c, trace, shorter);
      Reachable(c, trace + shorter);
      StepKeepsClean(c, Exec(c, trace + shorter).value, more[|more| - 1]);
      Reachable(c, trace + more);
    }
  }

  /** Whether a close is clean is decided by the state before it. */
  lemma CloseIsCleanExactlyWhen<M>(c: Config, s: State<M>, t: ThreadId)
    requires Pc(s, t).Idle?
    ensures Next(c, s, StoreClosed(t)).Some?
    ensures Clean(c, Next(c, s, StoreClosed(t)).value) <==> Drainable(c, s)
  {
    var s' := Next(c, s, StoreClosed(t)).value;
    OthersPersist(c, s, s', t);
    KeepsSawOpen(s, s', t);
    assert Pc(s', t).MustTakeWaker?;
    KeepsSawOpen(s', s, t);
  }

  // ----- continuations by what is already under way -----

  /**
   * A step of what is already under way: no call begins, no other waker of the
   * receiver fires, and the reactor's wait returns only for a posted wake.
   */
  predicate Settling<M>(s: State<M>, a: Action<M>) {
    match a
    case LoadClosed(_, _) => false
    case StoreClosed(_) => false
    case FireOther(_, _) => false
    case WaitFails => false
    case WaitReturns => s.woke
    case _ => true
  }

  /** Every step from number `n` on is settling. */
  predicate SettlesFrom<M>(c: Config, trace: seq<Action<M>>, n: nat) {
    |trace| <= n ||
    (var before := trace[..|trace| - 1];
     && SettlesFrom(c, before, n)
     && Exec(c, before).Some?
     && Settling(Exec(c, before).value, trace[|trace| - 1]))
  }

  /** `later` continues the run `trace` by settling steps. */
  ghost predicate SettlesAfter<M>(c: Config, trace: seq<Action<M>>, later: seq<Action<M>>) {
    trace <= later && Exec(c, later).Some? && SettlesFrom(c, later, |trace|)
  }

  /** `s` is what the run `trace` leads to, and its steps from number `n` on are settling. */
  ghost predicate At<M>(c: Config, n: nat, trace: seq<Action<M>>, s: State<M>) {
    c.Valid() && Exec(c, trace) == Some(s) && SettlesFrom(c, trace, n)
  }

  /** One more step of a run that is being extended. */
  lemma Go<M>(c: Config, n: nat, trace: seq<Action<M>>, s: State<M>, a: Action<M>)
    returns (trace': seq<Action<M>>, s': State<M>)
    requires At(c, n, trace, s) && Next(c, s, a).Some? && Settling(s, a)
    ensures trace <= trace' && At(c, n, trace', s') && s' == Next(c, s, a).value
  {
    s', trace' := Step(c, trace, s, a);
  }

  lemma KeepsCanPush<M>(s: State<M>, s': State<M>)
    requires s'.threads == s.threads && s'.ring.producer == s.ring.producer
    ensures CanPush(s) ==> CanPush(s')
  {
    if SomeSawOpen(s) {
      var t: ThreadId :| Pc(s, t).SawOpen?;
      assert Pc(s', t).SawOpen?;
    }
  }

  // The receiver becomes ready.

  /** Nothing but who holds the receiver's waker, and the ready queue, differs. */
  ghost predicate SameSends<M>(s: State<M>, s': State<M>) {
    && s'.closed == s.closed && s'.live == s.live && s'.loop == s.loop && s'.receive == s.receive
    && s'.ring.sent == s.ring.sent && s'.ring.received == s.ring.received
    && (CanPush(s) ==> CanPush(s'))
  }

  /** A sender that has pushed releases the lock. */
  lemma ReleaseLock<M>(c: Config, n: nat, trace: seq<Action<M>>, s: State<M>)
    returns (trace': seq<Action<M>>, s': State<M>, t: ThreadId)
    requires At(c, n, trace, s) && s.ring.producer.Pushed?
    ensures trace <= trace' && At(c, n, trace', s') && SameSends(s, s')
    ensures Pc(s', t).MustTakeWaker? && s'.waker == s.waker
  {
    Reachable(c, trace);
    t := s.ring.producer.owner;
    trace', s' := Go(c, n, trace, s, UnlockPush(t));
    OthersPersist(c, s, s', t);
    KeepsSawOpen(s, s', t);
  }

  /** A thread that has not just read the channel open moves: those that have still have. */
  lemma KeepsSawOpen<M>(s: State<M>, s': State<M>, t: ThreadId)
    requires !Pc(s, t).SawOpen? && forall u: ThreadId :: u != t ==> Pc(s', u) == Pc(s, u)
    ensures SomeSawOpen(s) ==> SomeSawOpen(s')
  {
    if SomeSawOpen(s) {
      var u: ThreadId :| Pc(s, u).SawOpen?;
      assert Pc(s', u).SawOpen?;
    }
  }

  lemma TakeRegistered<M>(c: Config, n: nat, trace: seq<Action<M>>, s: State<M>, t: ThreadId)
    returns (trace': seq<Action<M>>, s': State<M>)
    requires At(c, n, trace, s) && Pc(s, t).MustTakeWaker? && s.waker
    ensures trace <= trace' && At(c, n, trace', s') && SameSends(s, s') && Pc(s', t) == HoldsWaker(c.receiver)
  {
    trace', s' := Go(c, n, trace, s, TakeWaker(t));
    OthersPersist(c, s, s', t);
    KeepsSawOpen(s, s', t);
  }

  lemma QueueReceiver<M>(c: Config, n: nat, trace: seq<Action<M>>, s: State<M>, t: ThreadId)
    returns (trace': seq<Action<M>>, s': State<M>)
    requires At(c, n, trace, s) && Pc(s, t) == HoldsWaker(c.receiver)
    ensures trace <= trace' && At(c, n, trace', s') && SameSends(s, s') && c.receiver in s'.queue
  {
    trace', s' := Go(c, n, trace, s, MarkReady(t));
    OthersPersist(c, s, s', t);
    KeepsSawOpen(s, s', t);
  }

  /** A live receiver that is not being polled gets queued: mail and a close are covered by a wake in flight. */
  lemma ReceiverGetsQueued<M>(c: Config, n: nat, trace: seq<Action<M>>, s: State<M>)
    returns (trace': seq<Action<M>>, s': State<M>)
    requires At(c, n, trace, s) && (HasMail(s) || s.closed) && c.receiver in s.live && s.receive.NotPolling?
    ensures trace <= trace' && At(c, n, trace', s') && SameSends(s, s') && c.receiver in s'.queue
  {
    Reachable(c, trace);
    trace', s' := trace, s;
    if c.receiver in s.queue {
      return;
    }
    if WakerTaken(c, s) {
      var t: ThreadId :| Pc(s, t) == HoldsWaker(c.receiver);
      trace', s' := QueueReceiver(c, n, trace, s, t);
      return;
    }
    var t: ThreadId;
    if s.ring.producer.Pushed? {
      trace', s', t := ReleaseLock(c, n, trace, s);
    } else {
      t :| Pc(s, t).MustTakeWaker?;
    }
    trace', s' := TakeRegistered(c, n, trace', s', t);
    trace', s' := QueueReceiver(c, n, trace', s', t);
  }

  // The executor loop gets to it.

  /** How far the loop is from taking the next ready task. */
  function LoopStage(c: Config, l: Loop): nat {
    match l
    case PollOther(_, _) => 6
    case TakeReady(polled) => if polled < c.budget then 0 else 5
    case CheckLive => 4
    case CheckReady => 3
    case EnterWait => 4
    case Waiting => 3
    case WaitReturned => 2
    case _ => 0
  }

  function LoopAction<M>(l: Loop): Action<M> {
    match l
    case PollOther(_, _) => OtherReturns(false)
    case TakeReady(_) => Take
    case Waiting => WaitReturns
    case WaitReturned => ClearWake
    case _ => LoopCheck
  }

  /** The loop's own steps and the wake it waits for leave the channel and its senders alone. */
  ghost predicate SameChannel<M>(s: State<M>, s': State<M>) {
    s'.ring == s.ring && s'.closed == s.closed && (CanPush(s) ==> CanPush(s'))
  }

  /** `s'` is closer to polling the receiver than `s`. */
  ghost predicate NearerPoll<M>(c: Config, s: State<M>, s': State<M>) {
    && SameChannel(s, s') && c.receiver in s'.live
    && (|| (s'.loop.PollReceiver? && s'.receive.FirstPop?)
        || (&& c.receiver in s'.queue && s'.receive.NotPolling? && !s'.loop.PollReceiver?
            && (|s'.queue| < |s.queue| || (s'.queue == s.queue && LoopStage(c, s'.loop) < LoopStage(c, s.loop)))))
  }

  lemma TakeAdvances<M>(c: Config, s: State<M>)
    requires c.receiver in s.live && c.receiver in s.queue && s.receive.NotPolling? && s.loop.TakeReady?
    ensures NextLoop(c, s, Take).Some? && NearerPoll(c, s, NextLoop(c, s, Take).value)
  {
    var s' := NextLoop(c, s, Take).value;
    if s.loop.polled >= c.budget {
      assert s' == s.(loop := CheckLive);
    } else if s.queue[0] == c.receiver {
      assert s'.loop.PollReceiver? && s'.receive.FirstPop?;
    } else {
      StaysQueued(s.queue, c.receiver);
      assert s'.queue == s.queue[1..] && s'.receive.NotPolling?;
    }
    KeepsCanPush(s, s');
  }

  lemma LoopAdvances<M>(c: Config, s: State<M>)
    requires Wiring(c, s) && c.Valid() && c.receiver in s.live && c.receiver in s.queue && s.receive.NotPolling?
    ensures Next(c, s, LoopAction(s.loop)).Some? && NearerPoll(c, s, Next(c, s, LoopAction(s.loop)).value)
  {
    if s.loop.TakeReady? {
      TakeAdvances(c, s);
    } else {
      KeepsCanPush(s, Next(c, s, LoopAction(s.loop)).value);
    }
  }

  /** A shard that waits with the receiver queued has its reactor woken. */
  lemma ReactorGetsWoken<M>(c: Config, n: nat, trace: seq<Action<M>>, s: State<M>)
    returns (trace': seq<Action<M>>, s': State<M>)
    requires At(c, n, trace, s) && (s.loop.Waiting? ==> s.queue != [])
    ensures trace <= trace' && At(c, n, trace', s') && SameChannel(s, s') && (s'.loop.Waiting? ==> s'.woke)
    ensures s'.live == s.live && s'.queue == s.queue && s'.receive == s.receive && s'.loop == s.loop
  {
    Reachable(c, trace);
    trace', s' := trace, s;
    if s.loop.Waiting? && !s.woke {
      var t: ThreadId :| Pc(s, t).MustWakeReactor?;
      trace', s' := Go(c, n, trace, s, WakeReactor(t));
      OthersPersist(c, s, s', t);
      KeepsSawOpen(s, s', t);
    }
  }

  lemma LoopGoesOn<M>(c: Config, n: nat, trace: seq<Action<M>>, s: State<M>)
    returns (trace': seq<Action<M>>, s': State<M>)
    requires At(c, n, trace, s) && c.receiver in s.live && c.receiver in s.queue && s.receive.NotPolling?
    ensures trace <= trace' && At(c, n, trace', s') && NearerPoll(c, s, s')
  {
    var ready;
    trace', ready := ReactorGetsWoken(c, n, trace, s);
    Reachable(c, trace');
    LoopAdvances(c, ready);
    trace', s' := Go(c, n, trace', ready, LoopAction(ready.loop));
  }

  lemma {:induction false} ReceiverGetsPolled<M>(c: Config, n: nat, trace: seq<Action<M>>, s: State<M>)
    returns (trace': seq<Action<M>>, s': State<M>)
    requires At(c, n, trace, s) && c.receiver in s.live && c.receiver in s.queue && s.receive.NotPolling?
    ensures trace <= trace' && At(c, n, trace', s') && SameChannel(s, s')
    ensures s'.loop.PollReceiver? && s'.receive.FirstPop?
    decreases |s.queue|, LoopStage(c, s.loop)
  {
    trace', s' := LoopGoesOn(c, n, trace, s);
    if !s'.loop.PollReceiver? {
      trace', s' := ReceiverGetsPolled(c, n, trace', s');
    }
  }

  // The receiver drains the ring and ends.

  function PopStage<M>(r: Ring.State<M>): nat {
    match r.consumer
    case Outside => 4
    case TailLoaded(_) => 3
    case SawItem(_) => 2
    case _ => 1
  }

  /** How far the poll is from ending or taking the next message. */
  function PollStage<M>(s: State<M>): nat {
    if s.ring.consumer.Popped? then 12
    else
      match s.receive
      case FirstPop => 7 + PopStage(s.ring)
      case FirstCheck => 7
      case Register => 6
      case SecondPop => 1 + PopStage(s.ring)
      case _ => 1
  }

  function PollAction<M>(s: State<M>): Action<M> {
    if s.receive.FirstPop? || s.receive.SecondPop? then
      match s.ring.consumer
      case Outside => PopStep(Ring.ConsumerLoadTail)
      case TailLoaded(_) => PopStep(Ring.ConsumerLoadHead)
      case SawItem(_) => PopStep(Ring.ReadSlot)
      case SlotRead(_, _) => PopStep(Ring.StoreTail)
      case _ => PopReturn
    else if s.receive.Register? then RegisterWaker
    else LoadClosedAgain
  }

  /** The poll's own steps leave the senders and what they sent alone. */
  ghost predicate SameSenders<M>(s: State<M>, s': State<M>) {
    && s'.threads == s.threads && s'.closed == s.closed
    && s'.ring.producer == s.ring.producer && s'.ring.sent == s.ring.sent
  }

  /** `s'` is closer to the end of the receiver than `s`, and has popped nothing if `s` was about to end. */
  ghost predicate NearerEnd<M>(c: Config, s: State<M>, s': State<M>) {
    && SameSenders(s, s')
    && |s.ring.received| <= |s'.ring.received| <= |s.ring.sent|
    && (c.receiver in s'.live ==>
          && s'.loop.PollReceiver?
          && (|| |s'.ring.received| > |s.ring.received|
              || (s'.ring.received == s.ring.received && PollStage(s') < PollStage(s))))
    && (AboutToEnd(s) ==> s'.ring.received == s.ring.received && (c.receiver in s'.live ==> AboutToEnd(s')))
  }

  /** The next step of a pop that has not finished. */
  function NextPop<M>(r: Ring.State<M>): Ring.Action<M> {
    match r.consumer
    case Outside => Ring.ConsumerLoadTail
    case TailLoaded(_) => Ring.ConsumerLoadHead
    case SawItem(_) => Ring.ReadSlot
    case _ => Ring.StoreTail
  }

  lemma PopMoves<M>(r: Ring.State<M>)
    requires Ring.InBounds(r) && !r.consumer.Popped? && !r.consumer.SawEmpty?
    requires r.consumer.SawItem? ==> r.slots[r.consumer.tail].Some?
    ensures Ring.Next(r, NextPop(r)).Some?
    ensures var r' := Ring.Next(r, NextPop(r)).value;
            && r'.producer == r.producer && r'.sent == r.sent
            && |r'.received| == |r.received| + (if r.consumer.SlotRead? then 1 else 0)
            && (!r.consumer.SlotRead? ==> r'.received == r.received)
            && (r.consumer.Outside? ==> r'.consumer.TailLoaded?)
            && (r.consumer.TailLoaded? ==> r'.consumer.SawItem? || r'.consumer.SawEmpty?)
            && (r.consumer.SawItem? ==> r'.consumer.SlotRead?)
  {
  }

  lemma PopAdvances<M>(c: Config, s: State<M>)
    requires Ring.InBounds(s.ring) && |s.ring.received| <= |s.ring.sent|
    requires s.loop.PollReceiver? && (s.receive.FirstPop? || s.receive.SecondPop?) && c.receiver in s.live
    requires s.ring.consumer.SlotRead? ==> |s.ring.received| < |s.ring.sent|
    requires s.ring.consumer.SawItem? ==> s.ring.slots[s.ring.consumer.tail].Some?
    requires !s.ring.consumer.Popped? && !s.ring.consumer.SawEmpty?
    ensures NextReceive(c, s, PollAction(s)).Some? && NearerEnd(c, s, NextReceive(c, s, PollAction(s)).value)
  {
    PopMoves(s.ring);
    assert PollAction(s) == PopStep(NextPop(s.ring));
  }

  lemma PopReturns<M>(c: Config, s: State<M>)
    requires Ring.InBounds(s.ring) && |s.ring.received| <= |s.ring.sent|
    requires s.loop.PollReceiver? && (s.receive.FirstPop? || s.receive.SecondPop?) && c.receiver in s.live
    requires s.ring.consumer.Popped? || s.ring.consumer.SawEmpty?
    ensures NextReceive(c, s, PopReturn).Some? && NearerEnd(c, s, NextReceive(c, s, PopReturn).value)
  {
  }

  lemma PollAdvances<M>(c: Config, s: State<M>)
    requires Inv(c, s) && s.closed && s.loop.PollReceiver?
    ensures Next(c, s, PollAction(s)).Some? && NearerEnd(c, s, Next(c, s, PollAction(s)).value)
  {
    if s.receive.FirstPop? || s.receive.SecondPop? {
      if s.ring.consumer.SawItem? {
        Ring.ReadSlotKeepsInv(s.ring);
      }
      if s.ring.consumer.Popped? || s.ring.consumer.SawEmpty? {
        PopReturns(c, s);
      } else {
        PopAdvances(c, s);
      }
    }
  }

  lemma {:induction false} ReceiverEnds<M>(c: Config, n: nat, trace: seq<Action<M>>, s: State<M>)
    returns (trace': seq<Action<M>>, s': State<M>)
    requires At(c, n, trace, s) && s.closed && s.loop.PollReceiver? && |s.ring.received| <= |s.ring.sent|
    ensures trace <= trace' && At(c, n, trace', s') && SameSenders(s, s') && c.receiver !in s'.live
    ensures AboutToEnd(s) ==> s'.ring.received == s.ring.received
    decreases |s.ring.sent| - |s.ring.received|, PollStage(s)
  {
    Reachable(c, trace);
    PollAdvances(c, s);
    trace', s' := Go(c, n, trace, s, PollAction(s));
    if c.receiver in s'.live {
      trace', s' := ReceiverEnds(c, n, trace', s');
    }
  }

  // While the channel is open, the receiver gets what was pushed.

  /** The poll will pop again before it returns. */
  predicate LooksAgain<M>(s: State<M>) {
    s.loop.PollReceiver? && !s.receive.SecondCheck? && !(s.receive.SecondPop? && s.ring.consumer.SawEmpty?)
  }

  /** `s'` is closer to the next message than `s`, or the poll of `s` was past its last pop and has returned. */
  ghost predicate NearerMail<M>(s: State<M>, s': State<M>) {
    && s'.closed == s.closed && s'.ring.sent == s.ring.sent && |s'.ring.received| <= |s.ring.sent|
    && (|| |s'.ring.received| == |s.ring.received| + 1
        || (&& s'.ring.received == s.ring.received && (LooksAgain(s) ==> LooksAgain(s'))
            && (s'.loop.PollReceiver? ==> PollStage(s') < PollStage(s))))
  }

  lemma PopNearsMail<M>(c: Config, s: State<M>)
    requires Ring.InBounds(s.ring) && HasMail(s)
    requires s.loop.PollReceiver? && (s.receive.FirstPop? || s.receive.SecondPop?)
    requires s.ring.consumer.SawItem? ==> s.ring.slots[s.ring.consumer.tail].Some?
    requires s.ring.consumer.TailLoaded? ==> s.ring.consumer.tail != s.ring.head
    requires !s.ring.consumer.Popped? && !s.ring.consumer.SawEmpty?
    ensures NextReceive(c, s, PollAction(s)).Some? && NearerMail(s, NextReceive(c, s, PollAction(s)).value)
  {
    PopMoves(s.ring);
    assert PollAction(s) == PopStep(NextPop(s.ring));
  }

  lemma PollNearsMail<M>(c: Config, s: State<M>)
    requires Inv(c, s) && !s.closed && HasMail(s) && s.loop.PollReceiver?
    ensures Next(c, s, PollAction(s)).Some? && NearerMail(s, Next(c, s, PollAction(s)).value)
  {
    if s.receive.FirstPop? || s.receive.SecondPop? {
      if s.ring.consumer.SawItem? {
        Ring.ReadSlotKeepsInv(s.ring);
      }
      if s.ring.consumer.TailLoaded? {
        Ring.LoadHeadIsExact(s.ring);
      }
      if !s.ring.consumer.Popped? && !s.ring.consumer.SawEmpty? {
        PopNearsMail(c, s);
      }
    }
  }

  /** A poll gets the next message, or returns; if it was going to pop again, it gets it. */
  lemma {:induction false} PollGetsNext<M>(c: Config, n: nat, trace: seq<Action<M>>, s: State<M>)
    returns (trace': seq<Action<M>>, s': State<M>)
    requires At(c, n, trace, s) && !s.closed && HasMail(s) && s.loop.PollReceiver?
    ensures trace <= trace' && At(c, n, trace', s') && !s'.closed && s'.ring.sent == s.ring.sent
    ensures |s'.ring.received| == |s.ring.received| + 1
            || (s'.ring.received == s.ring.received && !s'.loop.PollReceiver? && !LooksAgain(s))
    decreases PollStage(s)
  {
    Reachable(c, trace);
    PollNearsMail(c, s);
    trace', s' := Go(c, n, trace, s, PollAction(s));
    if s'.ring.received == s.ring.received && s'.loop.PollReceiver? {
      trace', s' := PollGetsNext(c, n, trace', s');
    }
  }

  /** A receiver that is not being polled while mail waits gets polled and gets a message. */
  lemma SleeperGetsNext<M>(c: Config, n: nat, trace: seq<Action<M>>, s: State<M>)
    returns (trace': seq<Action<M>>, s': State<M>)
    requires At(c, n, trace, s) && !s.closed && HasMail(s) && !s.loop.PollReceiver?
    ensures trace <= trace' && At(c, n, trace', s') && !s'.closed && s'.ring.sent == s.ring.sent
    ensures |s'.ring.received| == |s.ring.received| + 1
  {
    Reachable(c, trace);
    trace', s' := ReceiverGetsQueued(c, n, trace, s);
    Reachable(c, trace');
    trace', s' := ReceiverGetsPolled(c, n, trace', s');
    trace', s' := PollGetsNext(c, n, trace', s');
  }

  lemma {:induction false} AllGetsDelivered<M>(c: Config, n: nat, trace: seq<Action<M>>, s: State<M>)
    returns (trace': seq<Action<M>>, s': State<M>)
    requires At(c, n, trace, s) && !s.closed && |s.ring.received| <= |s.ring.sent|
    ensures trace <= trace' && At(c, n, trace', s') && !s'.closed && s'.ring.sent == s.ring.sent && !HasMail(s')
    decreases |s.ring.sent| - |s.ring.received|
  {
    trace', s' := trace, s;
    if HasMail(s) {
      if s.loop.PollReceiver? {
        trace', s' := PollGetsNext(c, n, trace, s);
      }
      if |s'.ring.received| == |s.ring.received| {
        trace', s' := SleeperGetsNext(c, n, trace', s');
      }
      trace', s' := AllGetsDelivered(c, n, trace', s');
    }
  }

  /**
   * Progress: from every reachable state of an open channel, some continuation by
   * what is already under way - no new call, no other wake, no spurious return of
   * the wait - brings the receiver everything pushed so far.
   */
  lemma OpenChannelDelivers<M>(c: Config, trace: seq<Action<M>>) returns (trace': seq<Action<M>>)
    requires c.Valid() && Exec(c, trace).Some? && !Exec(c, trace).value.closed
    ensures SettlesAfter(c, trace, trace')
    ensures var s, s' := Exec(c, trace).value, Exec(c, trace').value;
            !s'.closed && s'.ring.received == s'.ring.sent == s.ring.sent
  {
    Reachable(c, trace);
    var s;
    trace', s := AllGetsDelivered(c, |trace|, trace, Exec(c, trace).value);
    Reachable(c, trace');
  }

  // ----- what a clean close finishes and any other can strand -----

  // The late send lands.

  /** The next step of a push that has not finished. */
  function NextPush<M>(p: Ring.Producer<M>): Ring.Action<M> {
    match p
    case Locked(_, _) => Ring.LoadHead
    case HeadLoaded(_, _, _) => Ring.LoadTail
    case HasRoom(_, _, _) => Ring.WriteSlot
    case _ => Ring.StoreHead
  }

  function PushStage<M>(p: Ring.Producer<M>): nat {
    match p
    case Locked(_, _) => 4
    case HeadLoaded(_, _, _) => 3
    case HasRoom(_, _, _) => 2
    case _ => 1
  }

  /** With an empty ring every step of a push succeeds. */
  lemma PushMoves<M>(r: Ring.State<M>)
    requires Ring.Inv(r) && r.capacity >= 2 && MidPush(r.producer) && r.received == r.sent
    ensures Ring.Next(r, NextPush(r.producer)).Some?
    ensures var r' := Ring.Next(r, NextPush(r.producer)).value;
            if r.producer.SlotWritten? then |r'.sent| == |r.sent| + 1 && r'.received == r.received
            else && r'.received == r'.sent && MidPush(r'.producer) && PushStage(r'.producer) < PushStage(r.producer)
  {
    if r.producer.HeadLoaded? {
      Ring.LoadTailIsExact(r);
    }
  }

  /** With an empty ring a push in progress goes through. */
  lemma {:induction false} PushLands<M>(c: Config, n: nat, trace: seq<Action<M>>, s: State<M>)
    returns (trace': seq<Action<M>>, s': State<M>)
    requires At(c, n, trace, s) && MidPush(s.ring.producer) && s.ring.received == s.ring.sent
    ensures trace <= trace' && At(c, n, trace', s') && s'.live == s.live && HasMail(s')
    decreases PushStage(s.ring.producer)
  {
    Reachable(c, trace);
    PushMoves(s.ring);
    assert Pc(s, s.ring.producer.owner).Pushing?;
    trace', s' := Go(c, n, trace, s, PushStep(s.ring.producer.owner, NextPush(s.ring.producer)));
    if !s.ring.producer.SlotWritten? {
      trace', s' := PushLands(c, n, trace', s');
    }
  }

  lemma LateSendLands<M>(c: Config, n: nat, trace: seq<Action<M>>, s: State<M>)
    returns (trace': seq<Action<M>>, s': State<M>)
    requires At(c, n, trace, s) && CanPush(s) && s.ring.received == s.ring.sent
    ensures trace <= trace' && At(c, n, trace', s') && s'.live == s.live && HasMail(s')
  {
    trace', s' := trace, s;
    if !MidPush(s.ring.producer) {
      var t: ThreadId :| Pc(s, t).SawOpen?;
      trace', s' := LockGetsFree(c, n, trace, s, t);
      Reachable(c, trace');
      trace', s' := Go(c, n, trace', s', LockPush(t));
    }
    trace', s' := PushLands(c, n, trace', s');
  }

  /** A sender that is done with the ring releases the lock. */
  lemma LockGetsFree<M>(c: Config, n: nat, trace: seq<Action<M>>, s: State<M>, t: ThreadId)
    returns (trace': seq<Action<M>>, s': State<M>)
    requires At(c, n, trace, s) && !MidPush(s.ring.producer) && Pc(s, t).SawOpen?
    ensures trace <= trace' && At(c, n, trace', s') && s'.live == s.live && s'.ring.producer.Unlocked?
    ensures s'.ring.sent == s.ring.sent && s'.ring.received == s.ring.received && Pc(s', t) == Pc(s, t)
  {
    trace', s' := trace, s;
    if !s.ring.producer.Unlocked? {
      Reachable(c, trace);
      var owner := s.ring.producer.owner;
      assert Pc(s, owner).Pushing?;
      trace', s' := Go(c, n, trace, s, UnlockPush(owner));
    }
  }

  /** A clean close does end the receiver: some continuation gives it every message and ends it. */
  lemma CleanCloseCanFinish<M>(c: Config, trace: seq<Action<M>>) returns (trace': seq<Action<M>>)
    requires c.Valid() && Exec(c, trace).Some? && Clean(c, Exec(c, trace).value)
    ensures SettlesAfter(c, trace, trace')
    ensures var s := Exec(c, trace').value; c.receiver !in s.live && s.ring.received == s.ring.sent
  {
    Reachable(c, trace);
    var s, n := Exec(c, trace).value, |trace|;
    trace' := trace;
    if c.receiver in s.live {
      if s.receive.NotPolling? {
        trace', s := PollSoon(c, n, trace, s);
      }
      trace', s := EndSoon(c, n, trace', s);
    }
    var more := trace'[|trace|..];
    assert trace' == trace + more;
    CleanCloseDrains(c, trace, more);
  }

  /**
   * The condition is exact: after a close that is not clean, some continuation
   * ends the receiver with a message left in the ring.
   */
  lemma UncleanCloseCanStrand<M>(c: Config, trace: seq<Action<M>>) returns (trace': seq<Action<M>>)
    requires c.Valid() && Exec(c, trace).Some? && Exec(c, trace).value.closed && !Clean(c, Exec(c, trace).value)
    ensures SettlesAfter(c, trace, trace') && Stranded(c, Exec(c, trace').value)
  {
    Reachable(c, trace);
    var s, n := Exec(c, trace).value, |trace|;
    trace' := trace;
    if c.receiver in s.live {
      if s.receive.NotPolling? {
        trace', s := PollSoon(c, n, trace, s);
      }
      trace', s := EndSoon(c, n, trace', s);
    }
    if !HasMail(s) {
      Reachable(c, trace');
      trace', s := LateSendLands(c, n, trace', s);
    }
  }

  lemma PollSoon<M>(c: Config, n: nat, trace: seq<Action<M>>, s: State<M>)
    returns (trace': seq<Action<M>>, s': State<M>)
    requires At(c, n, trace, s) && s.closed && c.receiver in s.live && s.receive.NotPolling?
    ensures trace <= trace' && At(c, n, trace', s')
    ensures s'.closed && s'.loop.PollReceiver? && (CanPush(s) ==> CanPush(s'))
  {
    var ready;
    trace', ready := ReceiverGetsQueued(c, n, trace, s);
    trace', s' := ReceiverGetsPolled(c, n, trace', ready);
  }

  lemma EndSoon<M>(c: Config, n: nat, trace: seq<Action<M>>, s: State<M>)
    returns (trace': seq<Action<M>>, s': State<M>)
    requires At(c, n, trace, s) && s.closed && s.loop.PollReceiver?
    ensures trace <= trace' && At(c, n, trace', s') && c.receiver !in s'.live && (CanPush(s) ==> CanPush(s'))
    ensures AboutToEnd(s) && HasMail(s) ==> HasMail(s')
  {
    Reachable(c, trace);
    trace', s' := ReceiverEnds(c, n, trace, s);
    KeepsCanPush(s, s');
  }
}
