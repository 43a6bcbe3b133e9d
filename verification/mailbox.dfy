/**
 * The bounded async mailbox of the std runtime. Every operation is one mutex
 * section, so one operation is one step.
 *
 * `Mailbox` holds the state of one mailbox as a value with its operations,
 * `SharedMailbox` is the object whose methods are proved against them, and
 * `MailboxRuns` follows whole histories of senders, send futures and one
 * receiver.
 */
module Mailbox {
  import opened Wrappers

  /** A waker names the send future (or the receiving task) that registered it. */
  type Waker = nat

  datatype SendResult<+M> = Sent | Full(message: M) | Closed(message: M) | Pending
  datatype RecvResult<+M> = Received(message: M) | RecvClosed | Empty

  /** The state after an operation, its result, and the wakers it runs after unlocking. */
  datatype Outcome<+M, +R> = Outcome(state: State<M>, result: R, wakes: seq<Waker>)

  datatype State<+M> = State(
    queue: seq<M>,
    capacity: nat,
    senderCount: nat,
    senderFactoryOpen: bool,
    receiverClosed: bool,
    recvWaker: Option<Waker>,
    sendWakers: seq<Waker>
  ) {
    function TakeRecvWaker(): (State<M>, seq<Waker>) {
      (this.(recvWaker := None), if recvWaker.Some? then [recvWaker.value] else [])
    }

    /** No sender can ever enqueue again. */
    predicate Disconnected() {
      receiverClosed || (!senderFactoryOpen && senderCount == 0)
    }

    function TrySend(message: M): Outcome<M, SendResult<M>> {
      if receiverClosed then Outcome(this, Closed(message), [])
      else if |queue| == capacity then Outcome(this, Full(message), [])
      else
        var (s, wakes) := this.(queue := queue + [message]).TakeRecvWaker();
        Outcome(s, Sent, wakes)
    }

    function PollSend(message: M, waker: Waker): Outcome<M, SendResult<M>> {
      if receiverClosed then Outcome(this, Closed(message), [])
      else if |queue| < capacity then
        var (s, wakes) := this.(queue := queue + [message]).TakeRecvWaker();
        Outcome(s, Sent, wakes)
      else Outcome(this.(sendWakers := sendWakers + [waker]), Pending, [])
    }

    function WakeOneSender(): Outcome<M, ()> {
      if sendWakers == [] then Outcome(this, (), [])
      else Outcome(this.(sendWakers := sendWakers[1..]), (), [sendWakers[0]])
    }

    /** `waker` is the polling task's waker, or `None` for the non-registering `try_recv`. */
    function Recv(waker: Option<Waker>): Outcome<M, RecvResult<M>> {
      if queue != [] then
        var o := this.(queue := queue[1..]).WakeOneSender();
        Outcome(o.state, Received(queue[0]), o.wakes)
      else if Disconnected() then Outcome(this, RecvClosed, [])
      else if waker.Some? then Outcome(this.(recvWaker := waker), Empty, [])
      else Outcome(this, Empty, [])
    }

    function CloseReceiver(): Outcome<M, ()> {
      if receiverClosed then Outcome(this, (), [])
      else
        var (s, wakes) := this.(receiverClosed := true, sendWakers := []).TakeRecvWaker();
        Outcome(s, (), wakes + sendWakers)
    }

    function DropSender(): Outcome<M, ()> {
      var s := this.(senderCount := if senderCount == 0 then 0 else senderCount - 1);
      if !s.senderFactoryOpen && s.senderCount == 0 && queue == [] then
        var (s', wakes) := s.TakeRecvWaker();
        Outcome(s', (), wakes)
      else Outcome(s, (), [])
    }

    function CloseSenderFactory(): Outcome<M, ()> {
      if !senderFactoryOpen then Outcome(this, (), [])
      else
        var s := this.(senderFactoryOpen := false);
        if senderCount == 0 && queue == [] then
          var (s', wakes) := s.TakeRecvWaker();
          Outcome(s', (), wakes)
        else Outcome(s, (), [])
    }

    function AddSender(): State<M> {
      this.(senderCount := senderCount + 1)
    }
  }

  function Open<M>(capacity: nat): State<M> {
    State([], capacity, 0, true, false, None, [])
  }
}

module SharedMailbox {
  import opened Wrappers
  import opened Mailbox

  class SharedMailbox<M> {
    var queue: seq<M>
    const capacity: nat
    var senderCount: nat
    var senderFactoryOpen: bool
    var receiverClosed: bool
    var recvWaker: Option<Waker>
    var sendWakers: seq<Waker>

    /** The mailbox as a value. */
    ghost function Value(): State<M>
      reads this
    {
      State(queue, capacity, senderCount, senderFactoryOpen, receiverClosed, recvWaker, sendWakers)
    }

    constructor (capacity: nat)
      ensures Value() == Open(capacity)
    {
      this.capacity := capacity;
      queue, senderCount, senderFactoryOpen := [], 0, true;
      receiverClosed, recvWaker, sendWakers := false, None, [];
    }

    method TrySend(message: M) returns (result: SendResult<M>, wakes: seq<Waker>)
      modifies this
      ensures Outcome(Value(), result, wakes) == old(Value()).TrySend(message)
    {
      if receiverClosed {
        return Closed(message), [];
      }
      if |queue| == capacity {
        return Full(message), [];
      }
      queue := queue + [message];
      wakes := TakeRecvWaker();
      result := Sent;
    }

    method TakeRecvWaker() returns (wakes: seq<Waker>)
      modifies this`recvWaker
      ensures (Value(), wakes) == old(Value()).TakeRecvWaker()
    {
      wakes := if recvWaker.Some? then [recvWaker.value] else [];
      recvWaker := None;
    }

    method PollSend(message: M, waker: Waker) returns (result: SendResult<M>, wakes: seq<Waker>)
      modifies this
      ensures Outcome(Value(), result, wakes) == old(Value()).PollSend(message, waker)
    {
      if receiverClosed {
        return Closed(message), [];
      }
      if |queue| < capacity {
        queue := queue + [message];
        wakes := TakeRecvWaker();
        return Sent, wakes;
      }
      sendWakers := sendWakers + [waker];
      return Pending, [];
    }

    method WakeOneSender() returns (wakes: seq<Waker>)
      modifies this`sendWakers
      ensures Outcome(Value(), (), wakes) == old(Value()).WakeOneSender()
    {
      if sendWakers == [] {
        return [];
      }
      wakes := [sendWakers[0]];
      sendWakers := sendWakers[1..];
    }

    method TryRecv() returns (result: RecvResult<M>, wakes: seq<Waker>)
      modifies this
      ensures Outcome(Value(), result, wakes) == old(Value()).Recv(None)
    {
      if queue != [] {
        result := Received(queue[0]);
        queue := queue[1..];
        wakes := WakeOneSender();
      } else if receiverClosed || (!senderFactoryOpen && senderCount == 0) {
        result, wakes := RecvClosed, [];
      } else {
        result, wakes := Empty, [];
      }
    }

    method PollRecv(waker: Waker) returns (result: RecvResult<M>, wakes: seq<Waker>)
      modifies this
      ensures Outcome(Value(), result, wakes) == old(Value()).Recv(Some(waker))
    {
      if queue != [] {
        result := Received(queue[0]);
        queue := queue[1..];
        wakes := WakeOneSender();
      } else if receiverClosed || (!senderFactoryOpen && senderCount == 0) {
        result, wakes := RecvClosed, [];
      } else {
        if recvWaker != Some(waker) {
          recvWaker := Some(waker);
        }
        result, wakes := Empty, [];
      }
    }

    method CloseReceiver() returns (wakes: seq<Waker>)
      modifies this
      ensures Outcome(Value(), (), wakes) == old(Value()).CloseReceiver()
    {
      if receiverClosed {
        return [];
      }
      receiverClosed := true;
      wakes := TakeRecvWaker();
      wakes := wakes + sendWakers;
      sendWakers := [];
    }

    method DropSender() returns (wakes: seq<Waker>)
      modifies this
      ensures Outcome(Value(), (), wakes) == old(Value()).DropSender()
    {
      senderCount := if senderCount == 0 then 0 else senderCount - 1;
      wakes := [];
      if !senderFactoryOpen && senderCount == 0 && queue == [] {
        wakes := TakeRecvWaker();
      }
    }

    method CloseSenderFactory() returns (wakes: seq<Waker>)
      modifies this
      ensures Outcome(Value(), (), wakes) == old(Value()).CloseSenderFactory()
    {
      wakes := [];
      if senderFactoryOpen {
        senderFactoryOpen := false;
        if senderCount == 0 && queue == [] {
          wakes := TakeRecvWaker();
        }
      }
    }

    /** `sender_to` and `Clone`. */
    method AddSender()
      modifies this`senderCount
      ensures Value() == old(Value()).AddSender()
    {
      senderCount := senderCount + 1;
    }
  }
}

module MailboxRuns {
  import opened Wrappers
  import opened Mailbox

  type FutureId = Waker

  /**
   * One mailbox with everything that happened to it. `pending` are the send
   * futures that still own their message, `woken` those of them whose waker was
   * taken and that were not polled since, and `parked` those whose last poll found
   * the mailbox full and whose waker was not run since. `registered` and `ran` are
   * the send wakers in the order they were registered and run. `asleep` is the
   * waker of the receiver if its last poll found nothing and that waker was not run
   * since.
   */
  datatype World<+M> = World(
    box: State<M>,
    accepted: seq<M>,
    received: seq<M>,
    pending: map<FutureId, M>,
    woken: set<FutureId>,
    parked: set<FutureId>,
    registered: seq<Waker>,
    ran: seq<Waker>,
    asleep: Option<Waker>
  )

  datatype Action<+M> =
    | TrySend(message: M)
    | NewSend(f: FutureId, message: M)
    | PollSend(f: FutureId)
    | DropSend(f: FutureId)
    | Recv(waker: Option<Waker>)
    | CloseReceiver
    | AddSender
    | CloneSender
    | DropSender
    | CloseFactory

  function Init<M>(capacity: nat): World<M> {
    World(Open(capacity), [], [], map[], {}, {}, [], [], None)
  }

  /** Runs send wakers: a waker of a future that no longer exists has no effect. */
  function Wake<M>(w: World<M>, wakes: seq<Waker>): World<M> {
    var awake := set f | f in wakes && f in w.pending;
    w.(woken := w.woken + awake, parked := w.parked - awake, ran := w.ran + wakes)
  }

  /** The send wakers among those that a close runs: the receive waker comes first. */
  function SendWakes(recvWaker: Option<Waker>, wakes: seq<Waker>): seq<Waker> {
    if recvWaker.Some? && wakes != [] then wakes[1..] else wakes
  }

  /** The receiver sleeps on, unless its waker is among those that run. */
  function Sleeps(asleep: Option<Waker>, wakes: seq<Waker>): Option<Waker> {
    if asleep.Some? && asleep.value in wakes then None else asleep
  }

  function Forget<M>(w: World<M>, f: FutureId): World<M> {
    w.(pending := w.pending - {f}, woken := w.woken - {f}, parked := w.parked - {f})
  }

  /**
   * One operation. The guards are what ownership guarantees: sending needs a
   * sender handle, `sender_to` needs the mailbox set (whose drop closes the
   * factory), and a handle borrowed by a pending send future is not dropped.
   */
  function Next<M>(w: World<M>, a: Action<M>): Option<World<M>> {
    match a
    case TrySend(m) =>
      if w.box.senderCount == 0 then None
      else
        var o := w.box.TrySend(m);
        Some(w.(box := o.state,
                accepted := if o.result.Sent? then w.accepted + [m] else w.accepted,
                asleep := Sleeps(w.asleep, o.wakes)))
    case NewSend(f, m) =>
      if w.box.senderCount == 0 || f in w.pending || f in w.box.sendWakers then None
      else Some(w.(pending := w.pending[f := m]))
    case PollSend(f) =>
      if f !in w.pending then None
      else
        var o := w.box.PollSend(w.pending[f], f);
        match o.result {
          case Sent =>
            Some(Forget(w, f).(box := o.state, accepted := w.accepted + [w.pending[f]],
                               asleep := Sleeps(w.asleep, o.wakes)))
          case Pending =>
            Some(w.(box := o.state, woken := w.woken - {f}, parked := w.parked + {f}, registered := w.registered + [f]))
          case _ => Some(Forget(w, f).(box := o.state))
        }
    case DropSend(f) =>
      if f !in w.pending then None
      else
        var o := w.box.WakeOneSender();
        Some(Wake(Forget(w, f), o.wakes).(box := o.state))
    case Recv(waker) =>
      var o := w.box.Recv(waker);
      Some(Wake(w, o.wakes).(
              box := o.state,
              received := if o.result.Received? then w.received + [o.result.message] else w.received,
              asleep := if !o.result.Empty? then None else if waker.Some? then waker else w.asleep))
    case CloseReceiver =>
      var o := w.box.CloseReceiver();
      Some(Wake(w, SendWakes(w.box.recvWaker, o.wakes)).(box := o.state, asleep := Sleeps(w.asleep, o.wakes)))
    case AddSender => if w.box.senderFactoryOpen then Some(w.(box := w.box.AddSender())) else None
    case CloneSender => if w.box.senderCount > 0 then Some(w.(box := w.box.AddSender())) else None
    case DropSender =>
      if w.box.senderCount > 1 || (w.box.senderCount == 1 && w.pending == map[]) then
        var o := w.box.DropSender();
        Some(w.(box := o.state, asleep := Sleeps(w.asleep, o.wakes)))
      else None
    case CloseFactory =>
      var o := w.box.CloseSenderFactory();
      Some(w.(box := o.state, asleep := Sleeps(w.asleep, o.wakes)))
  }

  /** The world after a whole history, or `None` if some operation was not possible. */
  function Run<M>(w: World<M>, trace: seq<Action<M>>): Option<World<M>> {
    if trace == [] then Some(w)
    else
      match Run(w, trace[..|trace| - 1])
      case None => None
      case Some(w') => Next(w', trace[|trace| - 1])
  }

  // ----- the receiver -----

  ghost predicate ReceiverInv<M>(w: World<M>) {
    && w.accepted == w.received + w.box.queue
    && |w.box.queue| <= w.box.capacity
    && (w.box.recvWaker.Some? ==> w.box.queue == [] && !w.box.Disconnected())
    && (w.pending != map[] ==> w.box.senderCount > 0)
    && (w.box.receiverClosed ==> w.box.sendWakers == [])
    && w.woken <= w.pending.Keys
  }

  /** A receiver that sleeps is the registered one. */
  ghost predicate SleeperInv<M>(w: World<M>) {
    w.asleep.Some? ==> w.box.recvWaker == w.asleep
  }

  lemma StepKeepsSleeper<M>(w: World<M>, a: Action<M>)
    requires SleeperInv(w) && Next(w, a).Some?
    ensures SleeperInv(Next(w, a).value)
  {
  }

  lemma PollKeepsReceiverInv<M>(w: World<M>, f: FutureId)
    requires ReceiverInv(w) && Next(w, PollSend(f)).Some?
    ensures ReceiverInv(Next(w, PollSend(f)).value)
  {
  }

  lemma RecvKeepsReceiverInv<M>(w: World<M>, waker: Option<Waker>)
    requires ReceiverInv(w)
    ensures ReceiverInv(Next(w, Recv(waker)).value)
  {
  }

  lemma StepKeepsReceiverInv<M>(w: World<M>, a: Action<M>)
    requires ReceiverInv(w) && Next(w, a).Some?
    ensures ReceiverInv(Next(w, a).value)
  {
    match a {
      case PollSend(f) => PollKeepsReceiverInv(w, f);
      case Recv(waker) => RecvKeepsReceiverInv(w, waker);
      case _ =>
    }
  }

  lemma {:induction false} RunKeepsReceiverInv<M>(w: World<M>, trace: seq<Action<M>>)
    requires ReceiverInv(w) && Run(w, trace).Some?
    ensures ReceiverInv(Run(w, trace).value)
  {
    if trace != [] {
      RunKeepsReceiverInv(w, trace[..|trace| - 1]);
      StepKeepsReceiverInv(Run(w, trace[..|trace| - 1]).value, trace[|trace| - 1]);
    }
  }

  /**
   * Delivery: in every history the accepted messages are the received ones
   * followed by the queue, in order and within capacity, and a registered
   * receive waker means the mailbox is empty and someone can still send.
   */
  lemma DeliveredInOrder<M>(capacity: nat, trace: seq<Action<M>>)
    requires Run(Init(capacity), trace).Some?
    ensures ReceiverInv(Run(Init(capacity), trace).value)
  {
    RunKeepsReceiverInv(Init(capacity), trace);
  }

  /**
   * No lost receive wake: a receiver whose last poll found nothing is still
   * registered or has had its waker run since, so while it sleeps the mailbox is
   * empty and can still be filled.
   */
  lemma {:induction false} ReceiverIsWoken<M>(capacity: nat, trace: seq<Action<M>>)
    requires Run(Init(capacity), trace).Some?
    ensures var w := Run(Init(capacity), trace).value;
            SleeperInv(w) && (w.box.queue != [] || w.box.Disconnected() ==> w.asleep.None?)
  {
    DeliveredInOrder(capacity, trace);
    if trace != [] {
      ReceiverIsWoken(capacity, trace[..|trace| - 1]);
      StepKeepsSleeper(Run(Init(capacity), trace[..|trace| - 1]).value, trace[|trace| - 1]);
    }
  }

  /** Empty with nobody able to fill it: exactly when a receive reports `Closed`. */
  predicate Drained<M>(w: World<M>) {
    w.box.queue == [] && w.box.Disconnected()
  }

  lemma {:induction false} DrainedForever<M>(w: World<M>, trace: seq<Action<M>>)
    requires ReceiverInv(w) && Drained(w) && Run(w, trace).Some?
    ensures Drained(Run(w, trace).value)
  {
    if trace != [] {
      DrainedForever(w, trace[..|trace| - 1]);
      RunKeepsReceiverInv(w, trace[..|trace| - 1]);
    }
  }

  /** Once a receive reports `Closed`, every later one does, whatever happens in between. */
  lemma ClosedIsFinal<M>(capacity: nat, before: seq<Action<M>>, after: seq<Action<M>>, first: Option<Waker>,
                         later: Option<Waker>)
    requires Run(Init(capacity), before).Some?
    requires Run(Run(Init(capacity), before).value, after).Some?
    requires Run(Init(capacity), before).value.box.Recv(first).result.RecvClosed?
    ensures Run(Run(Init(capacity), before).value, after).value.box.Recv(later).result.RecvClosed?
  {
    DeliveredInOrder(capacity, before);
    DrainedForever(Run(Init(capacity), before).value, after);
  }

  // ----- the senders -----

  /** Every queued send waker belongs to a different future that is still waiting for it. */
  ghost predicate NoStaleWakers<M>(w: World<M>) {
    && (forall i, j :: 0 <= i < j < |w.box.sendWakers| ==> w.box.sendWakers[i] != w.box.sendWakers[j])
    && (forall f :: f in w.box.sendWakers ==> f in w.pending && f !in w.woken)
  }

  /** If a sender is parked, enough others have been told about the free slots. */
  ghost predicate FreeSlotsAnnounced<M>(w: World<M>) {
    w.box.sendWakers != [] ==> |w.woken| >= w.box.capacity - |w.box.queue|
  }

  /**
   * A caller's rule: re-poll a send future only after its waker was taken, and
   * drop it only then or while its waker is the next to be taken.
   */
  predicate Disciplined<M>(w: World<M>, a: Action<M>) {
    match a
    case PollSend(f) => f !in w.box.sendWakers
    case DropSend(f) => f !in w.box.sendWakers || w.box.sendWakers[0] == f
    case _ => true
  }

  predicate DisciplinedRun<M>(w: World<M>, trace: seq<Action<M>>) {
    trace == [] ||
    (var before := trace[..|trace| - 1];
     && DisciplinedRun(w, before)
     && Run(w, before).Some?
     && Disciplined(Run(w, before).value, trace[|trace| - 1]))
  }

  /** The rule is exact: a step leaves a stale waker behind if and only if it breaks the rule. */
  lemma StaleExactlyWhenUndisciplined<M>(w: World<M>, a: Action<M>)
    requires ReceiverInv(w) && NoStaleWakers(w) && Next(w, a).Some?
    ensures NoStaleWakers(Next(w, a).value) <==> Disciplined(w, a)
  {
    match a {
      case PollSend(f) => PollLeavesStale(w, f);
      case DropSend(f) => DropLeavesStale(w, f);
      case Recv(waker) => RecvLeavesNone(w, waker);
      case _ =>
    }
  }

  lemma RecvLeavesNone<M>(w: World<M>, waker: Option<Waker>)
    requires NoStaleWakers(w)
    ensures NoStaleWakers(Next(w, Recv(waker)).value)
  {
    var q := w.box.sendWakers;
    if q != [] && w.box.queue != [] {
      assert q == [q[0]] + q[1..];
      assert Next(w, Recv(waker)).value.box.sendWakers == q[1..];
    }
  }

  lemma PollLeavesStale<M>(w: World<M>, f: FutureId)
    requires ReceiverInv(w) && NoStaleWakers(w) && f in w.pending
    ensures NoStaleWakers(Next(w, PollSend(f)).value) <==> f !in w.box.sendWakers
  {
    var q' := Next(w, PollSend(f)).value.box.sendWakers;
    if f in w.box.sendWakers {
      var i :| 0 <= i < |w.box.sendWakers| && w.box.sendWakers[i] == f;
      assert q'[i] == f;
      if |w.box.queue| == w.box.capacity {
        assert q'[|q'| - 1] == f;
      }
    }
  }

  lemma DropLeavesStale<M>(w: World<M>, f: FutureId)
    requires NoStaleWakers(w) && f in w.pending
    ensures NoStaleWakers(Next(w, DropSend(f)).value) <==> Disciplined(w, DropSend(f))
  {
    var q := w.box.sendWakers;
    if q != [] {
      assert q == [q[0]] + q[1..];
      assert Next(w, DropSend(f)).value.box.sendWakers == q[1..];
    }
  }

  lemma StepAnnouncesSlots<M>(w: World<M>, a: Action<M>)
    requires ReceiverInv(w) && NoStaleWakers(w) && FreeSlotsAnnounced(w)
    requires Next(w, a).Some? && Disciplined(w, a)
    ensures FreeSlotsAnnounced(Next(w, a).value)
  {
    match a {
      case PollSend(f) => assert |w.woken - {f}| >= |w.woken| - 1;
      case DropSend(f) => DropAnnouncesSlots(w, f);
      case Recv(waker) => RecvAnnouncesSlots(w, waker);
      case _ =>
    }
  }

  /** A cancelled sender passes its wake on. */
  lemma DropAnnouncesSlots<M>(w: World<M>, f: FutureId)
    requires NoStaleWakers(w) && FreeSlotsAnnounced(w)
    requires f in w.pending && Disciplined(w, DropSend(f))
    ensures FreeSlotsAnnounced(Next(w, DropSend(f)).value)
  {
    var w', q := Next(w, DropSend(f)).value, w.box.sendWakers;
    if q != [] {
      if q[0] == f {
        assert w'.woken == w.woken;
      } else {
        assert w'.woken == (w.woken - {f}) + {q[0]};
        assert |w.woken - {f}| >= |w.woken| - 1;
      }
    }
  }

  /** A receive frees one slot and wakes one parked sender. */
  lemma RecvAnnouncesSlots<M>(w: World<M>, waker: Option<Waker>)
    requires NoStaleWakers(w) && FreeSlotsAnnounced(w)
    ensures FreeSlotsAnnounced(Next(w, Recv(waker)).value)
  {
    var w', q := Next(w, Recv(waker)).value, w.box.sendWakers;
    if q != [] && w.box.queue != [] {
      assert w'.woken == w.woken + {q[0]};
    }
  }

  /**
   * Sender wake-up: in every disciplined history, if any sender is still parked
   * then the woken senders that have not been polled again number at least the
   * free slots, however woken senders are cancelled or others steal slots.
   */
  lemma {:induction false} ParkedSendersAreCovered<M>(capacity: nat, trace: seq<Action<M>>)
    requires Run(Init(capacity), trace).Some? && DisciplinedRun(Init(capacity), trace)
    ensures NoStaleWakers(Run(Init(capacity), trace).value)
    ensures FreeSlotsAnnounced(Run(Init(capacity), trace).value)
  {
    if trace != [] {
      var before, a := trace[..|trace| - 1], trace[|trace| - 1];
      ParkedSendersAreCovered(capacity, before);
      DeliveredInOrder(capacity, before);
      var w := Run(Init(capacity), before).value;
      StaleExactlyWhenUndisciplined(w, a);
      StepAnnouncesSlots(w, a);
    }
  }

  // ----- every break of the rule can cost a sender its wake -----

  /** A sender is parked in front of a free slot of an open mailbox, and nobody is woken. */
  ghost predicate SenderOverlooked<M>(w: World<M>) {
    && !w.box.receiverClosed && |w.box.queue| < w.box.capacity && w.woken == {}
    && exists f :: f in w.box.sendWakers && f in w.pending
  }

  /** Waker number `p` will wake nobody when its turn comes. */
  ghost predicate Stale<M>(wakers: seq<Waker>, pending: map<FutureId, M>, p: nat) {
    p < |wakers| && (wakers[p] in pending ==> wakers[p] in wakers[..p])
  }

  /** An open mailbox with a sender handle and a stale waker. */
  ghost predicate Tangled<M>(w: World<M>, p: nat) {
    !w.box.receiverClosed && w.box.senderCount > 0 && Stale(w.box.sendWakers, w.pending, p)
  }

  /** What a scheduler does: a send future is polled or dropped before it registers, or when it was woken. */
  predicate Prompted<M>(w: World<M>, a: Action<M>) {
    a.PollSend? || a.DropSend? ==> a.f in w.woken || a.f !in w.box.sendWakers
  }

  /** Every step from number `n` on is prompted. */
  predicate PromptedFrom<M>(w: World<M>, trace: seq<Action<M>>, n: nat) {
    |trace| <= n ||
    (var before := trace[..|trace| - 1];
     && PromptedFrom(w, before, n)
     && Run(w, before).Some?
     && Prompted(Run(w, before).value, trace[|trace| - 1]))
  }

  /** `later` continues the history `trace` by prompted steps. */
  ghost predicate PromptedAfter<M>(capacity: nat, trace: seq<Action<M>>, later: seq<Action<M>>) {
    trace <= later && Run(Init(capacity), later).Some? && PromptedFrom(Init(capacity), later, |trace|)
  }

  /** `w` is what the history `trace` leads to, and its steps from number `n` on are prompted. */
  ghost predicate At<M>(capacity: nat, n: nat, trace: seq<Action<M>>, w: World<M>) {
    && Run(Init(capacity), trace) == Some(w) && w.box.capacity == capacity > 0
    && PromptedFrom(Init(capacity), trace, n)
  }

  lemma Go<M>(capacity: nat, n: nat, trace: seq<Action<M>>, w: World<M>, a: Action<M>)
    returns (trace': seq<Action<M>>, w': World<M>)
    requires At(capacity, n, trace, w) && Next(w, a).Some? && (n <= |trace| ==> Prompted(w, a))
    ensures trace' == trace + [a] && At(capacity, n, trace', w') && w' == Next(w, a).value
  {
    w', trace' := Next(w, a).value, trace + [a];
    assert trace'[..|trace|] == trace;
    CapacityIsFixed(w, a);
  }

  lemma CapacityIsFixed<M>(w: World<M>, a: Action<M>)
    requires Next(w, a).Some?
    ensures Next(w, a).value.box.capacity == w.box.capacity
  {
  }

  /** Breaking the rule leaves a stale waker behind. */
  lemma BreakTangles<M>(w: World<M>, a: Action<M>) returns (p: nat)
    requires ReceiverInv(w) && Next(w, a).Some? && !Disciplined(w, a)
    ensures Tangled(Next(w, a).value, p)
  {
    var q, w' := w.box.sendWakers, Next(w, a).value;
    p :| 0 <= p < |q| && q[p] == a.f;
    match a {
      case PollSend(f) =>
        if |w.box.queue| >= w.box.capacity {
          assert w'.box.sendWakers == q + [f];
          assert q[p] in w'.box.sendWakers[..|q|];
          p := |q|;
        }
      case DropSend(f) =>
        assert w'.box.sendWakers == q[1..];
        p := p - 1;
    }
  }

  /** Sending fills the mailbox and touches nothing else that matters. */
  lemma {:induction false} FillUp<M>(capacity: nat, n: nat, trace: seq<Action<M>>, w: World<M>, m: M, p: nat)
    returns (trace': seq<Action<M>>, w': World<M>)
    requires n <= |trace| && At(capacity, n, trace, w) && Tangled(w, p) && |w.box.queue| <= capacity
    ensures trace <= trace' && At(capacity, n, trace', w') && Tangled(w', p) && |w'.box.queue| == capacity
    decreases capacity - |w.box.queue|
  {
    trace', w' := trace, w;
    if |w.box.queue| < capacity {
      trace', w' := Go(capacity, n, trace, w, Action.TrySend(m));
      trace', w' := FillUp(capacity, n, trace', w', m, p);
    }
  }

  lemma StaleStays<M>(wakers: seq<Waker>, pending: map<FutureId, M>, p: nat, f: Waker)
    requires Stale(wakers, pending, p)
    ensures Stale(wakers + [f], pending, p)
  {
    assert (wakers + [f])[..p] == wakers[..p];
  }

  /** With the mailbox full, the woken futures register again. */
  lemma {:induction false} RegisterWoken<M>(capacity: nat, n: nat, trace: seq<Action<M>>, w: World<M>, p: nat)
    returns (trace': seq<Action<M>>, w': World<M>)
    requires n <= |trace| && At(capacity, n, trace, w) && Tangled(w, p)
    requires |w.box.queue| == capacity && w.woken <= w.pending.Keys
    ensures trace <= trace' && At(capacity, n, trace', w') && Tangled(w', p) && |w'.box.queue| == capacity
            && w'.woken == {}
    decreases w.woken
  {
    trace', w' := trace, w;
    if w.woken != {} {
      var f :| f in w.woken;
      trace', w' := Go(capacity, n, trace, w, PollSend(f));
      StaleStays(w.box.sendWakers, w.pending, p, f);
      trace', w' := RegisterWoken(capacity, n, trace', w', p);
    }
  }

  /** A full mailbox with nobody woken, a stale waker, and behind it a parked sender `h`. */
  ghost predicate Primed<M>(w: World<M>, h: FutureId, p: nat) {
    var q := w.box.sendWakers;
    && !w.box.receiverClosed && |w.box.queue| == w.box.capacity && w.woken == {}
    && Stale(q, w.pending, p) && p < |q| - 1
    && q[|q| - 1] == h && h in w.pending && h !in q[..|q| - 1]
  }

  lemma {:induction false} UpperBound(s: set<nat>) returns (h: nat)
    ensures forall x :: x in s ==> x < h
  {
    h := 0;
    if s != {} {
      var x :| x in s;
      h := UpperBound(s - {x});
      if h <= x {
        h := x + 1;
      }
      assert forall y :: y in s ==> y == x || y in s - {x};
    }
  }

  lemma UnusedFuture<M>(w: World<M>) returns (h: FutureId)
    ensures h !in w.pending && h !in w.box.sendWakers
  {
    var used := set f | f in w.box.sendWakers;
    h := UpperBound(w.pending.Keys + used);
    assert h !in w.pending.Keys + used;
  }

  /** A new sender that finds the mailbox full is parked behind everybody else. */
  lemma NewSenderIsParked<M>(w: World<M>, h: FutureId, m: M, p: nat)
    requires Tangled(w, p) && |w.box.queue| == w.box.capacity && w.woken == {}
    requires h !in w.pending && h !in w.box.sendWakers
    ensures Next(w, NewSend(h, m)).Some?
    ensures var w1 := Next(w, NewSend(h, m)).value;
            Next(w1, PollSend(h)).Some? && Primed(Next(w1, PollSend(h)).value, h, p)
  {
    var q := w.box.sendWakers;
    var w1 := Next(w, NewSend(h, m)).value;
    var w2 := Next(w1, PollSend(h)).value;
    assert q[p] != h by {
      assert q[p] in q;
    }
    StaleStays(q, w1.pending, p, h);
    assert w2.box.sendWakers == q + [h] && w2.box.sendWakers[..|q|] == q;
  }

  lemma ParkSender<M>(capacity: nat, n: nat, trace: seq<Action<M>>, w: World<M>, m: M, p: nat)
    returns (trace': seq<Action<M>>, w': World<M>, h: FutureId)
    requires n <= |trace| && At(capacity, n, trace, w) && Tangled(w, p) && |w.box.queue| == capacity && w.woken == {}
    ensures trace <= trace' && At(capacity, n, trace', w') && Primed(w', h, p)
  {
    h := UnusedFuture(w);
    NewSenderIsParked(w, h, m, p);
    trace', w' := Go(capacity, n, trace, w, NewSend(h, m));
    trace', w' := Go(capacity, n, trace', w', PollSend(h));
  }

  /** A receive frees a slot and runs the front waker. */
  lemma FrontIsStale<M>(w: World<M>, h: FutureId, p: nat)
    requires Primed(w, h, p) && w.box.capacity > 0 && w.box.sendWakers[0] !in w.pending
    ensures SenderOverlooked(Next(w, Recv(None)).value)
  {
    var w', q := Next(w, Recv(None)).value, w.box.sendWakers;
    assert w'.box.sendWakers == q[1..] && q[1..][|q| - 2] == h;
    assert h in w'.box.sendWakers && h in w'.pending;
  }

  /** A live front sender takes the slot that a receive frees, and the queue of wakers gets shorter. */
  lemma FrontSends<M>(w: World<M>, h: FutureId, p: nat)
    requires Primed(w, h, p) && w.box.capacity > 0 && w.box.sendWakers[0] in w.pending && p > 0
    ensures var f, w1 := w.box.sendWakers[0], Next(w, Recv(None)).value;
            Next(w1, PollSend(f)).Some? && Primed(Next(w1, PollSend(f)).value, h, p - 1)
  {
    var q := w.box.sendWakers;
    var f, w1 := q[0], Next(w, Recv(None)).value;
    var w2 := Next(w1, PollSend(f)).value;
    assert w1.woken == {f} && w1.box.sendWakers == q[1..];
    assert w2.woken == {} && w2.box.sendWakers == q[1..] && w2.pending == w.pending - {f};
    StaleMovesUp(q, w.pending, p);
    LastMovesUp(q, h);
  }

  lemma StaleMovesUp<M>(q: seq<Waker>, pending: map<FutureId, M>, p: nat)
    requires Stale(q, pending, p) && p > 0
    ensures Stale(q[1..], pending - {q[0]}, p - 1)
  {
    assert q[..p] == [q[0]] + q[1..][..p - 1];
  }

  lemma LastMovesUp(q: seq<Waker>, h: FutureId)
    requires |q| >= 2 && q[|q| - 1] == h && h !in q[..|q| - 1]
    ensures q[0] != h && q[1..][|q| - 2] == h && h !in q[1..][..|q| - 2]
  {
    assert q[..|q| - 1] == [q[0]] + q[1..][..|q| - 2];
  }

  lemma FrontGoes<M>(capacity: nat, n: nat, trace: seq<Action<M>>, w: World<M>, h: FutureId, p: nat)
    returns (trace': seq<Action<M>>, w': World<M>)
    requires n <= |trace| && At(capacity, n, trace, w) && Primed(w, h, p) && w.box.sendWakers[0] in w.pending && p > 0
    ensures trace <= trace' && At(capacity, n, trace', w') && Primed(w', h, p - 1)
  {
    var f := w.box.sendWakers[0];
    FrontSends(w, h, p);
    trace', w' := Go(capacity, n, trace, w, Recv(None));
    assert f in w'.woken;
    trace', w' := Go(capacity, n, trace', w', PollSend(f));
  }

  lemma {:induction false} WakerIsWasted<M>(capacity: nat, n: nat, trace: seq<Action<M>>, w: World<M>, h: FutureId,
                                            p: nat)
    returns (trace': seq<Action<M>>, w': World<M>)
    requires n <= |trace| && At(capacity, n, trace, w) && Primed(w, h, p)
    ensures trace <= trace' && At(capacity, n, trace', w') && SenderOverlooked(w')
    decreases p
  {
    var f := w.box.sendWakers[0];
    if f !in w.pending {
      FrontIsStale(w, h, p);
      trace', w' := Go(capacity, n, trace, w, Recv(None));
    } else {
      trace', w' := FrontGoes(capacity, n, trace, w, h, p);
      trace', w' := WakerIsWasted(capacity, n, trace', w', h, p - 1);
    }
  }

  /**
   * The rule is needed everywhere: after any history of a mailbox with room for at
   * least one message, a step that breaks it has a continuation by prompted steps
   * alone that leaves a sender parked in front of a free slot with nobody woken.
   */
  lemma UndisciplinedStepCanOverlook<M>(capacity: nat, trace: seq<Action<M>>, a: Action<M>)
    returns (trace': seq<Action<M>>)
    requires capacity > 0 && Run(Init(capacity), trace).Some?
    requires Next(Run(Init(capacity), trace).value, a).Some? && !Disciplined(Run(Init(capacity), trace).value, a)
    ensures PromptedAfter(capacity, trace + [a], trace') && SenderOverlooked(Run(Init(capacity), trace').value)
  {
    var w, n := Run(Init(capacity), trace).value, |trace| + 1;
    DeliveredInOrder(capacity, trace);
    RunKeepsCapacity(capacity, trace);
    var m := w.pending[a.f];
    var p := BreakTangles(w, a);
    var h;
    StepKeepsReceiverInv(w, a);
    trace', w := Go(capacity, n, trace, w, a);
    trace', w := FillUp(capacity, n, trace', w, m, p);
    DeliveredInOrder(capacity, trace');
    trace', w := RegisterWoken(capacity, n, trace', w, p);
    trace', w, h := ParkSender(capacity, n, trace', w, m, p);
    trace', w := WakerIsWasted(capacity, n, trace', w, h, p);
  }

  lemma {:induction false} RunKeepsCapacity<M>(capacity: nat, trace: seq<Action<M>>)
    requires Run(Init(capacity), trace).Some?
    ensures Run(Init(capacity), trace).value.box.capacity == capacity
  {
    if trace != [] {
      RunKeepsCapacity(capacity, trace[..|trace| - 1]);
      CapacityIsFixed(Run(Init(capacity), trace[..|trace| - 1]).value, trace[|trace| - 1]);
    }
  }

  /** While no step breaks it, no sender is overlooked. */
  lemma DisciplinedIsNeverOverlooked<M>(capacity: nat, trace: seq<Action<M>>)
    requires Run(Init(capacity), trace).Some? && DisciplinedRun(Init(capacity), trace)
    ensures !SenderOverlooked(Run(Init(capacity), trace).value)
  {
    ParkedSendersAreCovered(capacity, trace);
  }

  /** Prompted steps keep the rule: a woken future is not registered while no waker is stale. */
  lemma {:induction false} PromptedIsDisciplined<M>(capacity: nat, trace: seq<Action<M>>, later: seq<Action<M>>)
    requires DisciplinedRun(Init(capacity), trace) && PromptedAfter(capacity, trace, later)
    ensures DisciplinedRun(Init(capacity), later)
  {
    if |later| == |trace| {
      assert later == trace;
    } else {
      var before := later[..|later| - 1];
      PromptedIsDisciplined(capacity, trace, before);
      ParkedSendersAreCovered(capacity, before);
    }
  }

  /**
   * The rule is exact: a step that follows a disciplined history keeps it if and
   * only if no continuation by prompted steps ever overlooks a sender.
   */
  lemma NeverOverlookedExactlyWhenDisciplined<M>(capacity: nat, trace: seq<Action<M>>, a: Action<M>)
    requires capacity > 0 && Run(Init(capacity), trace).Some? && DisciplinedRun(Init(capacity), trace)
    requires Next(Run(Init(capacity), trace).value, a).Some?
    ensures Disciplined(Run(Init(capacity), trace).value, a) <==>
            forall later :: PromptedAfter(capacity, trace + [a], later) ==>
              !SenderOverlooked(Run(Init(capacity), later).value)
  {
    if Disciplined(Run(Init(capacity), trace).value, a) {
      assert (trace + [a])[..|trace|] == trace;
      forall later | PromptedAfter(capacity, trace + [a], later)
        ensures !SenderOverlooked(Run(Init(capacity), later).value)
      {
        PromptedIsDisciplined(capacity, trace + [a], later);
        DisciplinedIsNeverOverlooked(capacity, later);
      }
    } else {
      var later := UndisciplinedStepCanOverlook(capacity, trace, a);
    }
  }

  // ----- a sender lost for good -----

  /** A full one-place mailbox with a parked sender. */
  lemma ParkOne<M>(capacity: nat, m: M) returns (trace: seq<Action<M>>, w: World<M>)
    requires capacity == 1
    ensures At(capacity, 0, trace, w)
    ensures w.box.sendWakers == [7] && 7 in w.pending && w.woken == {}
  {
    trace, w := Go(capacity, 0, [], Init(capacity), AddSender);
    trace, w := Go(capacity, 0, trace, w, Action.TrySend(m));
    trace, w := Go(capacity, 0, trace, w, NewSend(7, m));
    trace, w := Go(capacity, 0, trace, w, PollSend(7));
  }

  /**
   * With one place an overlooked sender is lost: all steps but number `n` are
   * prompted, and that one polls a registered future that nobody woke. It ends
   * with a parked sender, nobody woken and an empty mailbox, so that no receive
   * will ever wake the sender.
   */
  lemma UndisciplinedSenderIsLost<M>(m: M) returns (trace: seq<Action<M>>, n: nat)
    ensures Run(Init(1), trace).Some? && n < |trace| && trace[n].PollSend?
    ensures PromptedFrom(Init(1), trace[..n], 0) && PromptedFrom(Init(1), trace, n + 1)
    ensures Run(Init(1), trace[..n]).Some? && !Prompted(Run(Init(1), trace[..n]).value, trace[n])
    ensures var w := Run(Init(1), trace).value;
            SenderOverlooked(w) && w.box.queue == []
  {
    var capacity: nat := 1;
    var before, w := ParkOne(capacity, m);
    n := |before|;
    trace := UndisciplinedStepCanOverlook(capacity, before, PollSend(7));
    assert trace[..n] == before && trace[n] == (before + [PollSend(7)])[n];
    RunKeepsCapacity(capacity, trace);
  }
}
