/**
 * What each mailbox operation answers and whom it wakes, by what happened before
 * it: which messages were accepted and received, which handles came and went,
 * and in which order senders were parked.
 */
module MailboxAnswers {
  import opened Wrappers
  import opened Mailbox
  import opened MailboxRuns

  // ----- handles -----

  /** Sender handles made so far, less those dropped. */
  function Handles<M>(trace: seq<Action<M>>): int {
    if trace == [] then 0
    else
      Handles(trace[..|trace| - 1]) +
      match trace[|trace| - 1]
      case AddSender => 1
      case CloneSender => 1
      case DropSender => -1
      case _ => 0
  }

  lemma StepCountsHandles<M>(w: World<M>, a: Action<M>)
    requires Next(w, a).Some?
    ensures var box, box' := w.box, Next(w, a).value.box;
            && box'.senderCount == box.senderCount + (if a.AddSender? || a.CloneSender? then 1
                                                      else if a.DropSender? then -1 else 0)
            && (box'.senderFactoryOpen <==> box.senderFactoryOpen && !a.CloseFactory?)
            && (box'.receiverClosed <==> box.receiverClosed || a.CloseReceiver?)
  {
  }

  lemma {:induction false} HistoryOfHandles<M>(capacity: nat, trace: seq<Action<M>>)
    requires Run(Init(capacity), trace).Some?
    ensures var box := Run(Init(capacity), trace).value.box;
            && box.senderCount == Handles(trace)
            && (box.senderFactoryOpen <==> CloseFactory !in trace)
            && (box.receiverClosed <==> CloseReceiver in trace)
  {
    if trace != [] {
      HistoryOfHandles(capacity, trace[..|trace| - 1]);
      StepCountsHandles(Run(Init(capacity), trace[..|trace| - 1]).value, trace[|trace| - 1]);
    }
  }

  /** The receiver was closed, or the sender factory was and every handle is gone. */
  ghost predicate CutOff<M>(trace: seq<Action<M>>) {
    CloseReceiver in trace || (CloseFactory in trace && Handles(trace) == 0)
  }

  // ----- sending and receiving -----

  /** The accepted messages that were not received yet. */
  function Unreceived<M>(w: World<M>): int {
    |w.accepted| - |w.received|
  }

  /** A send is refused exactly after the receiver was closed, and else succeeds exactly when there is room. */
  lemma SendAnswers<M>(capacity: nat, trace: seq<Action<M>>, m: M, waker: Waker)
    requires Run(Init(capacity), trace).Some?
    ensures var w := Run(Init(capacity), trace).value;
            var (now, later) := (w.box.TrySend(m).result, w.box.PollSend(m, waker).result);
            if CloseReceiver in trace then now == later == Closed(m)
            else if Unreceived(w) < capacity then now == later == Sent
            else now == Full(m) && later == Pending
  {
    HistoryOfHandles(capacity, trace);
    DeliveredInOrder(capacity, trace);
    RunKeepsCapacity(capacity, trace);
  }

  /**
   * A receive, registering or not, delivers the oldest message that was accepted and
   * not received. Without one it reports closed exactly when the mailbox is cut off.
   */
  lemma RecvAnswers<M>(capacity: nat, trace: seq<Action<M>>, waker: Option<Waker>)
    requires Run(Init(capacity), trace).Some?
    ensures var w := Run(Init(capacity), trace).value;
            && |w.received| <= |w.accepted|
            && (w.box.Recv(waker).result ==
                if |w.received| < |w.accepted| then Received(w.accepted[|w.received|])
                else if CutOff(trace) then RecvClosed
                else Empty)
  {
    HistoryOfHandles(capacity, trace);
    DeliveredInOrder(capacity, trace);
  }

  /**
   * `Closed` means what it says: a receive reports it exactly when every accepted
   * message was received and no continuation accepts another.
   */
  lemma ClosedExactlyWhen<M>(capacity: nat, trace: seq<Action<M>>, waker: Option<Waker>, m: M)
    requires capacity > 0 && Run(Init(capacity), trace).Some?
    ensures var w := Run(Init(capacity), trace).value;
            w.box.Recv(waker).result.RecvClosed? <==>
            && w.received == w.accepted
            && forall later :: Run(w, later).Some? ==> Run(w, later).value.accepted == w.accepted
  {
    var w := Run(Init(capacity), trace).value;
    RecvAnswers(capacity, trace, waker);
    DeliveredInOrder(capacity, trace);
    HistoryOfHandles(capacity, trace);
    RunKeepsCapacity(capacity, trace);
    if w.box.Disconnected() {
      forall later | Run(w, later).Some? ensures Run(w, later).value.accepted == w.accepted {
        CutOffForever(w, later);
      }
    } else if w.received == w.accepted {
      var later := SomeoneSends(w, m);
    }
  }

  lemma {:induction false} CutOffForever<M>(w: World<M>, later: seq<Action<M>>)
    requires ReceiverInv(w) && w.box.Disconnected() && Run(w, later).Some?
    ensures Run(w, later).value.accepted == w.accepted && Run(w, later).value.box.Disconnected()
  {
    if later != [] {
      var before := later[..|later| - 1];
      CutOffForever(w, before);
      RunKeepsReceiverInv(w, before);
      StepStaysCutOff(Run(w, before).value, later[|later| - 1]);
    }
  }

  lemma StepStaysCutOff<M>(w: World<M>, a: Action<M>)
    requires ReceiverInv(w) && w.box.Disconnected() && Next(w, a).Some?
    ensures Next(w, a).value.accepted == w.accepted && Next(w, a).value.box.Disconnected()
  {
  }

  /** While the mailbox is not cut off, somebody can still send. */
  lemma SomeoneSends<M>(w: World<M>, m: M) returns (later: seq<Action<M>>)
    requires w.box.queue == [] && w.box.capacity > 0 && !w.box.Disconnected()
    ensures Run(w, later).Some? && Run(w, later).value.accepted == w.accepted + [m]
  {
    var first := if w.box.senderCount > 0 then CloneSender else AddSender;
    later := [first, Action.TrySend(m)];
    assert later[..1] == [first] && later[..1][..0] == [];
    var w1 := Next(w, first).value;
    assert Run(w, later[..1]) == Some(w1);
    assert Next(w1, Action.TrySend(m)).value.accepted == w.accepted + [m];
  }

  /** Whatever was closed, as many receives as there are unreceived messages deliver them all. */
  lemma {:induction false} ReceivesDeliverAll<M>(capacity: nat, trace: seq<Action<M>>) returns (trace': seq<Action<M>>)
    requires Run(Init(capacity), trace).Some?
    ensures trace <= trace' && |trace'| == |trace| + Unreceived(Run(Init(capacity), trace).value)
    ensures forall i :: |trace| <= i < |trace'| ==> trace'[i] == Recv(None)
    ensures Run(Init(capacity), trace').Some?
    ensures Run(Init(capacity), trace').value.received == Run(Init(capacity), trace).value.accepted
    decreases Unreceived(Run(Init(capacity), trace).value)
  {
    DeliveredInOrder(capacity, trace);
    var w := Run(Init(capacity), trace).value;
    if w.box.queue == [] {
      trace' := trace;
    } else {
      RecvAnswers(capacity, trace, None);
      var longer := trace + [Recv(None)];
      assert longer[..|longer| - 1] == trace;
      trace' := ReceivesDeliverAll(capacity, longer);
    }
  }

  // ----- parked senders -----

  /** Send wakers run in the order of registration, and every parked sender is still registered. */
  ghost predicate InTurn<M>(w: World<M>) {
    && w.registered == w.ran + w.box.sendWakers
    && (forall f :: f in w.parked ==> f in w.box.sendWakers && f in w.pending)
    && (w.box.receiverClosed ==> w.box.sendWakers == [])
  }

  lemma FrontRuns<M>(w: World<M>, w': World<M>)
    requires InTurn(w) && w.box.sendWakers != []
    requires w'.registered == w.registered && w'.ran == w.ran + [w.box.sendWakers[0]]
    requires w'.box.sendWakers == w.box.sendWakers[1..] && w'.box.receiverClosed == w.box.receiverClosed
    requires w'.parked <= w.parked - {w.box.sendWakers[0]} && forall f :: f in w'.parked ==> f in w'.pending
    ensures InTurn(w')
  {
    var q := w.box.sendWakers;
    assert q == [q[0]] + q[1..];
    assert w'.ran + w'.box.sendWakers == w.ran + q;
  }

  lemma PollInTurn<M>(w: World<M>, f: FutureId)
    requires InTurn(w) && Next(w, PollSend(f)).Some?
    ensures InTurn(Next(w, PollSend(f)).value)
  {
  }

  lemma DropInTurn<M>(w: World<M>, f: FutureId)
    requires InTurn(w) && Next(w, DropSend(f)).Some?
    ensures InTurn(Next(w, DropSend(f)).value)
  {
    var w' := Next(w, DropSend(f)).value;
    if w.box.sendWakers != [] {
      FrontRuns(w, w');
    } else {
      assert w'.ran == w.ran;
    }
  }

  lemma RecvInTurn<M>(w: World<M>, waker: Option<Waker>)
    requires InTurn(w)
    ensures InTurn(Next(w, Recv(waker)).value)
  {
    var w' := Next(w, Recv(waker)).value;
    if w.box.queue != [] && w.box.sendWakers != [] {
      FrontRuns(w, w');
    } else {
      assert w'.ran == w.ran;
    }
  }

  lemma CloseInTurn<M>(w: World<M>)
    requires InTurn(w)
    ensures InTurn(Next(w, CloseReceiver).value)
  {
    var w' := Next(w, CloseReceiver).value;
    assert w'.ran == w.ran + w.box.sendWakers;
  }

  lemma StepInTurn<M>(w: World<M>, a: Action<M>)
    requires InTurn(w) && Next(w, a).Some?
    ensures InTurn(Next(w, a).value)
  {
    match a {
      case PollSend(f) => PollInTurn(w, f);
      case DropSend(f) => DropInTurn(w, f);
      case Recv(waker) => RecvInTurn(w, waker);
      case CloseReceiver => CloseInTurn(w);
      case _ =>
    }
  }

  /**
   * In every run send wakers run in the order in which they were registered, and a
   * sender whose last poll found the mailbox full is still registered or had its
   * waker run since; once the receiver is closed none is left parked.
   */
  lemma {:induction false} SendersWokenInTurn<M>(capacity: nat, trace: seq<Action<M>>)
    requires Run(Init(capacity), trace).Some?
    ensures var w := Run(Init(capacity), trace).value; InTurn(w) && (CloseReceiver in trace ==> w.parked == {})
  {
    HistoryOfHandles(capacity, trace);
    if trace != [] {
      SendersWokenInTurn(capacity, trace[..|trace| - 1]);
      StepInTurn(Run(Init(capacity), trace[..|trace| - 1]).value, trace[|trace| - 1]);
    }
  }

  /**
   * Who is woken, exactly: a sleeping receiver by the step that fills or cuts off the
   * mailbox; the first registered send waker, if any, by a receive that took a
   * message and by the drop of a pending send; and all of them by the close.
   */
  lemma WokenExactlyWhen<M>(capacity: nat, trace: seq<Action<M>>, a: Action<M>)
    requires Run(Init(capacity), trace).Some? && Next(Run(Init(capacity), trace).value, a).Some?
    ensures var w, w' := Run(Init(capacity), trace).value, Next(Run(Init(capacity), trace).value, a).value;
            && (w.asleep.Some? && !a.Recv? ==> (w'.asleep.None? <==> w'.box.queue != [] || w'.box.Disconnected()))
            && w'.ran == w.ran + if a.CloseReceiver? then w.box.sendWakers
                                 else if a.DropSend? || w'.received != w.received then FirstOf(w.box.sendWakers)
                                 else []
  {
    ReceiverIsWoken(capacity, trace);
    SendersWokenInTurn(capacity, trace);
    StepRunsWakers(Run(Init(capacity), trace).value, a);
    if !a.Recv? {
      StepWakesReceiver(Run(Init(capacity), trace).value, a);
    }
  }

  function FirstOf(wakers: seq<Waker>): seq<Waker> {
    if wakers == [] then [] else [wakers[0]]
  }

  lemma StepRunsWakers<M>(w: World<M>, a: Action<M>)
    requires Next(w, a).Some? && (w.box.receiverClosed ==> w.box.sendWakers == [])
    ensures var w' := Next(w, a).value;
            w'.ran == w.ran + if a.CloseReceiver? then w.box.sendWakers
                              else if a.DropSend? || w'.received != w.received then FirstOf(w.box.sendWakers)
                              else []
  {
  }

  lemma StepWakesReceiver<M>(w: World<M>, a: Action<M>)
    requires Next(w, a).Some? && SleeperInv(w) && !a.Recv?
    requires w.box.queue != [] || w.box.Disconnected() ==> w.asleep.None?
    ensures var w' := Next(w, a).value;
            w.asleep.Some? ==> (w'.asleep.None? <==> w'.box.queue != [] || w'.box.Disconnected())
  {
  }
}
