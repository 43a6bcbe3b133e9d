/**
 * The one-shot reply between a caller and a shard. Every operation is one mutex
 * section; `send` and `drop` consume the sender, so at most one of them happens.
 */
module Reply {
  import opened Wrappers

  type Waker = nat

  datatype WaitResult<+T> = Value(value: T) | NotYet | ReplyFailed

  datatype State<+T> = State(value: Option<T>, senderAlive: bool, waker: Option<Waker>) {
    /** The state after `send`, and the waker to run. The caller of `send` owns the only sender. */
    function Send(v: T): (State<T>, Option<Waker>)
    {
      if value.Some? then (this, None) else (State(Some(v), false, None), waker)
    }

    function DropSender(): (State<T>, Option<Waker>) {
      if !senderAlive then (this, None) else (State(value, false, None), waker)
    }

    /** `try_wait`, and one pass of the loop in `wait`. */
    function TryWait(): (State<T>, WaitResult<T>) {
      if value.Some? then (this.(value := None), Value(value.value))
      else if senderAlive then (this, NotYet)
      else (this, ReplyFailed)
    }

    function Poll(w: Waker): (State<T>, WaitResult<T>) {
      if value.Some? then (this.(value := None), Value(value.value))
      else if senderAlive then (this.(waker := Some(w)), NotYet)
      else (this, ReplyFailed)
    }
  }

  function Fresh<T>(): State<T> { State(None, true, None) }

  class ReplyShared<T> {
    var value: Option<T>
    var senderAlive: bool
    var waker: Option<Waker>

    ghost function Value(): State<T>
      reads this
    {
      State(value, senderAlive, waker)
    }

    constructor ()
      ensures Value() == Fresh()
    {
      value, senderAlive, waker := None, true, None;
    }

    method Send(v: T) returns (wake: Option<Waker>)
      modifies this
      ensures (Value(), wake) == old(Value()).Send(v)
      ensures old(value).Some? ==> Value() == old(Value()) && wake.None?
    {
      if value.Some? {
        return None;
      }
      value := Some(v);
      senderAlive := false;
      wake := waker;
      waker := None;
    }

    method DropSender() returns (wake: Option<Waker>)
      modifies this
      ensures (Value(), wake) == old(Value()).DropSender()
    {
      if !senderAlive {
        return None;
      }
      senderAlive := false;
      wake := waker;
      waker := None;
    }

    method TryWait() returns (r: WaitResult<T>)
      modifies this
      ensures (Value(), r) == old(Value()).TryWait()
    {
      if value.Some? {
        r := WaitResult.Value(value.value);
        value := None;
      } else if senderAlive {
        r := NotYet;
      } else {
        r := ReplyFailed;
      }
    }

    method Poll(w: Waker) returns (r: WaitResult<T>)
      modifies this
      ensures (Value(), r) == old(Value()).Poll(w)
    {
      if value.Some? {
        r := WaitResult.Value(value.value);
        value := None;
      } else if senderAlive {
        waker := Some(w);
        r := NotYet;
      } else {
        r := ReplyFailed;
      }
    }
  }

  // ----- whole lives of a reply -----

  datatype Action<+T> = DoSend(v: T) | DoDrop | DoTryWait | DoPoll(w: Waker)

  /**
   * A reply with what was sent, what was handed out, and the task that is asleep
   * on it, if any.
   */
  datatype Life<+T> = Life(state: State<T>, sent: Option<T>, yielded: seq<T>, asleep: Option<Waker>)

  function Next<T>(l: Life<T>, a: Action<T>): Option<Life<T>> {
    match a
    case DoSend(v) =>
      if !l.state.senderAlive then None
      else
        var (s, wake) := l.state.Send(v);
        Some(Life(s, Some(v), l.yielded, if wake == l.asleep then None else l.asleep))
    case DoDrop =>
      if !l.state.senderAlive then None
      else
        var (s, wake) := l.state.DropSender();
        Some(l.(state := s, asleep := if wake == l.asleep then None else l.asleep))
    case DoTryWait =>
      var (s, r) := l.state.TryWait();
      Some(l.(state := s, yielded := if r.Value? then l.yielded + [r.value] else l.yielded))
    case DoPoll(w) =>
      var (s, r) := l.state.Poll(w);
      Some(l.(state := s, yielded := if r.Value? then l.yielded + [r.value] else l.yielded,
              asleep := if r.NotYet? then Some(w) else None))
  }

  function Run<T>(trace: seq<Action<T>>): Option<Life<T>> {
    if trace == [] then Some(Life(Fresh(), None, [], None))
    else
      match Run(trace[..|trace| - 1])
      case None => None
      case Some(l) => Next(l, trace[|trace| - 1])
  }

  ghost predicate Inv<T>(l: Life<T>) {
    && (l.state.senderAlive ==> l.sent.None?)
    && (l.state.waker.Some? ==> l.state.value.None? && l.state.senderAlive)
    && (l.asleep.Some? ==> l.state.waker == l.asleep)
    && l.yielded + (if l.state.value.Some? then [l.state.value.value] else [])
      == (if l.sent.Some? then [l.sent.value] else [])
  }

  /**
   * In every life of a reply: what was sent is handed out at most once and
   * nothing else is; a registered waker means the value is still to come; and a
   * task asleep on the reply is registered, so the send or drop will wake it.
   */
  lemma {:induction false} ReplyResolvesOnce<T>(trace: seq<Action<T>>)
    requires Run(trace).Some?
    ensures Inv(Run(trace).value)
    ensures |Run(trace).value.yielded| <= 1
    ensures Run(trace).value.yielded != [] ==> Run(trace).value.state.TryWait().1.ReplyFailed?
  {
    if trace != [] {
      ReplyResolvesOnce(trace[..|trace| - 1]);
    }
  }

  /** What the sender did in the history, if anything: a value, or the drop of the sender. */
  function SenderSaid<T>(trace: seq<Action<T>>): Option<Option<T>> {
    if trace == [] then None
    else
      match trace[|trace| - 1]
      case DoSend(v) => Some(Some(v))
      case DoDrop => Some(None)
      case _ => SenderSaid(trace[..|trace| - 1])
  }

  /**
   * What a wait answers, blocking or not: the value exactly when it was sent and not
   * handed out yet, not yet exactly while the sender has done nothing, and failure
   * otherwise.
   */
  lemma AnsweredExactlyWhen<T>(trace: seq<Action<T>>, w: Waker)
    requires Run(trace).Some?
    ensures var state := Run(trace).value.state;
            && state.TryWait().1 == state.Poll(w).1 ==
                 match SenderSaid(trace)
                 case None => NotYet
                 case Some(None) => ReplyFailed
                 case Some(Some(v)) => if Run(trace).value.yielded == [] then WaitResult.Value(v) else ReplyFailed
  {
    ReplyResolvesOnce(trace);
    SaidIsSent(trace);
  }

  /** A task asleep on the reply is woken exactly by the send or the drop. */
  lemma WokenExactlyWhen<T>(trace: seq<Action<T>>, a: Action<T>)
    requires Run(trace).Some? && Next(Run(trace).value, a).Some? && Run(trace).value.asleep.Some? && !a.DoPoll?
    ensures Next(Run(trace).value, a).value.asleep.None? <==> a.DoSend? || a.DoDrop?
  {
    ReplyResolvesOnce(trace);
  }

  lemma {:induction false} SaidIsSent<T>(trace: seq<Action<T>>)
    requires Run(trace).Some?
    ensures var l := Run(trace).value;
            && (l.state.senderAlive <==> SenderSaid(trace).None?)
            && l.sent == (match SenderSaid(trace) case Some(Some(v)) => Some(v) case _ => None)
  {
    if trace != [] {
      SaidIsSent(trace[..|trace| - 1]);
      ReplyResolvesOnce(trace[..|trace| - 1]);
    }
  }
}
