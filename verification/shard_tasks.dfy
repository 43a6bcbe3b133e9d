/**
 * The tasks of a shard over whole runs of the wake chain: which are finished, which
 * are queued and in what order they are polled, how many polls one batch makes,
 * and when the loop waits or ends. Everything is told from the history of steps.
 */
module ShardTasks {
  import opened Wrappers
  import opened WakeChain
  import Ready = ReadyQueue

  // ----- what a history says -----

  /** The last step is one in which task `t` finished: its poll returned ready, or its receive saw the end. */
  predicate Finishes<M>(c: Config, s: State<M>, a: Action<M>, t: TaskId) {
    || (t != c.receiver && a == OtherReturns(true) && s.loop.PollOther? && s.loop.task == t)
    || (t == c.receiver && a.LoadClosedAgain? && s.closed)
  }

  ghost predicate Completed<M>(c: Config, trace: seq<Action<M>>, t: TaskId)
    requires Exec(c, trace).Some?
  {
    trace != [] &&
    (var before := trace[..|trace| - 1];
     Completed(c, before, t) || Finishes(c, Exec(c, before).value, trace[|trace| - 1], t))
  }

  /** The task whose waker thread `t` last took or fired. */
  function WakerOf<M>(c: Config, trace: seq<Action<M>>, t: ThreadId): TaskId {
    if trace == [] then 0
    else
      match trace[|trace| - 1]
      case FireOther(u, task) => if u == t then task else WakerOf(c, trace[..|trace| - 1], t)
      case TakeWaker(u) => if u == t then c.receiver else WakerOf(c, trace[..|trace| - 1], t)
      case _ => WakerOf(c, trace[..|trace| - 1], t)
  }

  /** The wakes of a run, and its takes within the poll budget. */
  ghost function QueueOps<M>(c: Config, trace: seq<Action<M>>): seq<Ready.Op>
    requires Exec(c, trace).Some?
  {
    if trace == [] then []
    else
      var before := trace[..|trace| - 1];
      QueueOps(c, before) +
      match trace[|trace| - 1]
      case MarkReady(t) => [Ready.Mark(WakerOf(c, before, t))]
      case Take => if BatchSize(c, before) < c.budget then [Ready.Take] else []
      case _ => []
  }

  /** The takes from the queue since the loop last began a batch. */
  ghost function BatchSize<M>(c: Config, trace: seq<Action<M>>): nat
    requires Exec(c, trace).Some?
  {
    if trace == [] then 0
    else
      var before := trace[..|trace| - 1];
      var (s, s') := (Exec(c, before).value, Exec(c, trace).value);
      if |s'.queue| < |s.queue| then BatchSize(c, before) + 1
      else if s'.loop == TakeReady(0) && !s.loop.TakeReady? then 0
      else BatchSize(c, before)
  }

  /** A wake of the reactor was posted and not cleared since. */
  predicate WakePosted<M>(trace: seq<Action<M>>) {
    trace != [] &&
    match trace[|trace| - 1]
    case WakeReactor(_) => true
    case ClearWake => false
    case _ => WakePosted(trace[..|trace| - 1])
  }

  /** The receiver registered its waker, and nobody took it since. */
  predicate Registered<M>(trace: seq<Action<M>>) {
    trace != [] &&
    match trace[|trace| - 1]
    case RegisterWaker => true
    case TakeWaker(_) => false
    case _ => Registered(trace[..|trace| - 1])
  }

  /** The holder of the push lock has stored the head, so that its message is in. */
  predicate HeadStored<M>(trace: seq<Action<M>>) {
    trace != [] &&
    match trace[|trace| - 1]
    case PushStep(_, step) => step.StoreHead? || HeadStored(trace[..|trace| - 1])
    case LockPush(_) => false
    case _ => HeadStored(trace[..|trace| - 1])
  }

  predicate CloseStored<M>(trace: seq<Action<M>>) {
    exists i :: 0 <= i < |trace| && trace[i].StoreClosed?
  }

  // ----- tasks -----

  lemma StepFinishes<M>(c: Config, s: State<M>, a: Action<M>, t: TaskId)
    requires Wiring(c, s) && Next(c, s, a).Some?
    ensures t in Next(c, s, a).value.live <==> t in s.live && !Finishes(c, s, a, t)
  {
    if !NextReceive(c, s, a).Some? && !NextLoop(c, s, a).Some? {
      ThreadsKeepLive(c, s, a);
    }
  }

  lemma ThreadsKeepLive<M>(c: Config, s: State<M>, a: Action<M>)
    requires NextThread(c, s, a).Some?
    ensures NextThread(c, s, a).value.live == s.live
  {
  }

  /** Over every run, a task is live exactly until a step in which it finished. */
  lemma {:induction false} LiveExactlyUntilCompleted<M>(c: Config, trace: seq<Action<M>>, t: TaskId)
    requires c.Valid() && Exec(c, trace).Some?
    ensures t in Exec(c, trace).value.live <==> t < c.tasks && !Completed(c, trace, t)
  {
    if trace != [] {
      var before, a := trace[..|trace| - 1], trace[|trace| - 1];
      LiveExactlyUntilCompleted(c, before, t);
      Reachable(c, before);
      StepFinishes(c, Exec(c, before).value, a, t);
    }
  }

  /** The loop ends only when every task has completed. */
  lemma {:induction false} FinishedMeansCompleted<M>(c: Config, trace: seq<Action<M>>, t: TaskId)
    requires c.Valid() && Exec(c, trace).Some? && Exec(c, trace).value.loop.Finished? && t < c.tasks
    ensures Completed(c, trace, t)
  {
    var before, a := trace[..|trace| - 1], trace[|trace| - 1];
    if Exec(c, before).value.loop.Finished? {
      FinishedMeansCompleted(c, before, t);
    } else {
      FinishedWhenNoneLive(c, Exec(c, before).value, a);
      LiveExactlyUntilCompleted(c, before, t);
    }
  }

  lemma FinishedWhenNoneLive<M>(c: Config, s: State<M>, a: Action<M>)
    requires Next(c, s, a).Some? && Next(c, s, a).value.loop.Finished? && !s.loop.Finished?
    ensures s.live == {}
  {
  }

  /** The loop's checks: it ends exactly when every task completed, and waits exactly when none is queued. */
  lemma LoopChecks<M>(c: Config, trace: seq<Action<M>>)
    requires c.Valid() && Exec(c, trace).Some? && Next(c, Exec(c, trace).value, LoopCheck).Some?
    ensures var s, s' := Exec(c, trace).value, Next(c, Exec(c, trace).value, LoopCheck).value;
            && (s.loop.CheckLive? ==>
                  if forall t: TaskId :: t < c.tasks ==> Completed(c, trace, t) then s'.loop.Finished?
                  else s'.loop.CheckReady?)
            && (s.loop.CheckReady? ==>
                  if Ready.Play(AllTasks(c), c.tasks, QueueOps(c, trace)).0 == [] then s'.loop.EnterWait?
                  else s'.loop == TakeReady(0))
  {
    QueueIsPlayed(c, trace);
    var s := Exec(c, trace).value;
    forall t: TaskId ensures t in s.live <==> t < c.tasks && !Completed(c, trace, t) {
      LiveExactlyUntilCompleted(c, trace, t);
    }
    if s.live != {} {
      var t :| t in s.live;
      assert t < c.tasks && !Completed(c, trace, t);
    }
  }

  // ----- the queue -----

  function AllTasks(c: Config): seq<TaskId> {
    seq(c.tasks, i => i)
  }

  ghost predicate WakersOk<M>(c: Config, s: State<M>, trace: seq<Action<M>>) {
    forall t: ThreadId :: Pc(s, t).HoldsWaker? ==> Pc(s, t).task == WakerOf(c, trace, t)
  }

  lemma StepKeepsWakers<M>(c: Config, s: State<M>, before: seq<Action<M>>, a: Action<M>)
    requires WakersOk(c, s, before) && Next(c, s, a).Some?
    ensures WakersOk(c, Next(c, s, a).value, before + [a])
  {
    var s' := Next(c, s, a).value;
    assert (before + [a])[..|before|] == before;
    forall t: ThreadId | Pc(s', t).HoldsWaker? ensures Pc(s', t).task == WakerOf(c, before + [a], t) {
      HolderMoves(c, s, a, t);
    }
  }

  /** A thread comes to hold a waker by firing one or by taking the receiver's. */
  lemma HolderMoves<M>(c: Config, s: State<M>, a: Action<M>, t: ThreadId)
    requires Next(c, s, a).Some? && Pc(Next(c, s, a).value, t).HoldsWaker?
    ensures var task := Pc(Next(c, s, a).value, t).task;
            || (a == FireOther(t, task))
            || (a == TakeWaker(t) && task == c.receiver)
            || (Pc(s, t) == HoldsWaker(task) && !(a.FireOther? && a.t == t) && !(a.TakeWaker? && a.t == t))
  {
  }

  /** The batch counter of the loop is the number of takes since the batch began, and stays within the budget. */
  ghost predicate BatchOk<M>(c: Config, s: State<M>, n: nat) {
    && n <= c.budget
    && (s.loop.TakeReady? ==> s.loop.polled == n)
    && (s.loop.PollReceiver? || s.loop.PollOther? ==> s.loop.polled + 1 == n)
  }

  ghost predicate QueueOk<M>(c: Config, s: State<M>, ops: seq<Ready.Op>) {
    s.queue == Ready.Play(AllTasks(c), c.tasks, ops).0
  }

  lemma PlaySnoc(q: seq<TaskId>, tasks: nat, ops: seq<Ready.Op>, op: Ready.Op)
    ensures var (q', taken) := Ready.Play(q, tasks, ops);
            Ready.Play(q, tasks, ops + [op]) ==
            match op
            case Mark(task) => (Ready.Marked(q', tasks, task), taken)
            case Take => if q' == [] then (q', taken) else (q'[1..], taken + [q'[0]])
  {
    assert (ops + [op])[..|ops|] == ops;
  }

  lemma MarkQueues<M>(c: Config, s: State<M>, ops: seq<Ready.Op>, t: ThreadId, task: TaskId)
    requires QueueOk(c, s, ops) && Pc(s, t) == HoldsWaker(task)
    ensures QueueOk(c, Next(c, s, MarkReady(t)).value, ops + [Ready.Mark(task)])
  {
    PlaySnoc(AllTasks(c), c.tasks, ops, Ready.Mark(task));
  }

  lemma TakeQueues<M>(c: Config, s: State<M>, ops: seq<Ready.Op>, n: nat)
    requires QueueOk(c, s, ops) && BatchOk(c, s, n) && s.loop.TakeReady?
    ensures QueueOk(c, Next(c, s, Take).value, ops + if n < c.budget then [Ready.Take] else [])
  {
    PlaySnoc(AllTasks(c), c.tasks, ops, Ready.Take);
    assert ops + [] == ops;
  }

  lemma OthersKeepQueue<M>(c: Config, s: State<M>, a: Action<M>)
    requires Next(c, s, a).Some? && !a.MarkReady? && !a.Take?
    ensures Next(c, s, a).value.queue == s.queue
  {
  }

  lemma StepKeepsBatch<M>(c: Config, s: State<M>, a: Action<M>, n: nat)
    requires c.Valid() && BatchOk(c, s, n) && Next(c, s, a).Some?
    ensures var s' := Next(c, s, a).value;
            BatchOk(c, s', if |s'.queue| < |s.queue| then n + 1
                           else if s'.loop == TakeReady(0) && !s.loop.TakeReady? then 0 else n)
  {
    if NextLoop(c, s, a).Some? {
      LoopKeepsBatch(c, s, a, n);
    } else if !NextReceive(c, s, a).Some? {
      ThreadsKeepLoop(c, s, a);
    }
  }

  lemma LoopKeepsBatch<M>(c: Config, s: State<M>, a: Action<M>, n: nat)
    requires c.Valid() && BatchOk(c, s, n) && NextLoop(c, s, a).Some?
    ensures var s' := NextLoop(c, s, a).value;
            BatchOk(c, s', if |s'.queue| < |s.queue| then n + 1
                           else if s'.loop == TakeReady(0) && !s.loop.TakeReady? then 0 else n)
  {
  }

  lemma ThreadsKeepLoop<M>(c: Config, s: State<M>, a: Action<M>)
    requires NextThread(c, s, a).Some?
    ensures NextThread(c, s, a).value.loop == s.loop && |NextThread(c, s, a).value.queue| >= |s.queue|
  {
  }

  /**
   * Over every run the ready queue is what the wakes and takes of the run leave of
   * it, first in first out without repetition, and no batch takes more tasks than
   * the budget.
   */
  lemma {:induction false} QueueIsPlayed<M>(c: Config, trace: seq<Action<M>>)
    requires c.Valid() && Exec(c, trace).Some?
    ensures WakersOk(c, Exec(c, trace).value, trace)
    ensures BatchOk(c, Exec(c, trace).value, BatchSize(c, trace)) && BatchSize(c, trace) <= c.budget
    ensures QueueOk(c, Exec(c, trace).value, QueueOps(c, trace))
  {
    if trace != [] {
      var before, a := trace[..|trace| - 1], trace[|trace| - 1];
      var s := Exec(c, before).value;
      QueueIsPlayed(c, before);
      StepKeepsWakers(c, s, before, a);
      StepKeepsBatch(c, s, a, BatchSize(c, before));
      assert before + [a] == trace;
      match a {
        case MarkReady(t) => MarkQueues(c, s, QueueOps(c, before), t, WakerOf(c, before, t));
        case Take => TakeQueues(c, s, QueueOps(c, before), BatchSize(c, before));
        case _ =>
          OthersKeepQueue(c, s, a);
          assert QueueOps(c, before) + [] == QueueOps(c, before);
      }
    }
  }

  /**
   * A take within the budget polls the front of the queue if that task has not
   * completed; with the budget used up or nothing queued the batch ends.
   */
  lemma TakePollsFront<M>(c: Config, trace: seq<Action<M>>)
    requires c.Valid() && Exec(c, trace).Some? && Exec(c, trace).value.loop.TakeReady?
    ensures var s, s' := Exec(c, trace).value, Next(c, Exec(c, trace).value, Take).value;
            var queue := Ready.Play(AllTasks(c), c.tasks, QueueOps(c, trace)).0;
            if BatchSize(c, trace) == c.budget || queue == [] then s'.loop.CheckLive?
            else
              && (s'.loop.PollReceiver? <==> queue[0] == c.receiver && !Completed(c, trace, c.receiver))
              && (s'.loop.PollOther? <==> queue[0] != c.receiver && !Completed(c, trace, queue[0]))
              && (s'.loop.PollOther? ==> s'.loop.task == queue[0])
              && (Completed(c, trace, queue[0]) ==> s'.loop.TakeReady?)
  {
    QueueIsPlayed(c, trace);
    var queue := Ready.Play(AllTasks(c), c.tasks, QueueOps(c, trace)).0;
    if queue != [] {
      QueuedIsTask(c, QueueOps(c, trace), queue[0]);
      LiveExactlyUntilCompleted(c, trace, queue[0]);
    }
  }

  lemma {:induction false} QueuedIsTask(c: Config, ops: seq<Ready.Op>, t: TaskId)
    requires t in Ready.Play(AllTasks(c), c.tasks, ops).0
    ensures t < c.tasks
  {
    if ops != [] {
      var q := Ready.Play(AllTasks(c), c.tasks, ops[..|ops| - 1]).0;
      if t in q {
        QueuedIsTask(c, ops[..|ops| - 1], t);
      }
    }
  }

  // ----- the reactor's flag and the channel's -----

  lemma StepKeepsFlags<M>(c: Config, s: State<M>, a: Action<M>)
    requires Next(c, s, a).Some?
    ensures var s' := Next(c, s, a).value;
            && (s'.woke <==> a.WakeReactor? || (s.woke && !a.ClearWake?))
            && (s'.closed <==> s.closed || a.StoreClosed?)
            && (s'.waker <==> a.RegisterWaker? || (s.waker && !a.TakeWaker?))
  {
  }

  lemma StepKeepsLock<M>(c: Config, s: State<M>, a: Action<M>, stored: bool)
    requires Next(c, s, a).Some? && (!s.ring.producer.Unlocked? ==> (s.ring.producer.Pushed? <==> stored))
    ensures var s' := Next(c, s, a).value;
            var stored' := if a.PushStep? then a.step.StoreHead? || stored else if a.LockPush? then false else stored;
            !s'.ring.producer.Unlocked? ==> (s'.ring.producer.Pushed? <==> stored')
  {
    RingFollows(c, s, a);
  }

  /**
   * A wake is pending exactly when one was posted since the loop last cleared it, a
   * waker is registered exactly until it is taken, and the channel is closed once
   * that is stored.
   */
  lemma {:induction false} HistoryOfFlags<M>(c: Config, trace: seq<Action<M>>)
    requires Exec(c, trace).Some?
    ensures Exec(c, trace).value.woke <==> WakePosted(trace)
    ensures Exec(c, trace).value.closed <==> CloseStored(trace)
    ensures Exec(c, trace).value.waker <==> Registered(trace)
  {
    if trace != [] {
      var before, a := trace[..|trace| - 1], trace[|trace| - 1];
      HistoryOfFlags(c, before);
      StepKeepsFlags(c, Exec(c, before).value, a);
      assert trace == before + [a];
      if CloseStored(before) {
        var i :| 0 <= i < |before| && before[i].StoreClosed?;
        assert trace[i].StoreClosed?;
      }
    }
  }

  /** A send goes on to push exactly while no close was stored. */
  lemma SendSeesClose<M>(c: Config, trace: seq<Action<M>>, t: ThreadId, m: M)
    requires Exec(c, trace).Some? && Pc(Exec(c, trace).value, t).Idle?
    ensures var s' := Next(c, Exec(c, trace).value, LoadClosed(t, m));
            s'.Some? && Pc(s'.value, t) == if CloseStored(trace) then Idle else SawOpen(m)
  {
    HistoryOfFlags(c, trace);
  }

  lemma {:induction false} HistoryOfLock<M>(c: Config, trace: seq<Action<M>>)
    requires Exec(c, trace).Some?
    ensures var p := Exec(c, trace).value.ring.producer; !p.Unlocked? ==> (p.Pushed? <==> HeadStored(trace))
  {
    if trace != [] {
      var before, a := trace[..|trace| - 1], trace[|trace| - 1];
      HistoryOfLock(c, before);
      StepKeepsLock(c, Exec(c, before).value, a, HeadStored(before));
    }
  }

  /**
   * Whom a sender wakes: after unlocking it goes on to the receiver exactly when its
   * message is in, and then it wakes the receiver exactly when one is registered.
   */
  lemma SenderWakes<M>(c: Config, trace: seq<Action<M>>, t: ThreadId)
    requires c.Valid() && Exec(c, trace).Some?
    ensures var s := Exec(c, trace).value;
            && (Next(c, s, UnlockPush(t)).Some? ==>
                  Pc(Next(c, s, UnlockPush(t)).value, t) == if HeadStored(trace) then MustTakeWaker else Idle)
            && (Next(c, s, TakeWaker(t)).Some? ==>
                  Pc(Next(c, s, TakeWaker(t)).value, t) == if Registered(trace) then HoldsWaker(c.receiver) else Idle)
  {
    Reachable(c, trace);
    HistoryOfFlags(c, trace);
    HistoryOfLock(c, trace);
  }
}
