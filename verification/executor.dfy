/**
 * The per-shard executor: a ready queue with wake coalescing, budgeted polling
 * and one blocking reactor wait.
 *
 * `run` is modelled for futures that wake only themselves, each finitely often:
 * for those it is proved to finish without ever blocking and to poll the
 * futures in an order that does not depend on the poll budget. Wakes that come
 * from other threads while the shard blocks are the subject of `WakeChain`.
 */
module ReadyQueue {
  type TaskId = nat

  ghost predicate NoDuplicates(q: seq<TaskId>) {
    forall i, j :: 0 <= i < j < |q| ==> q[i] != q[j]
  }

  /** The queue after `mark_ready(task)`: a task already queued is not queued again. */
  function Marked(q: seq<TaskId>, tasks: nat, task: TaskId): seq<TaskId> {
    if task < tasks && task !in q then q + [task] else q
  }

  lemma FrontLeaves(q: seq<TaskId>)
    requires NoDuplicates(q) && q != []
    ensures q[0] in q && NoDuplicates(q[1..])
    ensures forall t :: t in q[1..] <==> t in q && t != q[0]
  {
    assert q == [q[0]] + q[1..];
  }

  datatype Op = Mark(task: TaskId) | Take

  /** The queue after a history of wakes and takes, and the tasks taken on the way. */
  function Play(q: seq<TaskId>, tasks: nat, ops: seq<Op>): (r: (seq<TaskId>, seq<TaskId>)) {
    if ops == [] then (q, [])
    else
      var (q', taken) := Play(q, tasks, ops[..|ops| - 1]);
      match ops[|ops| - 1]
      case Mark(task) => (Marked(q', tasks, task), taken)
      case Take => if q' == [] then (q', taken) else (q'[1..], taken + [q'[0]])
  }

  /**
   * FIFO service: under any interleaving of wakes, the task at position `k` is
   * the `k`-th to be taken, so exactly the `k` tasks ahead of it go first, and
   * no task is ever queued twice.
   */
  lemma {:induction false} TakenInQueueOrder(q: seq<TaskId>, tasks: nat, ops: seq<Op>)
    requires NoDuplicates(q)
    ensures var (q', taken) := Play(q, tasks, ops);
            NoDuplicates(q') && q <= taken + q'
  {
    if ops != [] {
      TakenInQueueOrder(q, tasks, ops[..|ops| - 1]);
      var (q', taken) := Play(q, tasks, ops[..|ops| - 1]);
      match ops[|ops| - 1] {
        case Mark(task) => MarkKeepsOrder(q, q', taken, tasks, task);
        case Take =>
          if q' != [] {
            TakeKeepsOrder(q, q', taken);
          }
      }
    }
  }

  lemma MarkKeepsOrder(q: seq<TaskId>, q': seq<TaskId>, taken: seq<TaskId>, tasks: nat, task: TaskId)
    requires NoDuplicates(q') && q <= taken + q'
    ensures NoDuplicates(Marked(q', tasks, task)) && q <= taken + Marked(q', tasks, task)
  {
    assert taken + q' <= taken + Marked(q', tasks, task);
  }

  lemma TakeKeepsOrder(q: seq<TaskId>, q': seq<TaskId>, taken: seq<TaskId>)
    requires NoDuplicates(q') && q <= taken + q' && q' != []
    ensures NoDuplicates(q'[1..]) && q <= taken + [q'[0]] + q'[1..]
  {
    assert taken + [q'[0]] + q'[1..] == taken + q';
  }

  lemma {:induction false} PlayConcat(q: seq<TaskId>, tasks: nat, first: seq<Op>, more: seq<Op>)
    ensures var (q1, taken1) := Play(q, tasks, first);
            var (q2, taken2) := Play(q1, tasks, more);
            Play(q, tasks, first + more) == (q2, taken1 + taken2)
  {
    if more == [] {
      assert first + more == first;
      assert Play(q, tasks, first).1 + [] == Play(q, tasks, first).1;
    } else {
      PlayConcat(q, tasks, first, more[..|more| - 1]);
      assert (first + more)[..|first + more| - 1] == first + more[..|more| - 1];
      var (q1, taken1) := Play(q, tasks, first);
      var (q2, taken2) := Play(q1, tasks, more[..|more| - 1]);
      if q2 != [] {
        assert taken1 + taken2 + [q2[0]] == taken1 + (taken2 + [q2[0]]);
      }
    }
  }

  /** A wake is not lost: the task is taken after it, or is still queued, whatever else happens. */
  lemma WakeIsServed(q: seq<TaskId>, tasks: nat, before: seq<Op>, task: TaskId, after: seq<Op>)
    requires NoDuplicates(q) && task < tasks
    ensures var taken := Play(q, tasks, before).1;
            var (q', taken') := Play(q, tasks, before + [Mark(task)] + after);
            taken <= taken' && task in taken'[|taken|..] + q'
  {
    var marked := before + [Mark(task)];
    var (q1, taken1) := Play(q, tasks, marked);
    assert marked[..|before|] == before;
    assert task in q1 && taken1 == Play(q, tasks, before).1;
    TakenInQueueOrder(q, tasks, marked);
    TakenInQueueOrder(q1, tasks, after);
    PlayConcat(q, tasks, marked, after);
    var (q2, taken2) := Play(q1, tasks, after);
    var k :| 0 <= k < |q1| && q1[k] == task;
    assert (taken2 + q2)[k] == task;
    assert (taken1 + taken2)[|taken1|..] == taken2;
  }
}

module ShardExecutor {
  import opened Wrappers
  import opened ReadyQueue

  /** A task body that wakes itself `wakes` more times before it completes. */
  datatype Future = Future(wakes: nat)

  function LiveCount(tasks: seq<Option<Future>>): nat {
    if tasks == [] then 0 else LiveCount(tasks[..|tasks| - 1]) + (if tasks[|tasks| - 1].Some? then 1 else 0)
  }

  /** The polls still to come: a future that wakes itself `n` times is polled `n + 1` times. */
  function Work(tasks: seq<Option<Future>>): nat {
    if tasks == [] then 0
    else Work(tasks[..|tasks| - 1]) + (match tasks[|tasks| - 1] case Some(f) => f.wakes + 1 case None => 0)
  }

  /** The slot of a task after one poll of its future. */
  function Polled(f: Future): Option<Future> {
    if f.wakes == 0 then None else Some(Future(f.wakes - 1))
  }

  lemma {:induction false} UpdateCounts(tasks: seq<Option<Future>>, t: TaskId, slot: Option<Future>)
    requires t < |tasks|
    ensures LiveCount(tasks[t := slot]) + (if tasks[t].Some? then 1 else 0)
              == LiveCount(tasks) + (if slot.Some? then 1 else 0)
    ensures Work(tasks[t := slot]) + (match tasks[t] case Some(f) => f.wakes + 1 case None => 0)
         == Work(tasks) + (match slot case Some(f) => f.wakes + 1 case None => 0)
  {
    var n := |tasks| - 1;
    if t == n {
      assert tasks[t := slot][..n] == tasks[..n];
    } else {
      UpdateCounts(tasks[..n], t, slot);
      assert tasks[t := slot][..n] == tasks[..n][t := slot];
    }
  }

  lemma {:induction false} LiveCountZero(tasks: seq<Option<Future>>)
    ensures LiveCount(tasks) == 0 <==> forall t :: 0 <= t < |tasks| ==> tasks[t].None?
  {
    if tasks != [] {
      LiveCountZero(tasks[..|tasks| - 1]);
    }
  }

  /** The front of the queue names a future that is still to be polled. */
  predicate FrontAlive(q: seq<TaskId>, tasks: seq<Option<Future>>) {
    q != [] && q[0] < |tasks| && tasks[q[0]].Some?
  }

  /** Queue and tasks after the live front task is taken and polled. */
  function AfterPoll(q: seq<TaskId>, tasks: seq<Option<Future>>): (seq<TaskId>, seq<Option<Future>>)
    requires FrontAlive(q, tasks)
  {
    var t, f := q[0], tasks[q[0]].value;
    (if f.wakes > 0 then q[1..] + [t] else q[1..], tasks[t := Polled(f)])
  }

  /** The order in which futures are polled: strict round robin over the ready queue. */
  function Schedule(q: seq<TaskId>, tasks: seq<Option<Future>>): (polls: seq<TaskId>)
    decreases Work(tasks) + |q|
  {
    if q == [] then []
    else if !FrontAlive(q, tasks) then Schedule(q[1..], tasks)
    else
      UpdateCounts(tasks, q[0], Polled(tasks[q[0]].value));
      [q[0]] + Schedule(AfterPoll(q, tasks).0, AfterPoll(q, tasks).1)
  }

  lemma PollFollowsSchedule(q: seq<TaskId>, tasks: seq<Option<Future>>, done: seq<TaskId>)
    requires FrontAlive(q, tasks)
    ensures var (q', tasks') := AfterPoll(q, tasks);
            && done + [q[0]] + Schedule(q', tasks') == done + Schedule(q, tasks)
            && Work(tasks') + |q'| + 1 <= Work(tasks) + |q|
  {
    UpdateCounts(tasks, q[0], Polled(tasks[q[0]].value));
  }

  /** Every queued future is polled exactly as often as it needs, and nothing else is polled. */
  lemma {:induction false} ScheduleCounts(q: seq<TaskId>, tasks: seq<Option<Future>>, t: TaskId)
    requires NoDuplicates(q)
    ensures multiset(Schedule(q, tasks))[t] ==
            if t in q && t < |tasks| && tasks[t].Some? then tasks[t].value.wakes + 1 else 0
    decreases Work(tasks) + |q|
  {
    if q != [] {
      assert q == [q[0]] + q[1..];
      assert t in q <==> t == q[0] || t in q[1..];
      if !FrontAlive(q, tasks) {
        ScheduleCounts(q[1..], tasks, t);
      } else {
        var (q', tasks') := AfterPoll(q, tasks);
        UpdateCounts(tasks, q[0], Polled(tasks[q[0]].value));
        ScheduleCounts(q', tasks', t);
        assert t != q[0] ==> (t in q' <==> t in q);
        assert tasks'[q[0]].Some? ==> q[0] in q';
      }
    }
  }

  /** Once nothing is alive, leftover queue entries cause no poll. */
  lemma {:induction false} DeadSchedule(q: seq<TaskId>, tasks: seq<Option<Future>>)
    requires LiveCount(tasks) == 0
    ensures Schedule(q, tasks) == []
    decreases |q|
  {
    LiveCountZero(tasks);
    if q != [] {
      DeadSchedule(q[1..], tasks);
    }
  }

  class ShardExecutor {
    var queue: seq<TaskId>
    var queued: seq<bool>
    var tasks: seq<Option<Future>>
    var live: nat
    var pollBudget: nat
    var reactorWoken: bool
    var polls: seq<TaskId>       // futures polled so far, in order

    ghost predicate Valid()
      reads this
    {
      && |queued| == |tasks|
      && NoDuplicates(queue)
      && (forall t: TaskId :: t in queue <==> t < |queued| && queued[t])
      && live == LiveCount(tasks)
      && pollBudget >= 1
    }

    /** Every unfinished task is ready, as it is after `spawn` and between polls of self-waking futures. */
    ghost predicate AllReady()
      requires Valid()
      reads this
    {
      forall t :: 0 <= t < |tasks| && tasks[t].Some? ==> queued[t]
    }

    constructor (pollBudget: nat)
      ensures Valid() && AllReady()
      ensures queue == [] && tasks == [] && polls == []
      ensures this.pollBudget == if pollBudget == 0 then 1 else pollBudget
    {
      queue, queued, tasks, live := [], [], [], 0;
      this.pollBudget := if pollBudget == 0 then 1 else pollBudget;
      reactorWoken, polls := false, [];
    }

    method MarkReady(task: TaskId)
      requires Valid()
      modifies this`queue, this`queued, this`reactorWoken
      ensures Valid()
      ensures queue == Marked(old(queue), |tasks|, task)
      ensures reactorWoken
    {
      if task < |queued| && !queued[task] {
        queued := queued[task := true];
        queue := queue + [task];
      }
      reactorWoken := true;
    }

    method TakeReady() returns (task: Option<TaskId>)
      requires Valid()
      modifies this`queue, this`queued
      ensures Valid()
      ensures task.None? <==> old(queue) == []
      ensures task.None? ==> queue == old(queue)
      ensures task.Some? ==> old(queue) == [task.value] + queue
    {
      if queue == [] {
        return None;
      }
      var t := queue[0];
      FrontLeaves(queue);
      queue := queue[1..];
      queued := queued[t := false];
      return Some(t);
    }

    method Spawn(future: Future)
      requires Valid()
      modifies this
      ensures Valid()
      ensures tasks == old(tasks) + [Some(future)]
      ensures queue == old(queue) + [|old(tasks)|]
      ensures old(AllReady()) ==> AllReady()
      ensures live == old(live) + 1
      ensures polls == old(polls) && pollBudget == old(pollBudget)
    {
      var task := |tasks|;
      tasks := tasks + [Some(future)];
      assert tasks[..task] == old(tasks);
      queued := queued + [false];
      live := live + 1;
      MarkReady(task);
    }

    /** Polls one task; a slot whose future already completed is skipped. */
    method PollTask(task: TaskId)
      requires Valid()
      modifies this`queue, this`queued, this`reactorWoken, this`tasks, this`live, this`polls
      ensures Valid()
      ensures |tasks| == |old(tasks)|
      ensures if task < |old(tasks)| && old(tasks)[task].Some? then
                && tasks == old(tasks)[task := Polled(old(tasks)[task].value)]
                && queue == (if old(tasks)[task].value.wakes > 0 then Marked(old(queue), |tasks|, task) else old(queue))
                && polls == old(polls) + [task]
              else
                tasks == old(tasks) && queue == old(queue) && polls == old(polls)
    {
      if task >= |tasks| || tasks[task].None? {
        return;
      }
      var future := tasks[task].value;
      UpdateCounts(tasks, task, Polled(future));
      polls := polls + [task];
      if future.wakes == 0 {
        tasks := tasks[task := None];
        live := live - 1;
      } else {
        MarkReady(task);
        tasks := tasks[task := Some(Future(future.wakes - 1))];
      }
    }

    /** Takes and polls the front task, if there is one. */
    method PollFront() returns (found: bool)
      requires Valid() && AllReady()
      modifies this`queue, this`queued, this`reactorWoken, this`tasks, this`live, this`polls
      ensures Valid() && AllReady()
      ensures found <==> old(queue) != []
      ensures |polls| <= |old(polls)| + 1
      ensures polls + Schedule(queue, tasks) == old(polls + Schedule(queue, tasks))
      ensures Work(tasks) + |queue| + (if found then 1 else 0) <= old(Work(tasks) + |queue|)
    {
      ghost var q, before, done := queue, tasks, polls;
      var task := TakeReady();
      if task.None? {
        return false;
      }
      FrontLeaves(q);
      assert q[1..] == queue;
      PollTask(task.value);
      if FrontAlive(q, before) {
        assert (queue, tasks) == AfterPoll(q, before);
        PollFollowsSchedule(q, before, done);
      }
      return true;
    }

    /** Step 1 of the loop: take and poll at most `pollBudget` ready tasks. */
    method PollBatch()
      requires Valid() && AllReady()
      modifies this`queue, this`queued, this`reactorWoken, this`tasks, this`live, this`polls
      ensures Valid() && AllReady()
      ensures polls + Schedule(queue, tasks) == old(polls + Schedule(queue, tasks))
      ensures old(queue) != [] ==> Work(tasks) + |queue| < old(Work(tasks) + |queue|)
      ensures |polls| <= |old(polls)| + pollBudget
    {
      var polled := 0;
      while polled < pollBudget
        invariant 0 <= polled <= pollBudget
        invariant Valid() && AllReady()
        invariant polls + Schedule(queue, tasks) == old(polls + Schedule(queue, tasks))
        invariant Work(tasks) + |queue| + polled <= old(Work(tasks) + |queue|)
        invariant polled == 0 ==> queue == old(queue)
        invariant |polls| <= |old(polls)| + polled
        decreases pollBudget - polled
      {
        var found := PollFront();
        if !found {
          break;
        }
        polled := polled + 1;
      }
    }

    /**
     * Runs to completion: never blocks, leaves no task alive, and polls the
     * futures in the order of `Schedule`, whatever the budget.
     */
    method Run() returns (blocked: bool)
      requires Valid() && AllReady()
      modifies this
      ensures !blocked
      ensures Valid() && live == 0
      ensures forall t :: 0 <= t < |tasks| ==> tasks[t].None?
      ensures polls == old(polls) + Schedule(old(queue), old(tasks))
    {
      blocked := false;
      while live > 0
        invariant Valid() && AllReady() && !blocked
        invariant polls + Schedule(queue, tasks) == old(polls + Schedule(queue, tasks))
        decreases Work(tasks) + |queue|
      {
        LiveCountZero(tasks);
        PollBatch();
        if live == 0 {
          break;
        }
        LiveCountZero(tasks);
        if queue != [] {
          continue;
        }
        // Nothing runnable: only here would the shard block in its reactor.
        blocked := true;
        break;
      }
      LiveCountZero(tasks);
      DeadSchedule(queue, tasks);
    }
  }
}
