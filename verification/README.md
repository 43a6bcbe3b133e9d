# Verified models of the sitas runtime

sitas is a shard-per-core runtime: every shard is one thread that owns its state,
and shards talk through queues, wakers and owned messages. This project models
the protocols at its core in Dafny and proves what they are for: no wake is lost,
no message or buffer is lost or duplicated, a sharded map behaves as one map, and
a sharded index build ends with every record in its place.

Concurrent code is modelled as a machine: a state, the atomic steps (`Next`), and
runs (`Run`, `Exec`) that apply any sequence of enabled steps. A theorem about
runs therefore speaks of every interleaving. Code that updates an object in place
is a class whose methods are proved equal to a function on values; the machines
use the same functions. What the functions compute is then told again without
them, by what happened before a call. Histories such as `sent`, `accepted` or
`log` are fields of the machine's state that no step ever reads.

| file | models |
|---|---|
| `ring.dfy` | the lock-free ring buffer, as a class and load by load, store by store |
| `wake_chain.dfy` | channel, receive future, executor loop and reactor together |
| `shard_tasks.dfy` | which tasks are live, queued and polled over whole runs |
| `channel_close.dfy` | delivery on an open channel, and which closes let the receiver drain it |
| `executor.dfy` | the ready queue and the run loop of a shard executor |
| `mailbox.dfy`, `mailbox_answers.dfy` | the bounded asynchronous mailbox, and what it answers by its history |
| `kernel.dfy`, `kernel_answers.dfy` | the completion-capability kernel model, and what it answers by its history |
| `reply.dfy`, `kv.dfy` | one-shot replies and the sharded key-value service |
| `kv_no_std.dfy` | the key-value service for foreign runtimes |
| `stream.dfy` | the streaming reply |
| `record_key.dfy`, `record_key_values.dfy` | deterministic record keys on wrapping 64-bit words, and known values |
| `index_order.dfy`, `index_verify.dfy` | index entries, heap merge and the final check |
| `index_scan.dfy`, `index_pipeline.dfy` | scanners, assemblers and the whole index pipeline |
| `index_files.dfy`, `index_rounds.dfy` | run files and pairwise merge rounds |
| `stats.dfy` | one-pass statistics |

Modelling decisions:

- Atomics are sequentially consistent. Each load, store, lock section and wake of
  the ring, the channel, the executor loop and the stream is a step of its own.
- The reactor is its contract: `wake` makes the current or next `wait` return, and
  wakes coalesce. A park or a timeout may end at any time and promises nothing.
- Floating-point statistics are exact reals; the `total` field wraps modulo 2^64.
- 32-bit counters of the kernel wrap, as in an optimised build. A wrapped capability
  can overwrite an operation that still holds a buffer (`WrapLosesBuffer`); buffers
  are conserved over a run exactly when every number it hands out was free
  (`BuffersAreConserved`).
- 64-bit words are integers below 2^64.
- Hashing and placement are arbitrary functions. The index pipeline takes record,
  shard and assembler counts, batch size and capacities as parameters.
- Where `mailbox_index.rs` combines offsets with exclusive-or, the check is proved
  for every operation whose operands can be swapped; `XorLaws` shows that
  exclusive-or is one.

Where the code and its comments disagree, or a comment leaves a case open, the model
follows the code:

- Closing a channel is documented to drain all queued messages first. A push and a
  close that fall between the receiver's last pop and its closed check leave a
  message behind (`NoneCanStrandMail`). A close drains the channel exactly when, at
  that moment, no send that saw the channel open can still push, and queued mail
  has a receiver that will look at the ring again (`CleanCloseDrains`,
  `UncleanCloseCanStrand`).
- `try_recv` on a stream is documented to fail once the senders are gone; it
  returns nothing instead, exactly as while they are alive (`TryRecvHidesEnd`). The
  two agree exactly until the stream has ended (`TryRecvAsDocumentedExactlyWhen`).
- `recv_batch` is documented to return an empty batch when the sender is gone and no
  value remains. It does, but an empty batch is not a sign of that: with a limit of
  zero it also comes back while values wait (`EmptyBatchBeforeEnd`;
  `EmptyBatchMeansEnd` gives the exact condition).
- The final index check is documented to make the offsets a bijection by
  exclusive-or. Any record count divisible by four has a counterexample, whatever
  the number of assemblers (`CopiesAreAccepted`); `AcceptedIsCompleteExactlyWhen` gives the condition.
- The key finalizer is called injective-ish; it is injective (`KeyInjective`).

## Model

| member | source | states |
|---|---|---|
| RingBuffer.RingBuffer.constructor | crates/sitas-core/src/ringbuf.rs:26-37 | a new ring with a positive capacity is an empty queue |
| RingBuffer.RingBuffer.TryPush | crates/sitas-core/src/ringbuf.rs:43-54 | appends the item, or refuses exactly when capacity - 1 items are queued and then changes nothing |
| RingBuffer.RingBuffer.Pop | crates/sitas-core/src/ringbuf.rs:56-67 | takes the oldest item; returns none exactly when the queue is empty |
| RingBuffer.RingBuffer.IsEmpty | crates/sitas-core/src/ringbuf.rs:69-71 | head equals tail exactly when nothing is queued |
| RingBuffer.RingBuffer.Len | crates/sitas-core/src/ringbuf.rs:73-77 | the number of queued items, when no other thread is in between |
| RingSteps.StepKeepsInv | crates/sitas-core/src/ringbuf.rs:43-67 | each load, slot access and store keeps the slots between the indices holding exactly the sent and not yet received items |
| RingSteps.LoadTailIsExact | crates/sitas-core/src/ringbuf.rs:45-49 | a producer that compares its stale head copy with tail sees full exactly when capacity - 1 items are queued |
| RingSteps.LoadHeadIsExact | crates/sitas-core/src/ringbuf.rs:57-61 | a consumer that compares its stale tail copy with head sees empty exactly when nothing is queued |
| RingSteps.WriteSlotKeepsInv | crates/sitas-core/src/ringbuf.rs:50-51 | the slot a producer writes holds no unread item |
| RingSteps.ReadSlotKeepsInv | crates/sitas-core/src/ringbuf.rs:62-64 | the slot a consumer reads holds the oldest item |
| RingSteps.StepRefinesFifo | crates/sitas-core/src/ringbuf.rs:43-67 | every atomic step is a legal step of a FIFO with capacity - 1 places: head store enqueues, tail store dequeues, the rest is silent or reports full or empty truthfully |
| RingSteps.RingRefinesFifo | crates/sitas-core/src/shard_runtime.rs:189-200 | every interleaving of producers serialised by the push lock and one consumer is a history of that FIFO, and no slot is read before it is written or overwritten before it is read |
| WakeChain.SendStepIsSafe | crates/sitas-core/src/shard_runtime.rs:189-200 | a sender's steps keep: mail behind a parked receiver has a waker still to be taken or a wake under way |
| WakeChain.SignalStepIsSafe | crates/sitas-core/src/shard_runtime.rs:161-168 | taking the registered waker and running it hands the duty on without a gap |
| WakeChain.ReceiveStepIsSafe | crates/sitas-core/src/shard_runtime.rs:241-264 | registering between the two pops leaves no window in which a push or close goes unseen |
| WakeChain.LoopStepIsSafe | crates/sitas-core/src/shard_executor.rs:233-262 | the run loop blocks only after finding nothing ready, and a wake posted meanwhile ends the wait |
| WakeChain.TakeIsSafe | crates/sitas-core/src/shard_executor.rs:54-79 | taking a ready task and clearing its queued flag loses no wake that arrives during its poll |
| WakeChain.StepKeepsInv | crates/sitas-core/src/shard_executor.rs:54-79 | every step of any thread, the receive future or the loop keeps the whole wake-chain invariant |
| WakeChain.NoLostWake | crates/sitas-core/src/shard_executor.rs:212-262 | in every interleaving, a shard blocked in its reactor with an unfinished receiver and mail or a close has a wake of that task in flight: its waker registered and about to be taken, or taken, or the task queued and the reactor about to be woken |
| WakeChain.QuiescentMeansDelivered | crates/sitas-core/src/shard_runtime.rs:161-208 | when all other threads are idle and the shard sleeps with no wake pending, every message ever pushed was received, in order, and the channel is open |
| WakeChain.NoneOnlyAfterDrain | crates/sitas-core/src/shard_runtime.rs:241-264 | a receive ends only after a close, having delivered in send order exactly what was in when its last pop found the ring empty |
| WakeChain.NoneCanStrandMail | crates/sitas-core/src/shard_runtime.rs:202-208 | a concrete run in which a receive ends with a message left in the ring |
| ChannelClose.OpenChannelDelivers | crates/sitas-core/src/shard_runtime.rs:161-264 | from every reachable state of an open channel, what is already under way - no new call, no other wake, no spurious return of the wait - can bring the receiver everything pushed |
| ChannelClose.StepKeepsClean | crates/sitas-core/src/shard_runtime.rs:189-208 | every step of every thread, the receiver and the loop keeps a clean close clean |
| ChannelClose.CloseIsCleanExactlyWhen | crates/sitas-core/src/shard_runtime.rs:205-208 | whether a close is clean is decided by the state before it: no send past its closed check can still push, and queued mail has a live receiver that is not about to end on an empty pop |
| ChannelClose.CleanCloseDrains | crates/sitas-core/src/shard_runtime.rs:202-208 | after a clean close, in every continuation, a receiver that has ended got every message and the ring is empty |
| ChannelClose.CleanCloseCanFinish | crates/sitas-core/src/shard_runtime.rs:202-208 | from every reachable state after a clean close, what is already under way can end the receiver with every message received |
| ChannelClose.UncleanCloseCanStrand | crates/sitas-core/src/shard_runtime.rs:241-264 | after any other close, from every reachable state, what is already under way can end the receiver with a message left in the ring |
| ShardTasks.LiveExactlyUntilCompleted | crates/sitas-core/src/shard_executor.rs:221-228 | over every run a task is live exactly until a step in which its poll returned ready, or its receive saw the end |
| ShardTasks.FinishedMeansCompleted | crates/sitas-core/src/shard_executor.rs:233-262 | the loop ends only when every task has completed |
| ShardTasks.LoopChecks | crates/sitas-core/src/shard_executor.rs:244-250 | after a batch the loop ends exactly when every task has completed, and goes on to wait exactly when none is queued |
| ShardTasks.QueueIsPlayed | crates/sitas-core/src/shard_executor.rs:54-79 | over every run the ready queue is what its wakes and takes leave of it, first in first out without repetition, and no batch takes more tasks than the budget |
| ShardTasks.TakePollsFront | crates/sitas-core/src/shard_executor.rs:212-243 | a take within the budget polls the front task unless that has completed; with the budget used up or nothing queued the batch ends |
| ShardTasks.HistoryOfFlags | crates/sitas-core/src/shard_runtime.rs:161-168 | a wake of the reactor is pending exactly until the loop clears it, and the receive waker is registered exactly until it is taken |
| ShardTasks.SendSeesClose | crates/sitas-core/src/shard_runtime.rs:190-193 | a send goes on to push exactly while no close was stored |
| ShardTasks.SenderWakes | crates/sitas-core/src/shard_runtime.rs:161-200 | a sender wakes exactly when its message is in and a waker is registered |
| ReadyQueue.TakenInQueueOrder | crates/sitas-core/src/shard_executor.rs:54-79 | under any interleaving of wakes, the task at position k is the k-th taken and no task is queued twice |
| ReadyQueue.WakeIsServed | crates/sitas-core/src/shard_executor.rs:54-79 | after a wake the task is taken, or is still queued, whatever else happens |
| ShardExecutor.ScheduleCounts | crates/sitas-core/src/shard_executor.rs:212-262 | each queued task is polled once more often than it wakes itself, and no other task is polled |
| ShardExecutor.ShardExecutor.constructor | crates/sitas-core/src/shard_executor.rs:159-177 | a new executor has no task, an empty ready queue and the given budget, which is at least one |
| ShardExecutor.ShardExecutor.MarkReady | crates/sitas-core/src/shard_executor.rs:55-67 | queues a task unless it is queued already; flags and queue keep agreeing |
| ShardExecutor.ShardExecutor.TakeReady | crates/sitas-core/src/shard_executor.rs:69-74 | takes the front of the queue and clears its flag |
| ShardExecutor.ShardExecutor.Spawn | crates/sitas-core/src/shard_executor.rs:200-210 | adds a live, ready task at the back |
| ShardExecutor.ShardExecutor.PollTask | crates/sitas-core/src/shard_executor.rs:212-229 | polls one task; `live` stays the number of unfinished tasks |
| ShardExecutor.ShardExecutor.PollBatch | crates/sitas-core/src/shard_executor.rs:235-243 | one batch continues the same round-robin order and polls no more tasks than the budget |
| ShardExecutor.ShardExecutor.Run | crates/sitas-core/src/shard_executor.rs:233-262 | for tasks that wake only themselves, terminates without blocking, finishes every task, and polls in an order that does not depend on the budget |
| SharedMailbox.SharedMailbox.TrySend | crates/sitas-core/src/shard_mailbox.rs:933-954 | accepts unless the receiver is closed or the mailbox full, and hands out the receive waker |
| SharedMailbox.SharedMailbox.TryRecv | crates/sitas-core/src/shard_mailbox.rs:956-979 | takes the oldest message and the oldest send waker, or tells empty from closed |
| SharedMailbox.SharedMailbox.PollRecv | crates/sitas-core/src/shard_mailbox.rs:981-1011 | as `TryRecv`, and registers the waker when there is nothing yet |
| SharedMailbox.SharedMailbox.CloseReceiver | crates/sitas-core/src/shard_mailbox.rs:1013-1032 | closes, and takes every registered waker |
| SharedMailbox.SharedMailbox.DropSender | crates/sitas-core/src/shard_mailbox.rs:1034-1048 | counts down and takes the receive waker when nobody can send any more |
| SharedMailbox.SharedMailbox.CloseSenderFactory | crates/sitas-core/src/shard_mailbox.rs:1050-1068 | no new senders; takes the receive waker when none is left |
| SharedMailbox.SharedMailbox.PollSend | crates/sitas-core/src/shard_mailbox.rs:1070-1097 | sends, reports closed, or queues the send waker |
| SharedMailbox.SharedMailbox.WakeOneSender | crates/sitas-core/src/shard_mailbox.rs:1099-1107 | takes the oldest send waker |
| MailboxRuns.StepKeepsReceiverInv | crates/sitas-core/src/shard_mailbox.rs:933-1068 | every operation keeps accepted = received + queue, the capacity bound, and that a receive waker means empty and still connected |
| MailboxRuns.DeliveredInOrder | crates/sitas-core/src/shard_mailbox.rs:933-1068 | that holds in every reachable state |
| MailboxRuns.ReceiverIsWoken | crates/sitas-core/src/shard_mailbox.rs:981-1068 | in every run a receiver whose last poll found nothing is still registered or has had its waker run since, so none sleeps on a filled or disconnected mailbox |
| MailboxRuns.ClosedIsFinal | crates/sitas-core/src/shard_mailbox.rs:956-1011 | once a receive reports closed, every later one does, whatever happens in between |
| MailboxRuns.StaleExactlyWhenUndisciplined | crates/sitas-core/src/shard_mailbox.rs:895-901 | a step leaves a stale send waker behind if and only if it re-polls a registered send future, or drops one that is not next in line |
| MailboxRuns.ParkedSendersAreCovered | crates/sitas-core/src/shard_mailbox.rs:1070-1107 | in every run without such steps, if a sender is parked then the woken and not yet re-polled senders number at least the free slots, despite cancellation and slot stealing |
| MailboxRuns.DisciplinedIsNeverOverlooked | crates/sitas-core/src/shard_mailbox.rs:1070-1107 | in every run without such steps no sender is parked in front of a free slot with nobody woken |
| MailboxRuns.UndisciplinedStepCanOverlook | crates/sitas-core/src/shard_mailbox.rs:895-901 | after any run of a mailbox of any positive capacity, every such step has a continuation that leaves a sender parked in front of a free slot of an open mailbox with nobody woken, although from then on futures are polled or dropped only before they register or when woken |
| MailboxRuns.PromptedIsDisciplined | crates/sitas-core/src/shard_mailbox.rs:1070-1107 | polling and dropping only in that way after a run without such steps is again a run without such steps |
| MailboxRuns.NeverOverlookedExactlyWhenDisciplined | crates/sitas-core/src/shard_mailbox.rs:895-901 | the rule is exact: a step after a run that kept it keeps it if and only if no continuation of that kind ever leaves a sender parked in front of a free slot with nobody woken |
| MailboxRuns.UndisciplinedSenderIsLost | crates/sitas-core/src/shard_mailbox.rs:1070-1107 | a run whose only poll of a registered future that nobody woke is one step, after which a sender stays parked at an empty, open mailbox and nobody is woken |
| MailboxAnswers.SendAnswers | crates/sitas-core/src/shard_mailbox.rs:933-954 | in every run a send, trying or waiting, is refused exactly after the receiver was closed, and else succeeds exactly when fewer messages than the capacity are unreceived |
| MailboxAnswers.RecvAnswers | crates/sitas-core/src/shard_mailbox.rs:956-1011 | a receive delivers the oldest message accepted and not received; without one it reports closed exactly when the receiver was closed, or the factory was and every handle is gone |
| MailboxAnswers.ClosedExactlyWhen | crates/sitas-core/src/shard_mailbox.rs:240-247 | closed means that everything accepted was received and that no continuation accepts another message |
| MailboxAnswers.ReceivesDeliverAll | crates/sitas-core/src/shard_mailbox.rs:956-979 | whatever was closed, as many receives as there are unreceived messages deliver them all |
| MailboxAnswers.SendersWokenInTurn | crates/sitas-core/src/shard_mailbox.rs:1013-1107 | send wakers run in the order of registration; a sender that found the mailbox full is still registered or had its waker run since, and after a close none is parked |
| MailboxAnswers.WokenExactlyWhen | crates/sitas-core/src/shard_mailbox.rs:933-1107 | a sleeping receiver is woken exactly by the step that fills or cuts off the mailbox, and send wakers run only for a freed slot, a dropped send or the close |
| MockKernel.MockKernel.RegisterShard | crates/sitas-core/src/charlotte_abi.rs:225-239 | a new empty queue under the next number, which wraps at 2^32 |
| MockKernel.MockKernel.Submit | crates/sitas-core/src/charlotte_abi.rs:245-271 | rejects an unknown queue, reports a full table, or takes the buffer under the next capability |
| MockKernel.MockKernel.Complete | crates/sitas-core/src/charlotte_abi.rs:277-314 | posts an entry with the buffer and the cancelled result if cancelling, or flags overflow and keeps the buffer |
| MockKernel.MockKernel.Cancel | crates/sitas-core/src/charlotte_abi.rs:383-392 | marks an uncompleted operation |
| MockKernel.MockKernel.Close | crates/sitas-core/src/charlotte_abi.rs:395-405 | removes completed operations only |
| MockKernel.MockKernel.Drain | crates/sitas-core/src/charlotte_abi.rs:420-429 | hands out the queue in order and clears the overflow flag |
| MockKernel.MockKernel.Wake | crates/sitas-core/src/charlotte_abi.rs:371-377 | sets the sticky wake flag of a known queue |
| MockKernel.MockKernel.TakeWoke | crates/sitas-core/src/charlotte_abi.rs:432-439 | reports and clears the wake flag |
| MockKernel.MockKernel.WaitPass | crates/sitas-core/src/charlotte_abi.rs:326-338 | one pass of the wait loop: ready, block or unknown queue |
| MockKernel.MockKernel.ReadyCaps | crates/sitas-core/src/charlotte_abi.rs:409-416 | the capabilities of the queued completions, in order |
| MockKernel.MockKernel.OverflowPending | crates/sitas-core/src/charlotte_abi.rs:442-449 | whether the queue is known and flagged |
| KernelRuns.ConservedExactlyWhenFresh | crates/sitas-core/src/charlotte_abi.rs:245-314 | a step keeps every buffer in exactly one place if and only if the number it hands out does not still name an owner of a buffer |
| KernelRuns.StepBalances | crates/sitas-core/src/charlotte_abi.rs:225-429 | every step locates what it takes in, and only the buffer of a former bearer of the number it hands out is gone |
| KernelRuns.BuffersAreConserved | crates/sitas-core/src/charlotte_abi.rs:225-429 | over every run, also past the wrap, the submitted buffers are those in the table, in queue entries, handed out and overwritten, with multiplicity; nothing is lost if and only if every number handed out was free |
| KernelRuns.ConservedBeforeWrap | crates/sitas-core/src/charlotte_abi.rs:245-429 | in particular over every run of at most 2^32 submissions and registrations |
| KernelRuns.WrapLosesBuffer | crates/sitas-core/src/charlotte_abi.rs:257-271 | a run of 2^32 + 1 submissions in which the buffer of capability 0 ends up nowhere |
| KernelRuns.QueuesDrainInOrder | crates/sitas-core/src/charlotte_abi.rs:225-429 | over every run, whatever the worker completes and how often and also when queue numbers come round, what was drained of a registration is a prefix of what was posted to it; while its queue is in use the rest is in that queue, within its bound, with overflow flagged only when full |
| KernelRuns.OnceExactlyWhenHonest | crates/sitas-core/src/charlotte_abi.rs:277-314 | a step keeps every submission's result right if and only if it does not post a completed operation again or post cancelled for one that is not being cancelled |
| KernelRuns.CompletionProtocol | crates/sitas-core/src/charlotte_abi.rs:277-429 | over every run, also past the wrap of the capability numbers, each submission is posted at most once, as cancelled exactly when its own cancel was accepted, if and only if every posting step was of that kind |
| KernelRuns.OncePerCapability | crates/sitas-core/src/charlotte_abi.rs:277-429 | for the first 2^32 submissions of an honest worker the same holds of capability numbers |
| KernelRuns.WakeIsReported | crates/sitas-core/src/charlotte_abi.rs:560-577 | after a wake and any further activity, unless a registration hands out the queue's number anew, a wait does not block and the take that follows reports the wake; for a single wake the condition is exact |
| KernelAnswers.RegisterAnswers | crates/sitas-core/src/charlotte_abi.rs:225-239 | queue numbers are handed out in turn, modulo 2^32 |
| KernelAnswers.WaitAnswers | crates/sitas-core/src/charlotte_abi.rs:320-338 | over every run a wait blocks exactly when no wake is pending and fewer completions than asked for, at least one, are posted and not drained; else it reports their number, cut to 32 bits |
| KernelAnswers.TakeWokeAnswers | crates/sitas-core/src/charlotte_abi.rs:432-439 | a take reports a wake exactly when one was posted, not taken since, and not lost with a reissued number |
| KernelAnswers.DrainAnswers | crates/sitas-core/src/charlotte_abi.rs:409-429 | a drain hands over everything posted and not drained, and the peek names the same entries in order |
| KernelAnswers.DrainedCompletely | crates/sitas-core/src/charlotte_abi.rs:420-429 | after a drain nothing posted to the registration is undrained |
| KernelAnswers.HistoryOfSubmissions | crates/sitas-core/src/charlotte_abi.rs:245-314 | each operation goes to the queue it was submitted to, and its buffer comes back with its first completion |
| KernelAnswers.SubmitAnswers | crates/sitas-core/src/charlotte_abi.rs:245-271 | a submission is accepted exactly when its queue is in use and fewer operations than the table holds are open |
| KernelAnswers.TableIsBounded | crates/sitas-core/src/charlotte_abi.rs:251-256 | the table never holds more operations than it may |
| KernelAnswers.CompleteAnswers | crates/sitas-core/src/charlotte_abi.rs:277-314 | exactly the open operations can be completed, and a completion is posted exactly when its queue has fewer undrained completions than its bound |
| KernelAnswers.CancelAnswers | crates/sitas-core/src/charlotte_abi.rs:383-392 | a cancel is accepted exactly for an open operation that was not posted |
| KernelAnswers.CloseAnswers | crates/sitas-core/src/charlotte_abi.rs:395-405 | a close is accepted exactly for an open operation that was posted, and frees its place |
| KernelAnswers.OverflowAnswers | crates/sitas-core/src/charlotte_abi.rs:293-299 | overflow is pending exactly while a completion was refused and the queue was not drained since |
| Reply.ReplyShared.Send | crates/sitas-core/src/runtime.rs:198-222 | stores the first value, keeps it whatever follows, and takes the waker |
| Reply.ReplyShared.DropSender | crates/sitas-core/src/runtime.rs:224-245 | ends the reply and takes the waker |
| Reply.ReplyShared.TryWait | crates/sitas-core/src/runtime.rs:154-168 | takes the value, or tells pending from failed |
| Reply.ReplyShared.Poll | crates/sitas-core/src/runtime.rs:291-306 | takes the value, fails, or registers the waker |
| Reply.ReplyResolvesOnce | crates/sitas-core/src/runtime.rs:91-112 | in every life of a reply the value is handed out at most once and nothing else is, a registered waker means no value yet and a live sender, and a sleeping task is the registered one |
| Reply.AnsweredExactlyWhen | crates/sitas-core/src/runtime.rs:154-168 | a wait, trying or polling, yields the value exactly when it was sent and not handed out, reports not yet exactly while the sender did nothing, and fails otherwise |
| Reply.WokenExactlyWhen | crates/sitas-core/src/runtime.rs:198-245 | a sleeping task is woken exactly by the send or the drop |
| SequentialMap.KeyedIsLocal | crates/sitas-core/src/kv_service.rs:953-957 | an operation on one key reads and changes only the part of the map that its placement names |
| SequentialMap.KeyedIsRight | crates/sitas-core/src/kv_service.rs:79-102 | on a map that holds what a history of answers says, each operation answers by that history alone: a read finds what the last one left, a compare-and-put succeeds exactly when that is what it expected |
| SequentialMap.LengthsAddUp | crates/sitas-core/src/kv_service.rs:104-106 | the lengths of the parts below shard n add up to the number of keys placed there |
| KvService.KvService.Get | crates/sitas-core/src/kv_service.rs:79-81 | the stored value, or none |
| KvService.KvService.Put | crates/sitas-core/src/kv_service.rs:83-85 | stores the value and changes no other key |
| KvService.KvService.CompareAndPut | crates/sitas-core/src/kv_service.rs:87-94 | replaces exactly when the key holds the expected value, or nothing where nothing is expected, and else changes nothing |
| KvService.KvService.GetOrPut | crates/sitas-core/src/kv_service.rs:96-98 | the value that the key holds afterwards, which is the old one if there was one |
| KvService.KvService.Delete | crates/sitas-core/src/kv_service.rs:100-102 | removes and returns the value |
| KvService.RunShard | crates/sitas-core/src/kv_service.rs:974-1022 | answers the requests before the first stop in order, each rightly by those before it, and is left with what they say is stored |
| ShardedKv.ServeIsApply | crates/sitas-core/src/kv_service.rs:974-1022 | serving a request from the target shard's own map is a step of the one map, with the same answer |
| ShardedKv.StepKeepsInv | crates/sitas-core/src/runtime.rs:334-341 | every submit, process, collect and shutdown step keeps each request queued at its target until it is processed once and answered |
| ShardedKv.Linearizable | crates/sitas-core/src/kv_service.rs:974-1022 | in every run of any number of callers and shards, the processed operations are a legal history of one map, each once, each between its submission and its return, and every returned answer is the one in that history |
| ShardedKv.AnswersAreRight | crates/sitas-core/src/kv_service.rs:79-106 | over every run each answer is the right one by the operations processed before it, stated on their answers and not on a map, and each shard holds just what they say |
| ShardedKv.ProcessedAsAsked | crates/sitas-core/src/runtime.rs:330-341 | what is processed is what was asked, on the shard that the placement names, and each shard processes in the order of asking |
| ShardedKv.AcceptedExactlyWhen | crates/sitas-core/src/runtime.rs:330-341 | a request is accepted exactly when shutdown has not begun, its shard exists, and fewer requests than the capacity wait for it |
| ShardedKv.CollectedExactlyWhen | crates/sitas-core/src/runtime.rs:154-168 | a reply can be collected exactly when its request was processed and it was not collected before |
| ShardedKv.StoppedInTurn | crates/sitas-core/src/runtime.rs:438-453 | a shard is stopped only when the one before it has exited |
| ShardedKv.RealTimeOrder | crates/sitas-core/src/runtime.rs:334-341 | an operation that returned before another was submitted precedes it in that history |
| ShardedKv.OneMapInParts | crates/sitas-core/src/kv_service.rs:953-957 | at every moment each shard holds exactly the keys its placement names, and the shard lengths add up to the size of the one map |
| ShardedKv.ShutdownAnswersAll | crates/sitas-core/src/kv_service.rs:935-943 | when a shard has exited, every request ever accepted for it was processed and answered |
| ShardedKv.ShutdownTerminates | crates/sitas-core/src/runtime.rs:438-453 | once shutdown has begun nothing is accepted, every shard or stop step leaves less to do, and until all shards have exited such a step is possible |
| NoStdKv.Handle | crates/sitas-core/src/kv.rs:236-243 | one command's effect on the shard's map, with a reply of the variant its caller expects |
| NoStdKv.KvShardTask | crates/sitas-core/src/kv.rs:233-248 | one reply per envelope, in order, of the expected variant, each right by the envelopes before it |
| NoStdKv.FrontRingIsEmpty | crates/sitas-core/src/kv.rs:244 | the reply ring of a queued request is empty, so the push whose result is ignored succeeds |
| NoStdKv.RefinesShardedKv | crates/sitas-core/src/kv.rs:139-157 | every run of this service is, step for step, a run of the sharded service with one-shot replies, and no reply push is ever refused |
| NoStdKv.EnabledExactlyWhen | crates/sitas-core/src/kv.rs:139-157 | a request, a serve or a pop is possible exactly when the step of the other service is |
| NoStdKv.RepliesAreExact | crates/sitas-core/src/kv.rs:182-215 | every reply has the variant its caller expects and is the answer of one map between request and return, right by the requests before it |
| NoStdKv.ExactlyOneReply | crates/sitas-core/src/kv.rs:139-157 | in every run each accepted request is in exactly one place: in its shard's mailbox with an empty reply ring, in its ring as the one answer the history records, or with its caller; with an empty mailbox all are answered |
| NoStdKv.MailIsServed | crates/sitas-core/src/kv.rs:233-248 | a shard with mail can always serve its front envelope |
| NoStdKv.ServingAnswersAll | crates/sitas-core/src/kv.rs:233-248 | from every reachable state, as many serves as there is mail leave every request of the shard answered |
| NoStdKv.TotalLen | crates/sitas-core/src/kv.rs:115-121 | the loop adds up the shard answers |
| NoStdKv.TotalLenIsBetween | crates/sitas-core/src/kv.rs:115-121 | with other callers active, the total lies between the number of stored keys when the call began and when it ended |
| StreamReply.EmptyBatchMeansEnd | crates/sitas-core/src/stream_reply.rs:147-177 | an empty batch means the end of the stream if and only if it was not asked for with limit zero while values were waiting |
| StreamReply.TryRecvAsDocumentedExactlyWhen | crates/sitas-core/src/stream_reply.rs:185-210 | the answer is the documented one if and only if the stream has not ended |
| StreamRuns.TryRecvHidesEnd | crates/sitas-core/src/stream_reply.rs:185-210 | a run after which the documented answer is an error and the actual one is that nothing is there yet |
| StreamRuns.EmptyBatchBeforeEnd | crates/sitas-core/src/stream_reply.rs:147-177 | a run after which a receive with limit zero returns an empty batch although a value is waiting |
| StreamReply.StreamShared.Send | crates/sitas-core/src/stream_reply.rs:52-73 | appends and takes the waker, or refuses when the stream is done |
| StreamReply.StreamShared.ReleaseSender | crates/sitas-core/src/stream_reply.rs:76-80 | counts down, and tells the last sender that it is the last |
| StreamReply.StreamShared.Recv | crates/sitas-core/src/stream_reply.rs:151-177 | one pass of the blocking receive: a bounded batch from the front, the end, or a wait |
| StreamReply.StreamShared.TryRecv | crates/sitas-core/src/stream_reply.rs:191-210 | a bounded batch, or nothing, whether or not senders are left |
| StreamReply.StreamShared.Collect | crates/sitas-core/src/stream_reply.rs:213-223 | returns everything buffered, in order, and stops |
| StreamRuns.StepKeepsConsumerSafe | crates/sitas-core/src/stream_reply.rs:52-103 | every step of every sender and the consumer keeps: a consumer about to sleep or asleep has its wake-up ahead of it |
| StreamRuns.DeliveredInOrder | crates/sitas-core/src/stream_reply.rs:52-103 | in every interleaving the accepted values are the delivered ones followed by the buffer, and the end is reported only when all are delivered and no sender is left |
| StreamRuns.EndIsFinal | crates/sitas-core/src/stream_reply.rs:151-177 | after the end was reported nothing more is ever accepted |
| StreamRuns.NoLostWake | crates/sitas-core/src/stream_reply.rs:333-361 | a blocked or parked consumer with a value or the end waiting for it has a sender that has yet to notify, to take its waker, or to wake it, although the count drops outside the lock |
| StreamRuns.QuietConsumerHasNothing | crates/sitas-core/src/stream_reply.rs:151-177 | when no sender has work left, a sleeping consumer has received everything and a sender is alive |
| StreamRuns.ReceiveAnswers | crates/sitas-core/src/stream_reply.rs:151-210 | every receive delivers as many of the waiting values as its limit allows; with none waiting the stream has ended exactly when every sender was dropped |
| StreamRuns.RefusedExactlyWhenDropped | crates/sitas-core/src/stream_reply.rs:296-306 | a live sender is refused if and only if the consumer dropped its reply earlier in the run |
| StreamRuns.RepollDelivers | crates/sitas-core/src/stream_reply.rs:350-353 | a poll that starts over delivers, so it cannot start over twice |
| Words.XorShiftUndone | crates/sitas-core/src/mailbox_index.rs:358-360 | a xor with its own right shift has an inverse |
| Words.MulUndone | crates/sitas-core/src/mailbox_index.rs:358-359 | wrapping multiplication by a factor with an inverse modulo 2^64 is undone by it |
| RecordKey.SplitMix64Undone | crates/sitas-core/src/mailbox_index.rs:356-361 | the inverse finalizer recovers the input |
| RecordKey.IndexOfKey | crates/sitas-core/src/mailbox_index.rs:351-353 | the record index can be computed back from its key |
| RecordKey.KeyInjective | crates/sitas-core/src/mailbox_index.rs:351-361 | different record indices have different keys, for all 64-bit indices |
| KnownKeys.KnownValues | crates/sitas-core/src/mailbox_index.rs:351-361 | the finalizer maps 0 to the published first output of SplitMix64, and the first two keys are these words |
| IndexOrder.SortedUnique | crates/sitas-core/src/mailbox_index.rs:372-377 | the order on entries is total, so a bag of entries has one sorted arrangement |
| IndexOrder.SortedByKey | crates/sitas-core/src/mailbox_index.rs:372-377 | a sorted run has ascending keys, and ascending offsets among equal keys |
| IndexOrder.MergeSorted | crates/sitas/examples/sharded_index_build.rs:421-458 | merging two sorted runs is sorted |
| IndexOrder.MergeBag | crates/sitas/examples/sharded_index_build.rs:421-458 | merging two runs keeps every entry with its multiplicity |
| HeapMerge.KWayMerge | crates/sitas-core/src/mailbox_index.rs:296-312 | the heap merge of any runs keeps every entry with its multiplicity, and of sorted runs is the sorted list of all entries |
| VerifyRuns.HasDescent | crates/sitas-core/src/mailbox_index.rs:290-294 | looking at neighbours decides whether a list is sorted |
| VerifyRuns.CombinedOfPermutation | crates/sitas-core/src/mailbox_index.rs:328-343 | the combined offsets do not depend on the order of the entries |
| VerifyRuns.CheckKeys | crates/sitas-core/src/mailbox_index.rs:333-338 | combines the offsets, or fails exactly when some entry does not carry its record's key |
| VerifyRuns.Verify | crates/sitas-core/src/mailbox_index.rs:289-347 | accepts, with the record count, exactly the runs that are sorted, as many entries as records, one run per work unit, with matching keys and equal exclusive-or |
| VerifyRuns.CompleteRunsAreAccepted | crates/sitas-core/src/mailbox_index.rs:289-347 | sorted runs that hold every record once, one for each work unit, are accepted |
| VerifyRuns.AcceptedHasEveryUnit | crates/sitas-core/src/mailbox_index.rs:318-326 | accepted runs are exactly one for each work unit |
| VerifyRuns.ReplacedRecordIsRejected | crates/sitas-core/src/mailbox_index.rs:331-343 | runs in which one record stands in the place of another are rejected |
| VerifyRuns.CopiesAreAccepted | crates/sitas-core/src/mailbox_index.rs:328-343 | for every record count divisible by four and any positive number of assemblers, that many copies of one record are accepted too |
| VerifyRuns.AcceptedIsCompleteExactlyWhen | crates/sitas-core/src/mailbox_index.rs:328-343 | accepted runs hold every record once if and only if all offsets are in range and no merged entry equals its successor |
| VerifyRuns.XorLaws | crates/sitas-core/src/mailbox_index.rs:331-343 | exclusive-or on 64-bit words can be reordered, cancels itself, and cancels over four consecutive words from a multiple of four |
| VerifyRuns.IndexCheckIsValid | crates/sitas-core/src/mailbox_index.rs:289-347 | the coordinator's own key function and exclusive-or meet what the check theorems assume |
| IndexScan.PartitionsCover | crates/sitas-core/src/mailbox_index.rs:364-370 | the partitions follow each other from 0 to the record count without gap or overlap, and the first ones take one of the left-over records each |
| IndexScan.RunScanner | crates/sitas-core/src/mailbox_index.rs:149-201 | to each assembler a scanner sends exactly the records routed to it, in order, in non-empty batches that are full except for the last, then one done message |
| IndexScan.Assemble | crates/sitas-core/src/mailbox_index.rs:222-251 | an assembler stops at the first point where every producer is done and sends the sorted entries received so far, or nothing if the channel ends first |
| IndexPipeline.StepKeepsInv | crates/sitas-core/src/mailbox_index.rs:256-284 | every send, receive, delivery and collection keeps each scanner's stream to each assembler complete and in order, and each run sent once |
| IndexPipeline.AssemblerIsComplete | crates/sitas-core/src/mailbox_index.rs:222-251 | in every interleaving, an assembler that has counted every producer holds exactly the records routed to it and its mailbox is empty |
| IndexPipeline.NeverStuck | crates/sitas-core/src/mailbox_index.rs:80-134 | for any positive capacities, until the coordinator has every run some step is possible |
| IndexPipeline.StepDecreasesWork | crates/sitas-core/src/mailbox_index.rs:80-134 | every step strictly decreases a measure, so no run is endless |
| IndexPipeline.IndexIsAccepted | crates/sitas-core/src/mailbox_index.rs:80-134 | when the coordinator has its runs they hold every record exactly once, none is left over, and the final check accepts |
| IndexPipeline.RunsByHash | crates/sitas-core/src/mailbox_index.rs:149-201 | each run holds exactly the records whose key hashes to its assembler |
| IndexPipeline.MailboxesAreBounded | crates/sitas-core/src/mailbox_index.rs:80-134 | no mailbox ever holds more than its capacity |
| RunFiles.EntryRoundTrip | crates/sitas/examples/sharded_index_build.rs:273-277 | the sixteen little-endian bytes of an entry decode to it |
| RunFiles.EncodedBytes | crates/sitas/examples/sharded_index_build.rs:273-277 | an entry is its key, then its offset, eight bytes each, the least significant first |
| RunFiles.WriteThenRead | crates/sitas/examples/sharded_index_build.rs:265-277 | reading back written entries returns them, also when bytes of an incomplete entry follow |
| RunFiles.ReadThenWrite | crates/sitas/examples/sharded_index_build.rs:536-562 | a file without a partial entry is what writing its entries leaves |
| RunFiles.ReadIndexEntry | crates/sitas/examples/sharded_index_build.rs:536-562 | returns the entry at the position, the end, or a partial-entry error, however the file splits its reads |
| RunFiles.RunReader.Peek | crates/sitas/examples/sharded_index_build.rs:578-584 | returns the next entry without consuming it, also when called again |
| RunFiles.RunReader.Consume | crates/sitas/examples/sharded_index_build.rs:586-588 | moves on by one entry |
| RunFiles.RunReader.DrainInto | crates/sitas/examples/sharded_index_build.rs:590-600 | copies what is left, or fails exactly when the file ends in a partial entry |
| RunFiles.WriteIndexFile | crates/sitas/examples/sharded_index_build.rs:265-271 | writes the entries one after another |
| RunFiles.MergeRunFiles | crates/sitas/examples/sharded_index_build.rs:421-458 | the output file is the encoded merge of both inputs and the count its length; fails exactly when an input ends in a partial entry |
| MergeRounds.OutputNamesAreFresh | crates/sitas/examples/sharded_index_build.rs:340-350 | with distinct owners, the outputs of a round have different names, and none is the name of a run that goes into the round |
| MergeRounds.AnyOrderMergesTheSame | crates/sitas/examples/sharded_index_build.rs:336-372 | the pair merges of a round leave the same directory in whatever order its tasks finish |
| MergeRounds.RunDirectory.WriteRun | crates/sitas/examples/sharded_index_build.rs:265-271 | the directory holds a whole run file that decodes to the given entries, and no other file changes |
| MergeRounds.RunDirectory.MergePair | crates/sitas/examples/sharded_index_build.rs:384-419 | writes the merge of two runs to the new file and touches no other |
| MergeRounds.RunDirectory.MergeNext | crates/sitas/examples/sharded_index_build.rs:339-365 | the next merge of the method is one of the steps that `AnyOrderMergesTheSame` reorders, and the finished pairs stay complete |
| MergeRounds.RunDirectory.MergeRound | crates/sitas/examples/sharded_index_build.rs:334-376 | half as many runs, rounded up, in shard order, with distinct owners and the same entries as before; the run of the first shard stays with it |
| MergeRounds.RunDirectory.MergeRunsOnShards | crates/sitas/examples/sharded_index_build.rs:324-380 | the rounds end in one run file, owned by the first shard, that holds the sorted list of all entries, which is what the heap merge returns |
| MergeRounds.RoundsAreLogarithmic | crates/sitas/examples/sharded_index_build.rs:330-376 | the number of rounds is the base-two logarithm of the number of runs, rounded up |
| Statistics.UpdateIsExact | crates/sitas-core/src/running_stats.rs:80-96 | after one more sample the accumulator holds the true count, mean, squared deviations, minimum, maximum and total |
| Statistics.MergeIsExact | crates/sitas-core/src/running_stats.rs:213-238 | merging the accumulators of two sequences gives the accumulator of their concatenation |
| Statistics.MergeAssociative | crates/sitas-core/src/running_stats.rs:213-238 | merge is associative on accumulators of sample sequences |
| Statistics.MergeCommutative | crates/sitas-core/src/running_stats.rs:213-238 | merge is commutative on them |
| Statistics.ExtremesAreAttained | crates/sitas-core/src/running_stats.rs:81-87 | the minimum and maximum that the accumulator is proved to hold are samples, and bound every sample |
| Statistics.RoundsToNearest | crates/sitas-core/src/running_stats.rs:89 | a sample counts as the nearest whole number, halves up, within the range of a word and never below zero |
| Statistics.TotalIsSum | crates/sitas-core/src/running_stats.rs:89 | the total is the sum of the rounded samples modulo 2^64 |
| Statistics.DeviationsNonNegative | crates/sitas-core/src/running_stats.rs:174-176 | the squared-deviation sum is never negative |
| RunningStatistics.RunningStatistics.AddSample | crates/sitas-core/src/running_stats.rs:80-96 | the object describes its samples and the new one |
| RunningStatistics.RunningStatistics.Merge | crates/sitas-core/src/running_stats.rs:213-238 | the object describes its samples followed by the other's |
| RunningStatistics.RunningStatistics.Reset | crates/sitas-core/src/running_stats.rs:67-75 | the object describes no samples |
| RunningStatistics.RunningStatistics.Variance | crates/sitas-core/src/running_stats.rs:174-176 | the sample variance of the samples, none for fewer than two, never negative |

## Left out

- Weak memory: the ring and the channel are proved under sequential consistency, so the acquire and release orderings themselves are not justified.
- RingBuffer.RingBuffer.Len: is exact only when no other thread is between its loads and its store; the concurrent reading is not modelled.
- StreamReply.StreamShared.Collect: covers the loop once every sender is gone; the waiting before that is in `StreamRuns`.
- ShardExecutor.ShardExecutor.Run: covers tasks that wake only themselves; wakes from outside are in `WakeChain`.
- MockKernel.MockKernel.Complete: requires a capability and queue the kernel knows, because the worker's hook panics otherwise.
- NoStdKv.TotalLen: adds up the answers it is given; the requests and their timing are in `TotalLenIsBetween`.
- NoStdKv.RefinesShardedKv: has no shutdown, because the service is dropped only when no request is in flight.
- MergeRounds.RunDirectory.MergeRound: merges its pairs one after another; `AnyOrderMergesTheSame` covers every order of whole merges, not the interleaving of their single reads and writes.
- The waiting loops around parkers, timeouts, condition variables of `wait` and `wait_timeout`, and clocks: they end at any time and add no state.
- The `Keys` command and the `fold` and `StreamFuture` wrappers: they repeat operations that are modelled.
- Rejection and message counters of the mailbox, operation kinds of the kernel, progress reports of the index example: bookkeeping that no modelled branch reads.
- Input and readiness interests, TCP, UDP, io_uring and other operating-system code: only the reactor's contract matters to the models.
- The scheduler of the hosted executor, timers, scheduling groups, backpressure permits, shard-local storage, CPU placement and metrics.
- The kernel binding crate `sitas-charlotte`: system calls into a kernel that is not part of the repository.
- Proportional partitions of the index example, generated data files and their verification: simple arithmetic and input/output.
- Floating-point rounding and the distribution of hashes.
