# Transaction controller dispatch, modelled in Dafny

This project models the dispatch step of reSIProcate's `TransactionController`
(`resip/stack/TransactionController.cxx`): the part of the SIP stack that takes
every message bound for a transaction state machine from the state-machine FIFO
and hands it to one of a fixed pool of worker threads. The model proves the
properties this sharding depends on:

- the FIFO is drained completely on every non-shutdown cycle;
- a message is appended to the queue of worker `hash(tid) % threads`, and to no
  other queue;
- messages of one transaction keep their arrival order in that queue;
- a message whose transaction identifier cannot be obtained reaches no worker;
- once shutdown is ready, a cycle posts one `ShutdownMessage` to the TU layer
  and changes nothing else, and it does so on every such cycle.

Layout:

- `wrappers.dfy` (`Wrappers`): `Option`.
- `messages.dfy` (`Messages`): transaction identifiers (byte strings), the
  message kinds that enter the FIFO, and `GetTransactionId`. A SIP message whose
  identifier cannot be derived carries `None`; this stands for the
  `SipMessage::Exception` thrown by `getTransactionId`.
- `routing.dfy` (`Routing`): the sharding rule `Shard` and `RoutedTo`. `RoutedTo`
  is the reference definition of what one worker receives from a batch. The
  lemmas about it state conservation, ordering and dropping.
- `shards.dfy` (`Shards`): the per-worker transaction maps and the sum of their
  sizes.
- `controller.dfy` (`Controller`): the class `TransactionController`. It holds
  the FIFO (`seq`), the worker FIFOs (an `array` of `seq`, one per worker), the
  TU queue, the shutdown flag and the readings of the collaborators. Its methods
  are `process`, `shutdown`, `send`, `abandonServerTransaction`,
  `cancelClientInviteTransaction` and the two transaction counters.
  `getTimeTillNextProcessMS` is a function of the object.

The identifier hash (`Data::hash`) is a constant field of arrow type
`TransactionId -> nat`. It is uninterpreted and pure, so the shard of an
identifier is the same on every call and every cycle. The hardware concurrency
is a constant given at construction. During one cycle, `process` lets the
transport selector and then the timer queue run, and both may add messages to
the FIFO before it is drained. The model takes these messages as the parameters
`fromTransport` and `fromTimers`. Readings of collaborators outside the model
are public fields that the environment writes. These readings are: the stack's
TU FIFO has a message, the transport has finished, the transport has data to
send, the transport's wait budget, and the time until the next timer.

Three details of the code are easy to misread, and the model follows the code
on each:

- The worker count is the reported hardware concurrency. It is 4 only when the
  platform reports 0, so a machine that reports 2 gets 2 workers (line 69). There
  is no floor of 4.
- Before it posts the shutdown notice, the shutdown condition waits for the
  stack's TU FIFO to be empty, as the code does (line 92). The code's own comment
  asks whether that wait is intended. The model keeps the wait and does not
  answer that question.
- The shutdown gate does not wait for the timer queue: its timer test is
  commented out (line 90). Pending timers do not hold back the shutdown notice.

## Model

| member | source | states |
|---|---|---|
| `Controller.NumberOfThreads` | resip/stack/TransactionController.cxx:67-70 | the worker count is positive; it is the reported hardware concurrency when that is non-zero and 4 when it is zero |
| `Controller.TransactionController.constructor` | resip/stack/TransactionController.cxx:33-56 | one empty worker FIFO and one empty client and server map per worker; empty FIFO; shutdown flag false |
| `Controller.TransactionController.Shutdown` | resip/stack/TransactionController.cxx:79-84 | raises the shutdown flag and tells the transport to shut down; its frame allows nothing else to change, and no member clears the flag |
| `Controller.TransactionController.Process` | resip/stack/TransactionController.cxx:86-125 | when shutdown is ready it appends exactly one `ShutdownMessage` to the TU queue and leaves the FIFO and worker queues unchanged, on every such call; otherwise the FIFO ends empty, the TU queue is unchanged, and each worker queue is its old contents followed by `RoutedTo` of the drained batch (old FIFO, then transport arrivals, then timer arrivals) |
| `Controller.TransactionController.TimeTillNextProcessMS` | resip/stack/TransactionController.cxx:127-140 | 0 when the FIFO has a message or the transport has data to send; otherwise the minimum of the timer wait and the transport wait (at most both, equal to one) |
| `Controller.TransactionController.Send` | resip/stack/TransactionController.cxx:148-152 | appends the SIP message to the end of the FIFO; its frame allows nothing else to change |
| `Controller.TransactionController.AbandonServerTransaction` | resip/stack/TransactionController.cxx:212-216 | appends one abandon message for `tid` to the end of the FIFO and changes nothing else |
| `Controller.TransactionController.CancelClientInviteTransaction` | resip/stack/TransactionController.cxx:218-222 | appends one cancel message for `tid` to the end of the FIFO and changes nothing else |
| `Controller.TransactionController.NumClientTransactions` | resip/stack/TransactionController.cxx:173-182 | the sum of the client map sizes over all workers, truncated to `unsigned int`; since each worker's map holds only its own shard, that is the number of distinct live client transactions, truncated |
| `Controller.TransactionController.NumServerTransactions` | resip/stack/TransactionController.cxx:184-193 | the sum of the server map sizes over all workers, truncated to `unsigned int`; since each worker's map holds only its own shard, that is the number of distinct live server transactions, truncated |
| `Controller.SumMapSizes` | resip/stack/TransactionController.cxx:176-181 | accumulating in a 64-bit `size_t` and returning an `unsigned int` yields the true sum modulo 2^32 |
| `Messages.GetTransactionId` | resip/stack/TransactionController.cxx:113-121 | only a SIP message can fail to yield an identifier; abandon and cancel messages yield the identifier they were built with |
| `Routing.Shard` | resip/stack/TransactionController.cxx:114 | the worker index `hash(tid) % n` is below the worker count |
| `Routing.RoutedTo` | resip/stack/TransactionController.cxx:107-123 | a worker receives only drained messages whose identifier shards to it, never more messages than were drained |
| `Routing.RoutedToConcat` | resip/stack/TransactionController.cxx:107-123 | routing two batches (two cycles) one after the other gives the same queues as routing their concatenation |
| `Routing.RoutedToCount` | resip/stack/TransactionController.cxx:113-121 | each message reaches worker `k` as often as it was drained if its identifier shards to `k`, and never otherwise: exactly one queue for a message with an identifier |
| `Routing.MalformedReachesNoWorker` | resip/stack/TransactionController.cxx:117-122 | a message without an identifier is in no worker's share |
| `Routing.SameTransactionKeepsOrder` | resip/stack/TransactionController.cxx:108-115 | in the owning worker's share, the messages of one transaction are exactly that transaction's messages in arrival order; every other worker gets none of them |
| `Routing.TwoWorkerScenario` | resip/stack/TransactionController.cxx:113-115 | with two workers and messages A1, B1, A2, worker 0 receives [A1, A2] and worker 1 receives [B1] |
| `Shards.SumSizesCountsEachTransactionOnce` | resip/stack/TransactionController.cxx:173-193 | when each worker's map holds only identifiers of its own shard, the summed sizes equal the number of distinct live transactions |
| `Controller.ThreadIndexAsWritten` | resip/stack/TransactionController.cxx:114 | the index as written is below the worker count reported at the time of the call, not the count the pool was built with |
| `Controller.ThreadIndexAsWrittenLeavesThePool` | resip/stack/TransactionController.cxx:44-52 | with 4 workers built and 8 reported later, hash 5 gives index 5, past the pool; with 8 built and 4 later, the same identifier moves to another worker |

## Findings

| source | as written | input that shows it | evidently intended | confidence | as-written member | corrected member |
|---|---|---|---|---|---|---|
| resip/stack/TransactionController.cxx:114 | the worker index is `tid.hash() % numberOfThreads()`, and `numberOfThreads()` asks `std::thread::hardware_concurrency()` again on every message, while the pool and the maps were sized once in the constructor (lines 44-52) | 4 workers built, then the platform reports 8 online CPUs, and an identifier hashes to 5: index 5 is past the end of the 4-entry thread vector | the worker count fixed at construction is used for every message, so the index is always in range and an identifier never changes worker | low, not executed; it needs the reported CPU count to change while the stack runs (CPU hot-plug) | `Controller.ThreadIndexAsWrittenLeavesThePool` | `Controller.TransactionController.Process` |

## Left out

- Transport selector: `process(fdset)`, `buildFdSet`, `isFinished`,
  `hasDataToSend`, its own wait budget, `shutdown` and the mark listener calls
  (`registerMarkListener`, `unregisterMarkListener`) are socket I/O. The model
  has the readings as fields, a `transportShutdown` flag, and the messages the
  selector adds to the FIFO as a parameter of `Process`.
- Timer queue: `mTimers.process()` and `msTillNextTimer` internals; timer
  messages enter `Process` as a parameter, and the wait appears as a field.
- Admission policy of the bounded FIFOs (`TimeLimitFifo` depth and age limits,
  `wouldAccept`), and so `isTUOverloaded`. These are foreign calls whose code
  is not part of this model. Every add is modelled as accepted. The shutdown
  notice is added with the unbounded internal admission, so this is exact for
  that notice.
- How the TU selector routes the notice further on (it may place it in the
  stack's TU FIFO): that code is not part of this model. The TU FIFO reading
  `tuFifoAvailable` is therefore not tied to `tuQueue`.
- Worker threads and the per-transaction state machines. Workers run
  concurrently with the loop and may add messages to the FIFO during a drain;
  the model drains the messages present when the drain starts. The maps
  are only read, never changed; the object invariant `Valid` requires each
  worker's maps to hold only identifiers of that worker's shard, which is what
  the workers keep true, and which the controller alone cannot change.
- Read-only delegations `getTuFifoSize`, `sumTransportFifoSizes`,
  `getTransactionFifoSize` and `getTimerQueueSize` return a collaborator's
  size unchanged; the destructor, logging, freeing a dropped message, the
  configuration flags (`mDiscardStrayResponses` and its siblings) and the static
  TU FIFO limits have no behaviour to verify.
- 64-bit wrap-around of `Data::hash` results: the hash is any function into the
  naturals, which includes every 64-bit hash.
- `p2p/FlowId.hxx` (a data holder with a getter) and `rutil/Version.cxx` (a
  version string) have no behaviour to verify.
