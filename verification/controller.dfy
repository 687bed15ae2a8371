/**
 * The transaction controller: the single loop that drains the state-machine
 * FIFO into the per-worker FIFOs, posts the shutdown notice to the TU layer,
 * and tells the event loop how long it may block.
 */
module Controller {
  import opened Wrappers
  import opened Messages
  import opened Routing
  import opened Shards

  /** Values of an `unsigned int` are taken modulo this. */
  const UintModulus: nat := 0x1_0000_0000
  /** Values of a `std::size_t` are taken modulo this. */
  const SizeModulus: nat := 0x1_0000_0000_0000_0000

  /**
   * The worker count: the hardware concurrency the platform reports, or 4
   * when it reports none. There is no floor of 4 otherwise.
   */
  function NumberOfThreads(hardwareConcurrency: nat): (n: nat)
    ensures n > 0
    ensures hardwareConcurrency != 0 ==> n == hardwareConcurrency
    ensures hardwareConcurrency == 0 ==> n == 4
  {
    if hardwareConcurrency == 0 then 4 else hardwareConcurrency
  }

  class TransactionController {
    /** The identifier hash, fixed for the controller's lifetime. */
    const hash: Hash
    /** What the platform reported as its hardware concurrency. */
    const hardwareConcurrency: nat
    /** The number of workers, fixed at construction. */
    const threads: nat
    /** The private FIFO of each worker; the dispatcher only appends to them. */
    const workerQueues: array<seq<TransactionMessage>>

    /** Per-worker transaction maps; only the workers (not modelled) change them. */
    var clientTransactionMaps: seq<map<TransactionId, TransactionState>>
    var serverTransactionMaps: seq<map<TransactionId, TransactionState>>

    /** The state-machine FIFO that every producer feeds. */
    var stateMacFifo: seq<TransactionMessage>
    /** What has been handed to the TU selector. */
    var tuQueue: seq<TuMessage>
    /** Set by Shutdown, never cleared. */
    var shuttingDown: bool
    /** Whether the transport selector has been told to shut down. */
    var transportShutdown: bool

    // Readings of collaborators outside this model, written by the environment.
    /** The stack's TU FIFO has a message waiting. */
    var tuFifoAvailable: bool
    /** The transport selector reports it has finished. */
    var transportFinished: bool
    /** The transport selector has data waiting to be sent. */
    var transportHasData: bool
    /** The transport selector's own wait budget, in milliseconds. */
    var transportMs: nat
    /** Milliseconds until the earliest timer is due. */
    var msTillNextTimer: nat

    ghost predicate Valid()
      reads this
    {
      threads == NumberOfThreads(hardwareConcurrency) &&
      workerQueues.Length == threads &&
      |clientTransactionMaps| == threads &&
      |serverTransactionMaps| == threads &&
      ShardedMaps(clientTransactionMaps, threads, hash) &&
      ShardedMaps(serverTransactionMaps, threads, hash)
    }

    /** A controller with one empty FIFO and one empty map pair per worker. */
    constructor (hardwareConcurrency: nat, hash: Hash)
      ensures Valid() && fresh(workerQueues)
      ensures this.hash == hash && this.hardwareConcurrency == hardwareConcurrency
      ensures forall k :: 0 <= k < workerQueues.Length ==> workerQueues[k] == []
      ensures forall k :: 0 <= k < threads ==> clientTransactionMaps[k] == map[] && serverTransactionMaps[k] == map[]
      ensures stateMacFifo == [] && tuQueue == []
      ensures !shuttingDown && !transportShutdown
    {
      var n := NumberOfThreads(hardwareConcurrency);
      this.hash := hash;
      this.hardwareConcurrency := hardwareConcurrency;
      threads := n;
      workerQueues := new seq<TransactionMessage>[n](_ => []);
      clientTransactionMaps := seq(n, _ => map[]);
      serverTransactionMaps := seq(n, _ => map[]);
      stateMacFifo := [];
      tuQueue := [];
      shuttingDown := false;
      transportShutdown := false;
      tuFifoAvailable := false;
      transportFinished := false;
      transportHasData := false;
      transportMs := 0;
      msTillNextTimer := 0;
    }

    /** Starts the shutdown: the flag is raised and the transport selector told to drain. */
    method Shutdown()
      modifies this`shuttingDown, this`transportShutdown
      ensures shuttingDown && transportShutdown
    {
      shuttingDown := true;
      transportShutdown := true;
    }

    /** The condition under which `Process` posts the shutdown notice instead of dispatching. */
    predicate ShutdownReady()
      reads this
    {
      shuttingDown && stateMacFifo == [] && !tuFifoAvailable && transportFinished
    }

    /**
     * One cycle. When shutdown is ready, one ShutdownMessage goes to the TU and
     * nothing else changes (on every such call). Otherwise the transport and the
     * timers run, adding `fromTransport` and then `fromTimers` to the FIFO, and
     * the FIFO is drained: each message with an identifier is appended to the
     * queue of its identifier's worker, and one without is dropped.
     */
    method Process(fromTransport: seq<TransactionMessage>, fromTimers: seq<TransactionMessage>)
      requires Valid()
      modifies this`stateMacFifo, this`tuQueue, workerQueues
      ensures Valid()
      ensures old(ShutdownReady()) ==>
        tuQueue == old(tuQueue) + [ShutdownMessage] &&
        stateMacFifo == old(stateMacFifo) &&
        workerQueues[..] == old(workerQueues[..])
      ensures !old(ShutdownReady()) ==>
        stateMacFifo == [] &&
        tuQueue == old(tuQueue) &&
        forall k :: 0 <= k < threads ==>
          workerQueues[k] == old(workerQueues[k]) + RoutedTo(old(stateMacFifo) + fromTransport + fromTimers, k, threads, hash)
    {
      if ShutdownReady() {
        tuQueue := tuQueue + [ShutdownMessage];
      } else {
        stateMacFifo := stateMacFifo + fromTransport;
        stateMacFifo := stateMacFifo + fromTimers;
        ghost var drained := stateMacFifo;
        ghost var before := workerQueues[..];
        ghost var i := 0;
        while stateMacFifo != []
          invariant 0 <= i <= |drained| && stateMacFifo == drained[i..]
          invariant tuQueue == old(tuQueue)
          invariant forall k :: 0 <= k < threads ==> workerQueues[k] == before[k] + RoutedTo(drained[..i], k, threads, hash)
          decreases |stateMacFifo|
        {
          var msg := stateMacFifo[0];
          stateMacFifo := stateMacFifo[1..];
          assert drained[..i + 1] == drained[..i] + [msg];
          forall k | 0 <= k < threads
            ensures RoutedTo(drained[..i + 1], k, threads, hash)
                 == RoutedTo(drained[..i], k, threads, hash) + (if RoutesTo(msg, k, threads, hash) then [msg] else [])
          {
            RoutedToSnoc(drained[..i], msg, k, threads, hash);
          }
          match GetTransactionId(msg) {
            case Some(tid) =>
              var threadNum := hash(tid) % threads;
              workerQueues[threadNum] := workerQueues[threadNum] + [msg];
            case None =>
              // Not the dispatcher's error: the message is dropped.
          }
          i := i + 1;
        }
        assert drained[..i] == drained;
      }
    }

    /**
     * How long the event loop may block: nothing while the FIFO holds a message
     * or the transport has data to send, otherwise the sooner of the next timer
     * and the transport's own deadline.
     */
    function TimeTillNextProcessMS(): (ms: nat)
      reads this
      ensures stateMacFifo != [] || transportHasData ==> ms == 0
      ensures stateMacFifo == [] && !transportHasData ==>
        ms <= msTillNextTimer && ms <= transportMs && (ms == msTillNextTimer || ms == transportMs)
    {
      if stateMacFifo != [] then 0
      else if transportHasData then 0
      else if msTillNextTimer <= transportMs then msTillNextTimer else transportMs
    }

    /** Queues a SIP message for the state machines. */
    method Send(msg: SipMessage)
      modifies this`stateMacFifo
      ensures stateMacFifo == old(stateMacFifo) + [msg]
    {
      stateMacFifo := stateMacFifo + [msg];
    }

    /** Queues a request to abandon server transaction `tid`. */
    method AbandonServerTransaction(tid: TransactionId)
      modifies this`stateMacFifo
      ensures stateMacFifo == old(stateMacFifo) + [AbandonServer(tid)]
    {
      stateMacFifo := stateMacFifo + [AbandonServer(tid)];
    }

    /** Queues a request to cancel client INVITE transaction `tid`. */
    method CancelClientInviteTransaction(tid: TransactionId)
      modifies this`stateMacFifo
      ensures stateMacFifo == old(stateMacFifo) + [CancelClientInvite(tid)]
    {
      stateMacFifo := stateMacFifo + [CancelClientInvite(tid)];
    }

    /** The number of live client transactions over all workers, as an `unsigned int`. */
    method NumClientTransactions() returns (count: nat)
      requires Valid()
      ensures count < UintModulus
      ensures count == SumSizes(clientTransactionMaps) % UintModulus
      ensures count == |AllIds(clientTransactionMaps)| % UintModulus
    {
      count := SumMapSizes(clientTransactionMaps);
      SumSizesCountsEachTransactionOnce(clientTransactionMaps, threads, hash);
    }

    /** The number of live server transactions over all workers, as an `unsigned int`. */
    method NumServerTransactions() returns (count: nat)
      requires Valid()
      ensures count < UintModulus
      ensures count == SumSizes(serverTransactionMaps) % UintModulus
      ensures count == |AllIds(serverTransactionMaps)| % UintModulus
    {
      count := SumMapSizes(serverTransactionMaps);
      SumSizesCountsEachTransactionOnce(serverTransactionMaps, threads, hash);
    }
  }

  /**
   * The counting loop of both totals: sizes are accumulated in a `std::size_t`
   * and the sum is returned as an `unsigned int`.
   */
  method SumMapSizes(maps: seq<map<TransactionId, TransactionState>>) returns (count: nat)
    ensures count == SumSizes(maps) % UintModulus
  {
    var transactions: nat := 0;
    for i := 0 to |maps|
      invariant transactions == SumSizes(maps[..i]) % SizeModulus
    {
      assert maps[..i + 1][..i] == maps[..i];
      transactions := (transactions + |maps[i]|) % SizeModulus;
    }
    assert maps[..|maps|] == maps;
    count := transactions % UintModulus;
  }

  /**
   * The worker index as `process` computes it for each message: the worker
   * count is asked of the platform again rather than taken from the pool
   * built at construction.
   */
  function ThreadIndexAsWritten(hash: Hash, tid: TransactionId, hardwareConcurrencyNow: nat): (k: nat)
    ensures k < NumberOfThreads(hardwareConcurrencyNow)
  {
    hash(tid) % NumberOfThreads(hardwareConcurrencyNow)
  }

  /**
   * If the reported concurrency changes between construction and `process`,
   * the index can fall outside the pool (4 workers built, 8 reported, hash 5
   * gives index 5), or name a different worker than before (8 built, 4
   * reported, hash 5 gives 1 instead of 5).
   */
  lemma ThreadIndexAsWrittenLeavesThePool()
    ensures ThreadIndexAsWritten((t: TransactionId) => 5, [], 8) >= NumberOfThreads(4)
    ensures ThreadIndexAsWritten((t: TransactionId) => 5, [], 4) != ThreadIndexAsWritten((t: TransactionId) => 5, [], 8)
  {
  }

  /**
   * Two cycles with shutdown ready post two notices: the notice is not sent
   * once only. The stack's TU FIFO is taken to be drained by its consumer
   * before each cycle, as `tuFifoAvailable` is not tied to what the TU
   * selector receives.
   */
  method ShutdownNoticeOnEveryReadyCycle(hash: Hash)
  {
    var c := new TransactionController(2, hash);
    c.Shutdown();
    c.transportFinished := true;
    c.tuFifoAvailable := false;
    c.Process([], []);
    c.tuFifoAvailable := false;
    c.Process([], []);
    assert c.tuQueue == [ShutdownMessage, ShutdownMessage];
  }
}
