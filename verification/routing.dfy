/**
 * The sharding rule of the transaction controller and its reference
 * definition: which messages of a drained batch each worker queue receives.
 */
module Routing {
  import opened Wrappers
  import opened Messages

  /** The identifier hash; any pure function, fixed for the controller's lifetime. */
  type Hash = TransactionId -> nat

  /** The worker that owns transaction `tid` among `n` workers. */
  function Shard(hash: Hash, tid: TransactionId, n: nat): (k: nat)
    requires n > 0
    ensures k < n
  {
    hash(tid) % n
  }

  /** Message `m` has an identifier, and that identifier belongs to worker `k`. */
  predicate RoutesTo(m: TransactionMessage, k: nat, n: nat, hash: Hash)
    requires n > 0
  {
    match GetTransactionId(m)
    case None => false
    case Some(t) => Shard(hash, t, n) == k
  }

  /**
   * The messages of `msgs` that worker `k` receives, in arrival order: every
   * message whose identifier shards to `k`, and nothing else.
   */
  function RoutedTo(msgs: seq<TransactionMessage>, k: nat, n: nat, hash: Hash): (r: seq<TransactionMessage>)
    requires n > 0
    ensures |r| <= |msgs|
    ensures forall x :: x in r ==> x in msgs && RoutesTo(x, k, n, hash)
  {
    if msgs == [] then []
    else (if RoutesTo(msgs[0], k, n, hash) then [msgs[0]] else []) + RoutedTo(msgs[1..], k, n, hash)
  }

  /** The messages of `msgs` that belong to transaction `t`, in order. */
  function OfTransaction(msgs: seq<TransactionMessage>, t: TransactionId): (r: seq<TransactionMessage>)
    ensures |r| <= |msgs|
    ensures forall x :: x in r ==> x in msgs && GetTransactionId(x) == Some(t)
  {
    if msgs == [] then []
    else (if GetTransactionId(msgs[0]) == Some(t) then [msgs[0]] else []) + OfTransaction(msgs[1..], t)
  }

  /** Routing two batches one after the other is routing their concatenation. */
  lemma {:induction false} RoutedToConcat(a: seq<TransactionMessage>, b: seq<TransactionMessage>, k: nat, n: nat, hash: Hash)
    requires n > 0
    ensures RoutedTo(a + b, k, n, hash) == RoutedTo(a, k, n, hash) + RoutedTo(b, k, n, hash)
  {
    if a == [] {
      assert a + b == b;
    } else {
      assert (a + b)[0] == a[0];
      assert (a + b)[1..] == a[1..] + b;
      RoutedToConcat(a[1..], b, k, n, hash);
    }
  }

  /** Appending one message to a batch appends it to its own worker's share only. */
  lemma RoutedToSnoc(a: seq<TransactionMessage>, m: TransactionMessage, k: nat, n: nat, hash: Hash)
    requires n > 0
    ensures RoutedTo(a + [m], k, n, hash) == RoutedTo(a, k, n, hash) + (if RoutesTo(m, k, n, hash) then [m] else [])
  {
    RoutedToConcat(a, [m], k, n, hash);
    assert [m][1..] == [];
  }

  /**
   * Each message value reaches worker `k` exactly as many times as it was
   * drained if its identifier shards to `k`, and never otherwise: so a message
   * with an identifier lands in exactly one worker queue, and a message
   * without one lands in none.
   */
  lemma {:induction false} RoutedToCount(msgs: seq<TransactionMessage>, k: nat, n: nat, hash: Hash, x: TransactionMessage)
    requires n > 0
    ensures multiset(RoutedTo(msgs, k, n, hash))[x] == if RoutesTo(x, k, n, hash) then multiset(msgs)[x] else 0
  {
    if msgs != [] {
      assert msgs == [msgs[0]] + msgs[1..];
      RoutedToCount(msgs[1..], k, n, hash, x);
    }
  }

  /** A message without an identifier reaches no worker at all. */
  lemma MalformedReachesNoWorker(msgs: seq<TransactionMessage>, n: nat, hash: Hash, x: TransactionMessage)
    requires n > 0
    requires GetTransactionId(x).None?
    ensures forall k :: x !in RoutedTo(msgs, k, n, hash)
  {
  }

  /**
   * Within the queue of the worker that owns `t`, the messages of `t` appear
   * exactly as they arrived; every other worker receives none of them.
   */
  lemma {:induction false} SameTransactionKeepsOrder(msgs: seq<TransactionMessage>, t: TransactionId, k: nat, n: nat, hash: Hash)
    requires n > 0
    ensures OfTransaction(RoutedTo(msgs, k, n, hash), t) == if k == Shard(hash, t, n) then OfTransaction(msgs, t) else []
  {
    if msgs != [] {
      var head := if RoutesTo(msgs[0], k, n, hash) then [msgs[0]] else [];
      var rest := RoutedTo(msgs[1..], k, n, hash);
      OfTransactionConcat(head, rest, t);
      SameTransactionKeepsOrder(msgs[1..], t, k, n, hash);
      if head != [] {
        assert head[1..] == [];
      }
    }
  }

  lemma {:induction false} OfTransactionConcat(a: seq<TransactionMessage>, b: seq<TransactionMessage>, t: TransactionId)
    ensures OfTransaction(a + b, t) == OfTransaction(a, t) + OfTransaction(b, t)
  {
    if a == [] {
      assert a + b == b;
    } else {
      assert (a + b)[0] == a[0];
      assert (a + b)[1..] == a[1..] + b;
      OfTransactionConcat(a[1..], b, t);
    }
  }

  /**
   * Messages A1, B1, A2 with two workers, A owned by worker 0 and B by worker 1:
   * worker 0 receives A1 then A2, worker 1 receives B1.
   */
  lemma TwoWorkerScenario(hash: Hash, a: TransactionId, b: TransactionId, a1: TransactionMessage, b1: TransactionMessage, a2: TransactionMessage)
    requires hash(a) % 2 == 0 && hash(b) % 2 == 1
    requires GetTransactionId(a1) == Some(a) && GetTransactionId(a2) == Some(a) && GetTransactionId(b1) == Some(b)
    ensures RoutedTo([a1, b1, a2], 0, 2, hash) == [a1, a2]
    ensures RoutedTo([a1, b1, a2], 1, 2, hash) == [b1]
  {
    assert [a1, b1, a2][1..] == [b1, a2] && [b1, a2][1..] == [a2] && [a2][1..] == [];
    assert RoutesTo(a1, 0, 2, hash) && RoutesTo(a2, 0, 2, hash) && !RoutesTo(b1, 0, 2, hash);
    assert RoutesTo(b1, 1, 2, hash) && !RoutesTo(a1, 1, 2, hash) && !RoutesTo(a2, 1, 2, hash);
    assert RoutedTo([a2], 0, 2, hash) == [a2] && RoutedTo([a2], 1, 2, hash) == [];
    assert RoutedTo([b1, a2], 0, 2, hash) == [a2] && RoutedTo([b1, a2], 1, 2, hash) == [b1];
  }
}
