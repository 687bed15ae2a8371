/**
 * The per-worker transaction maps and the totals the controller reports
 * over them.
 */
module Shards {
  import opened Messages
  import opened Routing

  /** Total number of entries over the maps, taken first to last. */
  function SumSizes<S>(maps: seq<map<TransactionId, S>>): nat
  {
    if maps == [] then 0 else SumSizes(maps[..|maps| - 1]) + |maps[|maps| - 1]|
  }

  /** Every transaction identifier present in some map. */
  function AllIds<S>(maps: seq<map<TransactionId, S>>): (ids: set<TransactionId>)
    ensures forall i, t :: 0 <= i < |maps| && t in maps[i] ==> t in ids
    ensures forall t :: t in ids ==> exists i :: 0 <= i < |maps| && t in maps[i]
  {
    if maps == [] then {}
    else
      var ids := AllIds(maps[..|maps| - 1]) + maps[|maps| - 1].Keys;
      assert forall i :: 0 <= i < |maps| - 1 ==> maps[..|maps| - 1][i] == maps[i];
      ids
  }

  /** Map `i` holds only transactions whose identifier shards to worker `i` of `n`. */
  ghost predicate ShardedMaps<S>(maps: seq<map<TransactionId, S>>, n: nat, hash: Hash)
    requires n > 0
  {
    forall i, t :: 0 <= i < |maps| && t in maps[i] ==> Shard(hash, t, n) == i
  }

  /**
   * When every map holds only its own shard's transactions, the summed sizes
   * count each live transaction exactly once.
   */
  lemma {:induction false} SumSizesCountsEachTransactionOnce<S>(maps: seq<map<TransactionId, S>>, n: nat, hash: Hash)
    requires n > 0
    requires ShardedMaps(maps, n, hash)
    ensures SumSizes(maps) == |AllIds(maps)|
  {
    if maps != [] {
      var front, last := maps[..|maps| - 1], maps[|maps| - 1];
      assert ShardedMaps(front, n, hash) by {
        forall i, t | 0 <= i < |front| && t in front[i] ensures Shard(hash, t, n) == i {
          assert front[i] == maps[i];
        }
      }
      SumSizesCountsEachTransactionOnce(front, n, hash);
      assert AllIds(front) !! last.Keys by {
        forall t | t in AllIds(front) ensures t !in last.Keys {
          var i :| 0 <= i < |front| && t in front[i];
          assert front[i] == maps[i];
          assert Shard(hash, t, n) == i;
          assert Shard(hash, t, n) != |maps| - 1;
        }
      }
      assert AllIds(maps) == AllIds(front) + last.Keys;
      assert |AllIds(front) + last.Keys| == |AllIds(front)| + |last.Keys|;
    }
  }
}
