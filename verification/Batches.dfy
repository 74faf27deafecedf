/** The two containers the reducers manage: `AggregatedBatch` of
    aiokpl/aggregator.py and `PutRecordsBatch` of aiokpl/collector.py. Each
    caches sizes; each cache is shown to equal a recomputation from the items,
    so a container is determined by its items. */
module Batches {
  import opened Common
  import opened Aggregation
  import opened Records
  import opened ReducerSpec

  const RECORD_FRAMING := 3
  const FIELD_FRAMING := 3
  const INDEX_REFERENCE := 2

  // ---- Size estimates ----

  function PartitionKeys(items: seq<Buffered>): set<string> {
    set i | 0 <= i < |items| :: items[i].userRecord.partitionKey
  }

  function ExplicitHashKeys(items: seq<Buffered>): set<string> {
    set i | 0 <= i < |items| && items[i].userRecord.explicitHashKey.Some? :: items[i].userRecord.explicitHashKey.value
  }

  function KeyCost(c: Codec, k: string): nat {
    |c.utf8(k)| + FIELD_FRAMING
  }

  /** What one more record adds to the estimate, given the keys before it. */
  function Delta(c: Codec, pks: set<string>, ehks: set<string>, r: UserRecord): nat {
    RECORD_FRAMING + |r.data| + FIELD_FRAMING + INDEX_REFERENCE
    + (if r.partitionKey in pks then 0 else KeyCost(c, r.partitionKey))
    + (if r.explicitHashKey.None? || r.explicitHashKey.value in ehks then 0 else KeyCost(c, r.explicitHashKey.value))
  }

  function EstimatedSize(c: Codec, items: seq<Buffered>): nat {
    if items == [] then 0
    else
      var f := Front(items);
      EstimatedSize(c, f) + Delta(c, PartitionKeys(f), ExplicitHashKeys(f), Last(items).userRecord)
  }

  lemma KeysSnoc(items: seq<Buffered>, x: Buffered)
    ensures PartitionKeys(items + [x]) == PartitionKeys(items) + {x.userRecord.partitionKey}
    ensures ExplicitHashKeys(items + [x])
         == ExplicitHashKeys(items) + (if x.userRecord.explicitHashKey.Some? then {x.userRecord.explicitHashKey.value}
                                       else {})
  {
    var s := items + [x];
    assert s[|items|] == x && forall i :: 0 <= i < |items| ==> s[i] == items[i];
    var p, e := PartitionKeys(items), ExplicitHashKeys(items);
    forall k | k in p
      ensures k in PartitionKeys(s)
    {
      var i :| 0 <= i < |items| && items[i].userRecord.partitionKey == k;
      assert s[i].userRecord.partitionKey == k;
    }
    forall k | k in e
      ensures k in ExplicitHashKeys(s)
    {
      var i :| 0 <= i < |items| && items[i].userRecord.explicitHashKey == Some(k);
      assert s[i].userRecord.explicitHashKey == Some(k);
    }
  }

  lemma SizeSnoc(c: Codec, items: seq<Buffered>, x: Buffered)
    ensures EstimatedSize(c, items + [x])
         == EstimatedSize(c, items) + Delta(c, PartitionKeys(items), ExplicitHashKeys(items), x.userRecord)
  {
    assert Front(items + [x]) == items && Last(items + [x]) == x;
  }

  class AggregatedBatch {
    const c: Codec
    const predictedShard: Option<int>
    var items: seq<Buffered>
    var sizeEstimate: nat
    var pkSet: set<string>
    var ehkSet: set<string>

    /** The caches are what the items say. */
    ghost predicate Valid()
      reads this
    {
      && sizeEstimate == EstimatedSize(c, items)
      && pkSet == PartitionKeys(items)
      && ehkSet == ExplicitHashKeys(items)
    }

    constructor (c: Codec, shard: Option<int>)
      ensures Valid() && items == [] && this.c == c && predictedShard == shard
    {
      this.c, predictedShard := c, shard;
      items, sizeEstimate, pkSet, ehkSet := [], 0, {}, {};
    }

    method Add(item: Buffered)
      requires Valid()
      modifies this
      ensures Valid() && items == old(items) + [item]
    {
      KeysSnoc(items, item);
      SizeSnoc(c, items, item);
      var ur := item.userRecord;
      var delta := RECORD_FRAMING + |ur.data| + FIELD_FRAMING + INDEX_REFERENCE;
      if ur.partitionKey !in pkSet {
        pkSet := pkSet + {ur.partitionKey};
        delta := delta + |c.utf8(ur.partitionKey)| + FIELD_FRAMING;
      }
      if ur.explicitHashKey.Some? && ur.explicitHashKey.value !in ehkSet {
        ehkSet := ehkSet + {ur.explicitHashKey.value};
        delta := delta + |c.utf8(ur.explicitHashKey.value)| + FIELD_FRAMING;
      }
      items := items + [item];
      sizeEstimate := sizeEstimate + delta;
    }

    /** Exactly undoes the last `Add`: items, size and both key sets are what
        they were, though the sets are rebuilt from nothing. */
    method RemoveLast() returns (item: Buffered)
      requires Valid() && items != []
      modifies this
      ensures Valid() && items == Front(old(items)) && item == Last(old(items))
    {
      item := items[|items| - 1];
      var kept := items[..|items| - 1];
      items, sizeEstimate, pkSet, ehkSet := [], 0, {}, {};
      for i := 0 to |kept|
        invariant Valid() && items == kept[..i]
      {
        Add(kept[i]);
      }
    }
  }

  // ---- Requests ----

  function BatchSize(c: Codec, b: Batch<Buffered>): nat {
    EstimatedSize(c, b.items)
  }

  function Earliest(items: seq<Buffered>): real
    requires items != []
  {
    if |items| == 1 then items[0].deadline else MinReal(Earliest(Front(items)), Last(items).deadline)
  }

  /** The earliest deadline in a batch; only asked of non-empty ones. */
  function BatchDeadline(b: Batch<Buffered>): real {
    if b.items == [] then 0.0 else Earliest(b.items)
  }

  function TotalSize(c: Codec, bs: seq<Batch<Buffered>>): nat {
    if bs == [] then 0 else TotalSize(c, Front(bs)) + BatchSize(c, Last(bs))
  }

  /** The bytes of one shard in a request. */
  function Share(c: Codec, bs: seq<Batch<Buffered>>, shard: Option<int>): nat {
    if bs == [] then 0
    else Share(c, Front(bs), shard) + if Last(bs).shard == shard then BatchSize(c, Last(bs)) else 0
  }

  lemma ShareSnoc(c: Codec, bs: seq<Batch<Buffered>>, x: Batch<Buffered>, shard: Option<int>)
    ensures Share(c, bs + [x], shard) == Share(c, bs, shard) + if x.shard == shard then BatchSize(c, x) else 0
    ensures TotalSize(c, bs + [x]) == TotalSize(c, bs) + BatchSize(c, x)
  {
    assert Front(bs + [x]) == bs && Last(bs + [x]) == x;
  }

  class PutRecordsBatch {
    const c: Codec
    var items: seq<Batch<Buffered>>
    var sizeBytes: int
    var perShard: map<Option<int>, int>

    function PerShardBytes(shard: Option<int>): int
      reads this
    {
      if shard in perShard then perShard[shard] else 0
    }

    ghost predicate Valid()
      reads this
    {
      && sizeBytes == TotalSize(c, items)
      && forall s :: PerShardBytes(s) == Share(c, items, s)
    }

    constructor (c: Codec)
      ensures Valid() && items == [] && this.c == c
    {
      this.c := c;
      items, sizeBytes, perShard := [], 0, map[];
    }

    method Add(item: Batch<Buffered>)
      requires Valid()
      modifies this
      ensures Valid() && items == old(items) + [item]
    {
      hide BatchSize, Share, TotalSize;
      forall s
        ensures Share(c, items + [item], s) == Share(c, items, s) + if item.shard == s then BatchSize(c, item) else 0
        ensures TotalSize(c, items + [item]) == TotalSize(c, items) + BatchSize(c, item)
      {
        ShareSnoc(c, items, item, s);
      }
      ShareSnoc(c, items, item, None);
      var size := BatchSize(c, item);
      items := items + [item];
      sizeBytes := sizeBytes + size;
      perShard := perShard[item.shard := PerShardBytes(item.shard) + size];
    }

    /** Exactly undoes the last `Add`; an entry that drops to zero is removed,
        which no reader can tell. */
    method RemoveLast() returns (item: Batch<Buffered>)
      requires Valid() && items != []
      modifies this
      ensures Valid() && items == Front(old(items)) && item == Last(old(items))
    {
      hide BatchSize, Share, TotalSize;
      item := items[|items| - 1];
      ghost var front := Front(items);
      assert items == front + [item];
      forall s
        ensures Share(c, items, s) == Share(c, front, s) + if item.shard == s then BatchSize(c, item) else 0
      {
        ShareSnoc(c, front, item, s);
      }
      ShareSnoc(c, front, item, None);
      items := items[..|items| - 1];
      sizeBytes := sizeBytes - BatchSize(c, item);
      var newTotal := PerShardBytes(item.shard) - BatchSize(c, item);
      if newTotal <= 0 {
        perShard := perShard - {item.shard};
      } else {
        perShard := perShard[item.shard := newTotal];
      }
    }
  }

  // ---- The two reducers ----

  function AggregatorConfig(c: Codec, maxCount: int, maxSize: int): Config<Buffered> {
    Config((b: Buffered) => b.deadline, (s: seq<Buffered>) => EstimatedSize(c, s), maxCount, maxSize, (x, s) => false)
  }

  function CollectorConfig(c: Codec, maxCount: int, maxSize: int, threshold: int): Config<Batch<Buffered>> {
    Config((b: Batch<Buffered>) => BatchDeadline(b), (s: seq<Batch<Buffered>>) => TotalSize(c, s), maxCount, maxSize,
           (b: Batch<Buffered>, s: seq<Batch<Buffered>>) => Share(c, s, b.shard) >= threshold)
  }

  lemma AggregatorMonotone(c: Codec, maxCount: int, maxSize: int)
    ensures Monotone(AggregatorConfig(c, maxCount, maxSize))
  {
    forall s: seq<Buffered>, x: Buffered
      ensures EstimatedSize(c, s) <= EstimatedSize(c, s + [x])
    {
      SizeSnoc(c, s, x);
    }
  }

  lemma CollectorMonotone(c: Codec, maxCount: int, maxSize: int, threshold: int)
    ensures Monotone(CollectorConfig(c, maxCount, maxSize, threshold))
  {
    forall s: seq<Batch<Buffered>>, x: Batch<Buffered>
      ensures TotalSize(c, s) <= TotalSize(c, s + [x])
    {
      assert Front(s + [x]) == s;
    }
  }
}
