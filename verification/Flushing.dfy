/** When one flush is enough, for the two containers of the pipeline. */
module Flushing {
  import opened Common
  import opened Sorting
  import opened Sums
  import opened Aggregation
  import opened Records
  import opened ReducerSpec
  import opened ReducerRuns
  import opened Batches
  import opened SizeBound

  // ---- Sizes do not depend on the order ----

  lemma {:induction false} KeyCostsAreSums(c: Codec, keys: seq<string>)
    ensures KeyCosts(c, keys) == Sum((k: string) => KeyCost(c, k), keys)
  {
    hide KeyCost;
    if keys != [] {
      KeyCostsAreSums(c, Front(keys));
    }
  }

  lemma {:induction false} DataCostsAreSums(items: seq<Buffered>)
    ensures DataCosts(UserRecords(items)) == Sum((b: Buffered) => 8 + |b.userRecord.data|, items)
  {
    if items != [] {
      DataCostsAreSums(Front(items));
      assert Front(UserRecords(items)) == UserRecords(Front(items));
    }
  }

  lemma {:induction false} TotalSizesAreSums(c: Codec, bs: seq<Batch<Buffered>>)
    ensures TotalSize(c, bs) == Sum((b: Batch<Buffered>) => BatchSize(c, b), bs)
  {
    hide BatchSize;
    if bs != [] {
      TotalSizesAreSums(c, Front(bs));
    }
  }

  lemma {:induction false} TablesAreDistinct(rs: seq<UserRecord>)
    ensures Distinct(TablesOf(rs).pks) && Distinct(TablesOf(rs).ehks)
  {
    if rs != [] {
      TablesAreDistinct(Front(rs));
    }
  }

  lemma KeysPermuted(a: seq<Buffered>, b: seq<Buffered>)
    requires multiset(a) == multiset(b)
    ensures PartitionKeys(a) <= PartitionKeys(b) && ExplicitHashKeys(a) <= ExplicitHashKeys(b)
  {
    forall i | 0 <= i < |a|
      ensures exists j :: 0 <= j < |b| && b[j] == a[i]
    {
      assert a[i] in multiset(b);
    }
  }

  lemma TablesPermuted(a: seq<Buffered>, b: seq<Buffered>)
    requires multiset(a) == multiset(b)
    ensures var t, u := TablesOf(UserRecords(a)), TablesOf(UserRecords(b));
            multiset(t.pks) == multiset(u.pks) && multiset(t.ehks) == multiset(u.ehks)
  {
    hide TablesOf, PartitionKeys, ExplicitHashKeys, Distinct;
    KeysPermuted(a, b);
    KeysPermuted(b, a);
    SetsAreTables(a);
    SetsAreTables(b);
    var t, u := TablesOf(UserRecords(a)), TablesOf(UserRecords(b));
    TablesAreDistinct(UserRecords(a));
    TablesAreDistinct(UserRecords(b));
    assert PartitionKeys(a) == PartitionKeys(b) && ExplicitHashKeys(a) == ExplicitHashKeys(b);
    forall k
      ensures (k in t.pks <==> k in u.pks) && (k in t.ehks <==> k in u.ehks)
    {
      assert k in t.pks <==> k in PartitionKeys(a);
      assert k in t.ehks <==> k in ExplicitHashKeys(a);
    }
    SameMembers(t.pks, u.pks);
    SameMembers(t.ehks, u.ehks);
  }

  lemma EstimatePermuted(c: Codec, a: seq<Buffered>, b: seq<Buffered>)
    requires multiset(a) == multiset(b)
    ensures EstimatedSize(c, a) == EstimatedSize(c, b)
  {
    hide EstimatedSize, TablesOf, KeyCosts, DataCosts, Sum, KeyCost;
    EstimateIsSum(c, a);
    EstimateIsSum(c, b);
    TablesPermuted(a, b);
    var t, u := TablesOf(UserRecords(a)), TablesOf(UserRecords(b));
    KeyCostsSame(c, t.pks, u.pks);
    KeyCostsSame(c, t.ehks, u.ehks);
    DataCostsSame(a, b);
  }

  lemma KeyCostsSame(c: Codec, a: seq<string>, b: seq<string>)
    requires multiset(a) == multiset(b)
    ensures KeyCosts(c, a) == KeyCosts(c, b)
  {
    hide KeyCosts, Sum, KeyCost;
    var cost := (k: string) => KeyCost(c, k);
    KeyCostsAreSums(c, a);
    KeyCostsAreSums(c, b);
    SumPermuted(cost, a, b);
  }

  lemma DataCostsSame(a: seq<Buffered>, b: seq<Buffered>)
    requires multiset(a) == multiset(b)
    ensures DataCosts(UserRecords(a)) == DataCosts(UserRecords(b))
  {
    hide DataCosts, Sum;
    DataCostsAreSums(a);
    DataCostsAreSums(b);
    SumPermuted((x: Buffered) => 8 + |x.userRecord.data|, a, b);
  }

  lemma TotalSizeSame(c: Codec, a: seq<Batch<Buffered>>, b: seq<Batch<Buffered>>)
    requires multiset(a) == multiset(b)
    ensures TotalSize(c, a) == TotalSize(c, b)
  {
    hide TotalSize, Sum, BatchSize;
    TotalSizesAreSums(c, a);
    TotalSizesAreSums(c, b);
    SumPermuted((x: Batch<Buffered>) => BatchSize(c, x), a, b);
  }

  // ---- When one flush is enough ----

  /** One flush empties the buffer of a shard if and only if what `count` and
      `size` show of it is within the limits, or it is a single record. */
  lemma AggregatorFlushIff(c: Codec, maxCount: int, maxSize: int, st: State<Buffered>, now: real)
    ensures Flush(AggregatorConfig(c, maxCount, maxSize), st, now).0.active == []
       <==> |st.active| <= 1 || (|st.active| <= maxCount && EstimatedSize(c, st.active) <= maxSize)
  {
    hide Flush, EstimatedSize;
    var cfg := AggregatorConfig(c, maxCount, maxSize);
    AggregatorMonotone(c, maxCount, maxSize);
    forall a: seq<Buffered>, b: seq<Buffered> | multiset(a) == multiset(b)
      ensures cfg.size(a) == cfg.size(b)
    {
      EstimatePermuted(c, a, b);
    }
    OneFlushEmptiesIff(cfg, st, now);
  }

  /** The same for the request being collected. */
  lemma CollectorFlushIff(c: Codec, maxCount: int, maxSize: int, threshold: int, st: State<Batch<Buffered>>, now: real)
    ensures Flush(CollectorConfig(c, maxCount, maxSize, threshold), st, now).0.active == []
       <==> |st.active| <= 1 || (|st.active| <= maxCount && TotalSize(c, st.active) <= maxSize)
  {
    hide Flush, TotalSize, Share;
    var cfg := CollectorConfig(c, maxCount, maxSize, threshold);
    CollectorMonotone(c, maxCount, maxSize, threshold);
    forall a: seq<Batch<Buffered>>, b: seq<Batch<Buffered>> | multiset(a) == multiset(b)
      ensures cfg.size(a) == cfg.size(b)
    {
      TotalSizeSame(c, a, b);
    }
    OneFlushEmptiesIff(cfg, st, now);
  }

  // ---- A run after which one flush is not enough ----

  /** A record of `n` bytes under the key "k", due at `deadline`. */
  function Item(n: nat, deadline: real): Buffered {
    Buffered(n, UserRecord("k", seq(n, i => 0), None, []), deadline, 0, 0.0, [])
  }

  const EARLY := Item(1, 1.0)
  const MIDDLE := Item(10, 3.0)
  const LATE := Item(2, 5.0)

  /** Room for the key and 26 bytes. */
  function Tight(c: Codec): Config<Buffered> {
    AggregatorConfig(c, 10, KeyCost(c, "k") + 26)
  }

  function DataOf(items: seq<Buffered>): nat {
    if items == [] then 0 else DataOf(Front(items)) + 8 + |Last(items).userRecord.data|
  }

  lemma {:induction false} UnderOneKey(c: Codec, items: seq<Buffered>)
    requires forall i :: 0 <= i < |items| ==>
               items[i].userRecord.partitionKey == "k" && items[i].userRecord.explicitHashKey == None
    ensures EstimatedSize(c, items) == DataOf(items) + if items == [] then 0 else KeyCost(c, "k")
    ensures PartitionKeys(items) == if items == [] then {} else {"k"}
  {
    hide KeyCost;
    if items != [] {
      var f, x := Front(items), Last(items);
      UnderOneKey(c, f);
      assert items == f + [x];
      KeysSnoc(f, x);
    }
  }

  lemma ExampleSizes(c: Codec)
    ensures var key := KeyCost(c, "k");
            && EstimatedSize(c, [LATE]) == key + 10 && EstimatedSize(c, [EARLY]) == key + 9
            && EstimatedSize(c, [MIDDLE]) == key + 18 && EstimatedSize(c, [LATE, EARLY]) == key + 19
            && EstimatedSize(c, [EARLY, MIDDLE]) == key + 27 && EstimatedSize(c, [MIDDLE, LATE]) == key + 28
            && EstimatedSize(c, [LATE, EARLY, MIDDLE]) == key + 37
  {
    hide EstimatedSize, KeyCost;
    OneSize(c, LATE);
    OneSize(c, EARLY);
    OneSize(c, MIDDLE);
    TwoSizes(c, LATE, EARLY);
    TwoSizes(c, EARLY, MIDDLE);
    TwoSizes(c, MIDDLE, LATE);
    UnderOneKey(c, [LATE, EARLY, MIDDLE]);
    assert Front([LATE, EARLY, MIDDLE]) == [LATE, EARLY] && DataOf([LATE, EARLY]) == 19 by {
      DataOfTwo(LATE, EARLY);
    }
  }

  lemma DataOfTwo(x: Buffered, y: Buffered)
    ensures DataOf([x]) == 8 + |x.userRecord.data|
    ensures DataOf([x, y]) == 16 + |x.userRecord.data| + |y.userRecord.data|
  {
    assert Front([x]) == [] && Front([x, y]) == [x];
  }

  lemma OneSize(c: Codec, x: Buffered)
    requires x.userRecord.partitionKey == "k" && x.userRecord.explicitHashKey == None
    ensures EstimatedSize(c, [x]) == KeyCost(c, "k") + 8 + |x.userRecord.data|
  {
    UnderOneKey(c, [x]);
    DataOfTwo(x, x);
  }

  lemma TwoSizes(c: Codec, x: Buffered, y: Buffered)
    requires x.userRecord.partitionKey == y.userRecord.partitionKey == "k"
    requires x.userRecord.explicitHashKey == y.userRecord.explicitHashKey == None
    ensures EstimatedSize(c, [x, y]) == KeyCost(c, "k") + 16 + |x.userRecord.data| + |y.userRecord.data|
  {
    UnderOneKey(c, [x, y]);
    DataOfTwo(x, y);
  }

  lemma ExampleSort(c: Codec)
    ensures StableSort(ByDeadline(Tight(c)), [LATE, EARLY, MIDDLE]) == [EARLY, MIDDLE, LATE]
    ensures StableSort(ByDeadline(Tight(c)), [MIDDLE, LATE]) == [MIDDLE, LATE]
  {
    var leq, s := ByDeadline(Tight(c)), [LATE, EARLY, MIDDLE];
    ByKeyIsTotal(Tight(c).deadline);
    SortedIsFixed(leq, [MIDDLE, LATE]);
    assert Front(s) == [LATE, EARLY] && Front([LATE, EARLY]) == [LATE] && Front([LATE]) == [];
    assert StableSort(leq, [LATE]) == [LATE];
    assert InsertRight(leq, [], EARLY) == [EARLY] && InsertRight(leq, [LATE], EARLY) == [EARLY, LATE];
    assert StableSort(leq, [LATE, EARLY]) == [EARLY, LATE];
    assert Front([EARLY, LATE]) == [EARLY] && InsertRight(leq, [EARLY], MIDDLE) == [EARLY, MIDDLE];
    assert InsertRight(leq, [EARLY, LATE], MIDDLE) == [EARLY, MIDDLE, LATE];
  }

  lemma ExamplePack(c: Codec)
    ensures PackFrom(Tight(c), [EARLY, MIDDLE, LATE], 0) == 1
    ensures PackFrom(Tight(c), [MIDDLE, LATE], 0) == 1
  {
    hide EstimatedSize;
    var cfg, s, t := Tight(c), [EARLY, MIDDLE, LATE], [MIDDLE, LATE];
    ExampleSizes(c);
    assert s[..1] == [EARLY] && s[..2] == [EARLY, MIDDLE] && t[..1] == [MIDDLE] && t[..2] == t;
    assert PackFrom(cfg, s, 1) == 1 && PackFrom(cfg, t, 1) == 1;
  }

  lemma FirstTwoStay(c: Codec)
    ensures var (st, closed) := Add(Tight(c), Initial(), LATE, 0.0); st.active == [LATE] && closed == None
    ensures forall st: State<Buffered> :: st.active == [LATE] ==>
              var (st', closed) := Add(Tight(c), st, EARLY, 0.0); st'.active == [LATE, EARLY] && closed == None
  {
    hide StableSort, EstimatedSize, PackFrom, MinDeadline;
    ExampleSizes(c);
    assert [] + [LATE] == [LATE] && [LATE] + [EARLY] == [LATE, EARLY];
  }

  lemma ThirdCloses(c: Codec, st: State<Buffered>)
    requires st.active == [LATE, EARLY]
    ensures var (st', closed) := Add(Tight(c), st, MIDDLE, 0.0); st'.active == [MIDDLE, LATE] && closed == Some([EARLY])
  {
    hide StableSort, EstimatedSize, PackFrom, MinDeadline;
    ExampleSizes(c);
    ExampleSort(c);
    ExamplePack(c);
    assert [LATE, EARLY] + [MIDDLE] == [LATE, EARLY, MIDDLE];
    assert [EARLY, MIDDLE, LATE][1..] == [MIDDLE, LATE] && [EARLY, MIDDLE, LATE][..1] == [EARLY];
  }

  lemma FlushLeavesLast(c: Codec, st: State<Buffered>)
    requires st.active == [MIDDLE, LATE]
    ensures Flush(Tight(c), st, 0.0).0.active == [LATE] && Exceeds(Tight(c), st.active)
  {
    hide StableSort, EstimatedSize, PackFrom, MinDeadline;
    ExampleSizes(c);
    ExampleSort(c);
    ExamplePack(c);
    assert [MIDDLE, LATE][1..] == [LATE];
  }

  /** Out of deadline order one flush of a shard's reducer may leave records
      behind: a large record in the middle of the order cuts the first batch
      short, and the buffer it leaves is over the limit. */
  lemma OneFlushMayLeaveItems(c: Codec)
    ensures var (st, out) := Run(Tight(c), [Adding(LATE, 0.0), Adding(EARLY, 0.0), Adding(MIDDLE, 0.0)]);
            && out == [[EARLY]]
            && st.active == [MIDDLE, LATE] && Exceeds(Tight(c), st.active)
            && Flush(Tight(c), st, 0.0).0.active == [LATE]
  {
    hide Add, Flush, Exceeds;
    var cfg := Tight(c);
    var e1, e2, e3 := Adding(LATE, 0.0), Adding(EARLY, 0.0), Adding(MIDDLE, 0.0);
    FirstTwoStay(c);
    assert Front([e1]) == [] && Front([e1, e2]) == [e1] && Front([e1, e2, e3]) == [e1, e2];
    assert Run(cfg, [e1]).0.active == [LATE] && Run(cfg, [e1]).1 == [];
    assert Run(cfg, [e1, e2]).0.active == [LATE, EARLY] && Run(cfg, [e1, e2]).1 == [];
    ThirdCloses(c, Run(cfg, [e1, e2]).0);
    FlushLeavesLast(c, Run(cfg, [e1, e2, e3]).0);
  }
}
