/** The collector of aiokpl/collector.py: the per-shard short circuit bounds
    every shard's share of a request. */
module Collector {
  import opened Common
  import opened Sorting
  import opened Aggregation
  import opened Records
  import opened ReducerSpec
  import opened ReducerRuns
  import opened Batches

  lemma {:induction false} ShareConcat(c: Codec, a: seq<Batch<Buffered>>, b: seq<Batch<Buffered>>, shard: Option<int>)
    ensures Share(c, a + b, shard) == Share(c, a, shard) + Share(c, b, shard)
  {
    hide BatchSize;
    if b == [] {
      assert a + b == a;
    } else {
      assert Front(a + b) == a + Front(b) && Last(a + b) == Last(b);
      ShareConcat(c, a, Front(b), shard);
    }
  }

  ghost predicate SharesBelow(c: Codec, bs: seq<Batch<Buffered>>, bound: int) {
    forall s :: Share(c, bs, s) < bound
  }

  ghost predicate ItemsBelow(c: Codec, bs: seq<Batch<Buffered>>, bound: int) {
    forall i :: 0 <= i < |bs| ==> BatchSize(c, bs[i]) < bound
  }

  lemma OneItemShare(c: Codec, bs: seq<Batch<Buffered>>, bound: int)
    requires |bs| <= 1 && ItemsBelow(c, bs, bound) && bound > 0
    ensures SharesBelow(c, bs, bound)
  {
    if |bs| == 1 {
      forall s
        ensures Share(c, bs, s) < bound
      {
        ShareSnoc(c, [], bs[0], s);
        assert [] + [bs[0]] == bs;
      }
    }
  }

  lemma SplitShares(c: Codec, a: seq<Batch<Buffered>>, b: seq<Batch<Buffered>>, bound: int)
    requires SharesBelow(c, a + b, bound)
    ensures SharesBelow(c, a, bound)
  {
    forall s
      ensures Share(c, a, s) < bound
    {
      ShareConcat(c, a, b, s);
      assert Share(c, a + b, s) < bound;
    }
  }

  lemma GrownShares(c: Codec, bs: seq<Batch<Buffered>>, x: Batch<Buffered>, t: int)
    requires SharesBelow(c, bs, t) && BatchSize(c, x) < t
    ensures SharesBelow(c, bs + [x], 2 * t)
    ensures Share(c, bs + [x], x.shard) < t ==> SharesBelow(c, bs + [x], t)
  {
    forall s
      ensures Share(c, bs + [x], s) == Share(c, bs, s) + if x.shard == s then BatchSize(c, x) else 0
    {
      ShareSnoc(c, bs, x, s);
    }
  }

  /** An add: either the predicate held back the shard's share, or the request
      was closed and at most the new item is left. */
  lemma AddShares(c: Codec, cfg: Config<Batch<Buffered>>, t: int, maxCount: int, maxSize: int,
                  st: State<Batch<Buffered>>, item: Batch<Buffered>, now: real)
    requires cfg == CollectorConfig(c, maxCount, maxSize, t) && Monotone(cfg) && t > 0
    requires Small(cfg, st.active) && SharesBelow(c, st.active, t)
    requires Sorted(ByDeadline(cfg), st.active + [item]) && BatchSize(c, item) < t
    ensures var (st', closed) := Add(cfg, st, item, now);
            && SharesBelow(c, st'.active, t)
            && (closed.Some? ==> SharesBelow(c, closed.value, 2 * t))
  {
    hide PackAndSplit, LimitsHit, MinDeadline, Monotone, SharesBelow, BatchSize, Share, Small, Sorted;
    var (st', closed) := Add(cfg, st, item, now);
    var grown := st.active + [item];
    GrownShares(c, st.active, item, t);
    assert Front(grown) == st.active;
    if closed.Some? {
      PackInOrder(cfg, st.(active := grown), now);
      SplitShares(c, closed.value, st'.active, 2 * t);
      LastPart(closed.value, st'.active, st.active, item);
      OneItemShare(c, st'.active, t);
    }
  }

  lemma LastPart<T>(a: seq<T>, b: seq<T>, s: seq<T>, x: T)
    requires a + b == s + [x] && |b| <= 1
    ensures b == [] || b == [x]
  {
    assert b != [] ==> b[0] == (a + b)[|a|];
  }

  lemma StepShares(c: Codec, cfg: Config<Batch<Buffered>>, t: int, maxCount: int, maxSize: int,
                   st: State<Batch<Buffered>>, e: Event<Batch<Buffered>>)
    requires cfg == CollectorConfig(c, maxCount, maxSize, t) && Monotone(cfg) && t > 0
    requires Small(cfg, st.active) && SharesBelow(c, st.active, t)
    requires Sorted(ByDeadline(cfg), st.active + if e.Adding? then [e.item] else [])
    requires e.Adding? ==> BatchSize(c, e.item) < t
    ensures var (st', closed) := Step(cfg, st, e);
            && SharesBelow(c, st'.active, t)
            && (closed.Some? ==> SharesBelow(c, closed.value, 2 * t))
  {
    if e.Adding? {
      hide Add, CollectorConfig, Monotone, SharesBelow, BatchSize, Small, Sorted;
      AddShares(c, cfg, t, maxCount, maxSize, st, e.item, e.now);
    } else {
      hide Step, CollectorConfig, Monotone, SharesBelow, BatchSize, Small, Sorted;
      var (st', closed) := Step(cfg, st, e);
      StepInOrder(cfg, st, e);
      WiderBound(c, st.active, t);
      NothingShared(c, t);
      assert st.active + [] == st.active;
      if closed.Some? {
        assert closed.value + [] == closed.value;
      } else {
        assert [] + st'.active == st'.active;
      }
    }
  }

  lemma WiderBound(c: Codec, bs: seq<Batch<Buffered>>, t: int)
    requires SharesBelow(c, bs, t) && t > 0
    ensures SharesBelow(c, bs, 2 * t)
  {
    assert forall s :: Share(c, bs, s) < t;
  }

  lemma NothingShared(c: Codec, t: int)
    requires t > 0
    ensures SharesBelow(c, [], t)
  {
  }

  /** With every batch below the threshold T and arrivals in deadline order,
      over every run no open request holds T bytes of one shard, and no
      dispatched request holds 2T. */
  lemma {:induction false} ShareBound(c: Codec, maxCount: int, maxSize: int, t: int, es: seq<Event<Batch<Buffered>>>)
    requires t > 0
    requires Sorted(ByDeadline(CollectorConfig(c, maxCount, maxSize, t)), Added(es))
    requires ItemsBelow(c, Added(es), t)
    ensures var (st, out) := Run(CollectorConfig(c, maxCount, maxSize, t), es);
            && SharesBelow(c, st.active, t)
            && (forall i :: 0 <= i < |out| ==> SharesBelow(c, out[i], 2 * t))
  {
    hide Step, SharesBelow, Small, CollectorConfig, Flush, BatchSize;
    var cfg := CollectorConfig(c, maxCount, maxSize, t);
    if es == [] {
      NothingShared(c, t);
    } else {
      var (st, out) := Run(cfg, Front(es));
      var tail := if Last(es).Adding? then [Last(es).item] else [];
      assert Added(es) == Added(Front(es)) + tail;
      CollectorMonotone(c, maxCount, maxSize, t);
      PrefixSorted(ByDeadline(cfg), Added(Front(es)), tail);
      ItemsSplit(c, Added(Front(es)), tail, t);
      ShareBound(c, maxCount, maxSize, t, Front(es));
      InOrderRuns(cfg, Front(es), 0.0);
      Assoc(Concat(out), st.active, tail);
      SortedSuffix(ByDeadline(cfg), Concat(out), st.active + tail);
      StepShares(c, cfg, t, maxCount, maxSize, st, Last(es));
    }
  }

  lemma PrefixSorted<T>(leq: (T, T) -> bool, a: seq<T>, b: seq<T>)
    requires Sorted(leq, a + b)
    ensures Sorted(leq, a)
  {
    assert forall i :: 0 <= i < |a| ==> a[i] == (a + b)[i];
  }

  lemma ItemsSplit(c: Codec, a: seq<Batch<Buffered>>, b: seq<Batch<Buffered>>, t: int)
    requires ItemsBelow(c, a + b, t)
    ensures ItemsBelow(c, a, t) && (b != [] ==> BatchSize(c, b[0]) < t)
  {
    assert forall i :: 0 <= i < |a| ==> a[i] == (a + b)[i];
    assert b != [] ==> b[0] == (a + b)[|a|];
  }
}
