/** Sizes and limits in terms of what is sent: the length of the encoded data,
    the configured limits and the deadlines of the records. */
module ByteRuns {
  import opened Common
  import opened Sums
  import opened Aggregation
  import opened Records
  import opened Batches
  import opened SizeBound
  import opened Flushing
  import opened Pipeline
  import opened Routing
  import R = ReducerSpec
  import Runs = ReducerRuns
  import C = Conservation
  import L = Limiter
  import RR = RoutingRuns
  import RT = RateRuns

  // ---- The size of a batch ----

  /** The size of a batch is 8 bytes and its data for every record, and 3 bytes
      and its text for every distinct partition key and explicit hash key. */
  lemma BatchSizeIs(c: Codec, b: Batch<Buffered>) returns (pks: seq<string>, ehks: seq<string>)
    ensures Distinct(pks)
    ensures forall k :: k in pks <==> exists r :: r in b.items && r.userRecord.partitionKey == k
    ensures Distinct(ehks)
    ensures forall k :: k in ehks <==> exists r :: r in b.items && r.userRecord.explicitHashKey == Some(k)
    ensures BatchSize(c, b) == Sum((r: Buffered) => 8 + |r.userRecord.data|, b.items)
                               + Sum((k: string) => |c.utf8(k)| + 3, pks) + Sum((k: string) => |c.utf8(k)| + 3, ehks)
  {
    hide EstimatedSize, TablesOf, KeyCosts, DataCosts, Sum, Distinct;
    var t := TablesOf(UserRecords(b.items));
    pks, ehks := t.pks, t.ehks;
    EstimateIsSum(c, b.items);
    DataCostsAreSums(b.items);
    KeyCostsAre(c, pks);
    KeyCostsAre(c, ehks);
    TablesAreDistinct(UserRecords(b.items));
    SetsAreTables(b.items);
    KeysOf(b.items);
  }

  lemma KeysOf(items: seq<Buffered>)
    ensures forall k :: k in PartitionKeys(items) <==> exists r :: r in items && r.userRecord.partitionKey == k
    ensures forall k :: k in ExplicitHashKeys(items) <==>
              exists r :: r in items && r.userRecord.explicitHashKey == Some(k)
  {
  }

  lemma {:induction false} KeyCostsAre(c: Codec, keys: seq<string>)
    ensures KeyCosts(c, keys) == Sum((k: string) => |c.utf8(k)| + 3, keys)
  {
    if keys != [] {
      KeyCostsAre(c, Front(keys));
    }
  }

  /** The size of a request, and the share of a shard in it, are sums over its
      batches. */
  lemma {:induction false} RequestSizeIs(c: Codec, bs: seq<Batch<Buffered>>, shard: Option<int>)
    ensures TotalSize(c, bs) == Sum((b: Batch<Buffered>) => BatchSize(c, b), bs)
    ensures Share(c, bs, shard) == Sum((b: Batch<Buffered>) => if b.shard == shard then BatchSize(c, b) else 0, bs)
  {
    hide BatchSize;
    if bs != [] {
      RequestSizeIs(c, Front(bs), shard);
    }
  }

  lemma {:induction false} EarliestIs(items: seq<Buffered>)
    requires items != []
    ensures forall r :: r in items ==> Earliest(items) <= r.deadline
    ensures exists r :: r in items && Earliest(items) == r.deadline
  {
    assert items == Front(items) + [Last(items)];
    if |items| > 1 {
      EarliestIs(Front(items));
      assert Last(items) in items;
    } else {
      assert items[0] in items;
    }
  }

  /** The deadline of a batch is the earliest of its records'. */
  lemma BatchDeadlineIs(b: Batch<Buffered>)
    requires b.items != []
    ensures (forall r :: r in b.items ==> BatchDeadline(b) <= r.deadline)
    ensures exists r :: r in b.items && BatchDeadline(b) == r.deadline
  {
    EarliestIs(b.items);
  }

  // ---- When a batch closes, in the configuration's terms ----

  /** A record closes the batch of its reducer exactly if records are not to be
      aggregated, or the batch then holds as many as it may, or has reached its
      size limit. */
  lemma RecordClosesIff(cfg: Config, parcel: Place, stage: Place, at: real)
    requires parcel.Predicted? && stage.Buffering?
    ensures var grown := stage.buffer.active + [parcel.record];
            HandTo(cfg, parcel, stage, at).value.more != [] <==>
              || !cfg.aggregationEnabled
              || |grown| >= cfg.aggregationMaxCount
              || EstimatedSize(cfg.codec, grown) >= cfg.aggregationMaxSize
  {
    hide R.Add, EstimatedSize;
    R.ClosesIff(AggregatorOf(cfg), stage.buffer, parcel.record, 0, at);
  }

  /** A batch closes the request exactly if then the request holds as many batches
      as it may, has reached its size limit, or holds so much for the batch's
      shard. */
  lemma BatchClosesIff(cfg: Config, parcel: Place, stage: Place, at: real)
    requires parcel.Admitted? && stage.Collecting?
    ensures var grown := stage.open.active + [parcel.batch];
            HandTo(cfg, parcel, stage, at).value.more != [] <==>
              || |grown| >= cfg.collectionMaxCount
              || TotalSize(cfg.codec, grown) >= cfg.collectionMaxSize
              || Share(cfg.codec, grown, parcel.batch.shard) >= cfg.shareThreshold
  {
    hide R.Add, TotalSize, Share;
    R.ClosesIff(CollectorOf(cfg), stage.open, parcel.batch, 0, at);
  }

  // ---- Bytes sent ----

  /** The length of a batch's data on the wire. */
  function SentLength(c: Codec, b: Batch<Buffered>): nat {
    match Encode(c, UserRecords(b.items))
    case Ok(data) => |data|
    case Err => 0
  }

  /** No record has tags, and the estimate is at most 1 MiB. */
  ghost predicate Modest(c: Codec, b: Batch<Buffered>) {
    && (forall i :: 0 <= i < |b.items| ==> b.items[i].userRecord.tags == [])
    && EstimatedSize(c, b.items) <= 0x10_0000
  }

  lemma SingleBound(c: Codec, x: Buffered)
    ensures |x.userRecord.data| <= EstimatedSize(c, [x])
  {
    assert [] + [x] == [x];
    SizeSnoc(c, [], x);
  }

  /** The data of a batch is at most twice its estimate and 20 bytes. */
  lemma SentBound(c: Codec, b: Batch<Buffered>)
    requires Lawful(c) && Modest(c, b)
    ensures SentLength(c, b) <= 2 * EstimatedSize(c, b.items) + 20
  {
    hide EstimatedSize;
    if |b.items| >= 2 {
      hide Lawful, Encode;
      EstimateBound(c, b.items);
    } else {
      hide Lawful, Frame, FieldsOfBatch;
      if |b.items| == 1 {
        assert b.items == [b.items[0]];
        SingleBound(c, b.items[0]);
      }
    }
  }

  /** The length of the data of the admissions from the `i`-th on. */
  function SentFrom(c: Codec, out: seq<L.Admission<Batch<Buffered>>>, i: nat): nat {
    if i >= |out| then 0 else SentFrom(c, Front(out), i) + SentLength(c, Last(out).batch)
  }

  lemma {:induction false} SentFromBound(cfg: Config, out: seq<L.Admission<Batch<Buffered>>>, i: nat)
    requires Lawful(cfg.codec) && i <= |out|
    requires forall k :: i <= k < |out| ==> Modest(cfg.codec, out[k].batch)
    ensures SentFrom(cfg.codec, out, i) <= 2 * L.BytesFrom(LimiterOf(cfg), out, i) + 20 * (|out| - i)
  {
    hide SentLength, Modest, EstimatedSize, Lawful;
    if i < |out| {
      assert forall k :: 0 <= k < |Front(out)| ==> Front(out)[k] == out[k];
      SentFromBound(cfg, Front(out), i);
      SentBound(cfg.codec, out[|out| - 1].batch);
    }
  }

  lemma Doubled(sent: nat, bytes: nat, n: nat, rps: real, bps: real, w: real)
    requires sent <= 2 * bytes + 20 * n
    requires bytes as real <= bps * (1.0 + w) && n as real <= rps * (1.0 + w)
    ensures sent as real <= 2.0 * (bps * (1.0 + w)) + 20.0 * (rps * (1.0 + w))
  {
    assert sent as real <= (2 * bytes + 20 * n) as real;
    assert (2 * bytes + 20 * n) as real == 2.0 * bytes as real + 20.0 * n as real;
  }

  /** In bytes sent: in every run of the pipeline and every window of length `w`,
      the data of the batches admitted at a limiter, if none has tags or more than
      1 MiB, is at most 2 bps (1 + w) + 20 rps (1 + w) long. */
  lemma ShardsKeepTheirByteRate(cfg: Config, start: real, steps: seq<Step>, k: nat, i: nat, j: nat, w: real)
    requires Lawful(cfg.codec) && RT.Timely(steps) && cfg.rps >= 0.0 && cfg.bps >= 0.0
    requires var st := Run(cfg, Initial(cfg, start), steps);
             && k < |st.places| && st.places[k].Queueing?
             && (var paid := RT.Paid(cfg, st.places[k]);
                 && i < j <= |paid|
                 && paid[j - 1].recordAt - paid[i].recordAt <= w && paid[j - 1].byteAt - paid[i].byteAt <= w
                 && forall a :: i <= a < j ==> Modest(cfg.codec, paid[a].batch))
    ensures var paid := RT.Paid(cfg, Run(cfg, Initial(cfg, start), steps).places[k]);
            SentFrom(cfg.codec, paid[..j], i) as real
            <= 2.0 * (cfg.bps * (1.0 + w)) + 20.0 * (cfg.rps * (1.0 + w))
  {
    hide Run, Lawful, RT.Timely, RT.Paid, Modest, SentFrom, L.BytesFrom, LimiterOf;
    var out := RT.Paid(cfg, Run(cfg, Initial(cfg, start), steps).places[k])[..j];
    RT.ShardsKeepTheirRate(cfg, start, steps, k, i, j, w);
    SentFromBound(cfg, out, i);
    Doubled(SentFrom(cfg.codec, out, i), L.BytesFrom(LimiterOf(cfg), out, i), j - i, cfg.rps, cfg.bps, w);
  }

  function SentTotal(c: Codec, bs: seq<Batch<Buffered>>): nat {
    if bs == [] then 0 else SentTotal(c, Front(bs)) + SentLength(c, Last(bs))
  }

  lemma {:induction false} SentTotalBound(c: Codec, bs: seq<Batch<Buffered>>)
    requires Lawful(c) && forall i :: 0 <= i < |bs| ==> Modest(c, bs[i])
    ensures SentTotal(c, bs) <= 2 * TotalSize(c, bs) + 20 * |bs|
  {
    hide SentLength, Modest, EstimatedSize, Lawful;
    if bs != [] {
      assert forall i :: 0 <= i < |Front(bs)| ==> Front(bs)[i] == bs[i];
      SentTotalBound(c, Front(bs));
      SentBound(c, bs[|bs| - 1]);
    }
  }

  /** In every run, the data of a request of two or more batches, none with tags or
      more than 1 MiB, is at most twice collection_max_size and 20 bytes a batch
      long, and it holds at most collection_max_count batches. */
  lemma RequestsKeepTheirBytes(cfg: Config, start: real, steps: seq<Step>, i: nat)
    requires Lawful(cfg.codec)
    requires var st := Run(cfg, Initial(cfg, start), steps);
             && i < |st.places| && st.places[i].Sending? && |st.places[i].batches| >= 2
             && forall k :: 0 <= k < |st.places[i].batches| ==> Modest(cfg.codec, st.places[i].batches[k])
    ensures var bs := Run(cfg, Initial(cfg, start), steps).places[i].batches;
            SentTotal(cfg.codec, bs) <= 2 * cfg.collectionMaxSize + 20 * |bs| && |bs| <= cfg.collectionMaxCount
  {
    hide Run, Lawful, Modest, SentTotal, GoodBatch, TotalSize;
    RR.RunIsGood(cfg, None, 0.0, start, steps);
    var st := Run(cfg, Initial(cfg, start), steps);
    assert GoodPlace(cfg, RR.WorldOf(None, 0.0, st), st.now, st.places[i]);
    SentTotalBound(cfg.codec, st.places[i].batches);
  }

  /** In every run, a batch of two or more records that is sent is at most twice
      aggregation_max_size and 20 bytes long, if it has no tags and that is at most
      1 MiB, and it holds at most aggregation_max_count records. */
  lemma BatchesKeepTheirBytes(cfg: Config, start: real, steps: seq<Step>, i: nat, k: nat)
    requires Lawful(cfg.codec) && cfg.aggregationMaxSize <= 0x10_0000
    requires var st := Run(cfg, Initial(cfg, start), steps);
             && i < |st.places| && st.places[i].Sending? && k < |st.places[i].batches|
             && |st.places[i].batches[k].items| >= 2
             && forall r :: r in st.places[i].batches[k].items ==> r.userRecord.tags == []
    ensures var b := Run(cfg, Initial(cfg, start), steps).places[i].batches[k];
            && SentLength(cfg.codec, b) <= 2 * cfg.aggregationMaxSize + 20
            && cfg.aggregationEnabled && |b.items| <= cfg.aggregationMaxCount
  {
    hide Run, Lawful, SentLength, Routable, EstimatedSize;
    RR.RunIsGood(cfg, None, 0.0, start, steps);
    var st := Run(cfg, Initial(cfg, start), steps);
    var b := st.places[i].batches[k];
    assert GoodPlace(cfg, RR.WorldOf(None, 0.0, st), st.now, st.places[i]);
    assert b in st.places[i].batches;
    assert Modest(cfg.codec, b);
    SentBound(cfg.codec, b);
  }

  // ---- When records are due ----

  /** The records that leave a reducer are due no later than those that stay. */
  lemma EarliestRecordsGo(cfg: Config, p: Place, e: Runs.Event<Buffered>)
    requires p.Buffering?
    ensures var (b, closed) := Runs.Step(AggregatorOf(cfg), p.buffer, e);
            closed.Some? ==> forall x, y :: x in closed.value && y in b.active ==> x.deadline <= y.deadline
  {
    hide Runs.Step, R.Monotone, EstimatedSize;
    C.Monotonicity(cfg);
    Runs.EarliestGoFirst(AggregatorOf(cfg), p.buffer, e);
    var (b, closed) := Runs.Step(AggregatorOf(cfg), p.buffer, e);
    var d := AggregatorOf(cfg).deadline;
    assert closed.Some? ==> forall x, y :: x in closed.value && y in b.active ==> d(x) <= d(y);
  }

  /** And so are the batches of a request, each due when the first of its records is. */
  lemma EarliestBatchesGo(cfg: Config, p: Place, e: Runs.Event<Batch<Buffered>>)
    requires p.Collecting?
    ensures var (b, closed) := Runs.Step(CollectorOf(cfg), p.open, e);
            closed.Some? ==> forall x, y :: x in closed.value && y in b.active ==> BatchDeadline(x) <= BatchDeadline(y)
  {
    hide Runs.Step, R.Monotone, TotalSize, Share, BatchDeadline;
    C.Monotonicity(cfg);
    Runs.EarliestGoFirst(CollectorOf(cfg), p.open, e);
    var (b, closed) := Runs.Step(CollectorOf(cfg), p.open, e);
    var d := CollectorOf(cfg).deadline;
    assert closed.Some? ==> forall x, y :: x in closed.value && y in b.active ==> d(x) <= d(y);
  }

  /** In every run, whatever a reducer of records holds is due no later than the
      buffering time after its arrival, for a new record, and its timer is set no
      later than that. */
  lemma NewRecordsAreDue(cfg: Config, start: real, steps: seq<Step>, i: nat, r: Buffered)
    requires Lawful(cfg.codec)
    requires var st := Run(cfg, Initial(cfg, start), steps);
             i < |st.places| && st.places[i].Buffering? && r in st.places[i].buffer.active && r.attempts == []
    ensures var timer := Run(cfg, Initial(cfg, start), steps).places[i].buffer.timer;
            && r.deadline == r.arrivalTime + cfg.bufferedTime
            && timer.Some? && timer.value.target <= r.arrivalTime + cfg.bufferedTime
  {
    hide Run, Lawful;
    RR.RunIsGood(cfg, None, 0.0, start, steps);
    var st := Run(cfg, Initial(cfg, start), steps);
    assert GoodPlace(cfg, RR.WorldOf(None, 0.0, st), st.now, st.places[i]);
    assert Routable(cfg, RR.WorldOf(None, 0.0, st), st.now, st.places[i].stream, st.places[i].shard, r);
  }
}
