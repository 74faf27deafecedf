/** Runs of the pipeline that show where the code does not do what its
    documentation or a reader expects, and the conditions for them. */
module Scenarios {
  import opened Common
  import opened Aggregation
  import opened Records
  import opened Hashing
  import opened Retrier
  import opened Batches
  import opened Pipeline
  import R = ReducerSpec
  import Runs = ReducerRuns
  import L = Limiter
  import M = ShardMap
  import S = Sorting
  import C = Conservation
  import T = Totals
  import PR = PipelineRuns
  import RR = RoutingRuns
  import Q = Routing

  // ---- Running step by step ----

  lemma DoRegister(cfg: Config, start: real, steps: seq<Step>, u: UserRecord, h: nat)
      returns (more: seq<Step>, st: State)
    requires Run(cfg, Initial(cfg, start), steps).ledger.starting > 0 && Valid(cfg, u, h)
    requires Started(cfg, Run(cfg, Initial(cfg, start), steps), STREAM)
    ensures st == Run(cfg, Initial(cfg, start), more)
    ensures var was := Run(cfg, Initial(cfg, start), steps);
            var r := Made(cfg, was.ledger.nextId, u, h, was.now);
            && st.places == was.places + [Registered(STREAM, r)] && st.now == was.now && st.maps == was.maps
            && st.ledger == Register(was.ledger, STREAM, r)
  {
    hide Run, HashKey, Started;
    more, st := PR.Extend(cfg, start, steps, Registering(STREAM, u, Run(cfg, Initial(cfg, start), steps).now));
  }

  lemma DoOpen(cfg: Config, start: real, steps: seq<Step>, key: Key) returns (more: seq<Step>, st: State)
    requires !HasStage(Run(cfg, Initial(cfg, start), steps).places, key)
    requires !(key.kind.CollectorKind? && key.shard.Some?)
    ensures st == Run(cfg, Initial(cfg, start), more)
    ensures var was := Run(cfg, Initial(cfg, start), steps);
            st == was.(places := was.places + [NewStage(cfg, key, was.now)])
  {
    hide Run, HasStage, NewStage;
    more, st := PR.Extend(cfg, start, steps, Opening(key, Run(cfg, Initial(cfg, start), steps).now));
  }

  lemma DoAct(cfg: Config, start: real, steps: seq<Step>, i: nat, act: Act, at: real, e: Effect)
      returns (more: seq<Step>, st: State)
    requires var was := Run(cfg, Initial(cfg, start), steps);
             && i < |was.places| && was.now <= at && EndOfAct(act, at) == at
             && ActAt(cfg, MapFor(cfg, was, StreamOf(was.places[i])), was.places[i], act, at) == Some(e)
    ensures st == Run(cfg, Initial(cfg, start), more)
    ensures var was := Run(cfg, Initial(cfg, start), steps);
            && st.places == was.places[i := e.place] + e.more && st.now == at && st.maps == was.maps
            && st.ledger == Settled(was.ledger, e.finished)
  {
    hide Run, ActAt, MapFor, Settled;
    more, st := PR.Extend(cfg, start, steps, Acting(i, act, at));
  }

  lemma DoHand(cfg: Config, start: real, steps: seq<Step>, j: nat, i: nat, e: Effect)
      returns (more: seq<Step>, st: State)
    requires var was := Run(cfg, Initial(cfg, start), steps);
             && i < |was.places| && j < |was.places|
             && Destination(was.places[j]).Some? && Destination(was.places[j]) == KeyOf(was.places[i])
             && HandTo(cfg, was.places[j], was.places[i], was.now) == Some(e)
    ensures st == Run(cfg, Initial(cfg, start), more)
    ensures var was := Run(cfg, Initial(cfg, start), steps);
            && st.places == was.places[j := Done][i := e.place] + e.more && st.now == was.now && st.maps == was.maps
            && st.ledger == Settled(was.ledger, e.finished)
  {
    hide Run, HandTo, Settled;
    more, st := PR.Extend(cfg, start, steps, Handing(j, i, Run(cfg, Initial(cfg, start), steps).now));
  }

  const STREAM := "stream"

  function Room(shard: Option<int>): Key {
    Key(ReducerKind, STREAM, shard)
  }

  function Gate(shard: Option<int>): Key {
    Key(LimiterKind, STREAM, shard)
  }

  const DESK := Key(CollectorKind, STREAM, None)

  // ---- A stream whose shard map is ready ----

  /** The shard map of a new pipeline once `list` is installed. */
  function ReadyMap(cfg: Config, list: seq<M.Shard>, start: real): M.State {
    M.Step(cfg.shardMap, M.Step(cfg.shardMap, M.Initial(cfg.shardMap, start), M.Starting), M.Installing(list, start))
  }

  /** What it predicts for the hash key `h`. */
  function Foretold(cfg: Config, list: seq<M.Shard>, h: nat, start: real): Option<int> {
    M.Predict(ReadyMap(cfg, list, start), h)
  }

  lemma ReadyMapIs(cfg: Config, list: seq<M.Shard>, start: real)
    ensures var m := ReadyMap(cfg, list, start);
            && m.status == M.Ready && m.updatedAt == Some(start) && m.fetched == list && m.loops == 0
            && m.snapshot.endings == M.SnapshotOf(list).endings && m.snapshot.ids == M.SnapshotOf(list).ids
            && m.snapshot.shards == M.MapOf(list) && m.closedAt == map[]
  {
    hide M.SnapshotOf, M.MapOf;
    var m := ReadyMap(cfg, list, start);
    assert m.snapshot.shards == M.MapOf(list) && m.closedAt == map[];
  }

  /** A listing without shards leaves every key unowned. */
  lemma EmptyListing(cfg: Config, h: nat, start: real)
    ensures Foretold(cfg, [], h, start) == None
  {
    hide M.SnapshotOf, ReadyMap;
    ReadyMapIs(cfg, [], start);
  }

  /** The pipeline of the stream is built: its map is started and becomes ready. */
  lemma Build(cfg: Config, list: seq<M.Shard>, start: real) returns (steps: seq<Step>, st: State)
    ensures st == Run(cfg, Initial(cfg, start), steps)
    ensures st == Initial(cfg, start).(maps := map[STREAM := ReadyMap(cfg, list, start)])
  {
    hide Run, M.Step;
    NoSteps(cfg, start);
    steps, st := PR.Extend(cfg, start, [], Mapping(STREAM, M.Starting));
    var m := M.Step(cfg.shardMap, M.Initial(cfg.shardMap, start), M.Starting);
    assert st.maps == map[STREAM := m];
    steps, st := PR.Extend(cfg, start, steps, Mapping(STREAM, M.Installing(list, start)));
    assert st.maps == map[STREAM := ReadyMap(cfg, list, start)];
  }

  // ---- Reducers that close what they are given ----

  lemma PacksAll<I(!new)>(cfg: R.Config<I>, st: R.State<I>, now: real)
    requires R.Monotone(cfg) && st.active != [] && S.Sorted(R.ByDeadline(cfg), st.active)
    requires |st.active| == 1 || !R.Exceeds(cfg, st.active)
    ensures var (st', closed) := R.PackAndSplit(cfg, st, now); closed == st.active && st'.active == []
  {
    hide S.StableSort, R.Monotone, R.Exceeds, R.PackFrom, R.Reschedule;
    var s := st.active;
    S.ByKeyIsTotal(cfg.deadline);
    S.SortedIsFixed(R.ByDeadline(cfg), s);
    assert s[..|s|] == s && s[|s|..] == [];
    Runs.PacksAtLeast(cfg, s, |s|);
  }

  lemma SortedPair<I(!new)>(cfg: R.Config<I>, x: I, y: I)
    requires cfg.deadline(x) <= cfg.deadline(y)
    ensures S.Sorted(R.ByDeadline(cfg), [x]) && S.Sorted(R.ByDeadline(cfg), [x, y])
  {
  }

  /** A batch closes with everything in it, at the last item or at the flush. */
  lemma ClosesWith<I(!new)>(cfg: R.Config<I>, st: R.State<I>, x: I, now: real)
    requires R.Monotone(cfg) && S.Sorted(R.ByDeadline(cfg), st.active + [x])
    requires st.active == [] || !R.Exceeds(cfg, st.active + [x])
    ensures var (st', closed) := R.Add(cfg, st, x, now);
            var (st'', late) := R.Flush(cfg, st', now);
            || (closed == Some(st.active + [x]) && st'.active == [] && late == None && st''.active == [])
            || (closed == None && st'.active == st.active + [x] && late == Some(st.active + [x]) && st''.active == [])
  {
    hide R.PackAndSplit, R.Monotone, R.Exceeds, R.Reschedule, S.Sorted;
    var grown := st.(active := st.active + [x]);
    PacksAll(cfg, grown, now);
    var st' := R.Add(cfg, st, x, now).0;
    if st'.active == st.active + [x] {
      PacksAll(cfg, st', now);
    }
  }

  // ---- Putting records ----

  /** The record a put at `start` makes. */
  function Made(cfg: Config, id: nat, u: UserRecord, h: nat, start: real): Buffered {
    Buffered(id, u, start + cfg.bufferedTime, h, start, [])
  }

  ghost predicate Valid(cfg: Config, u: UserRecord, h: nat) {
    u.partitionKey != "" && HashKey(cfg.codec, u.partitionKey, u.explicitHashKey) == Ok(h)
  }

  lemma Foresee(cfg: Config, list: seq<M.Shard>, st: State, r: Buffered, start: real, at: real)
    requires st.maps == map[STREAM := ReadyMap(cfg, list, start)]
    ensures Started(cfg, st, STREAM)
    ensures ActAt(cfg, MapFor(cfg, st, STREAM), Registered(STREAM, r), Predicting, at)
         == Some(Effect(Predicted(STREAM, Foretold(cfg, list, r.hashKey, start), r), [], None))
  {
    hide ReadyMap, M.Predict;
    ReadyMapIs(cfg, list, start);
  }

  lemma TwoPermits(cfg: Config, list: seq<M.Shard>, start: real) returns (steps: seq<Step>, st: State)
    requires cfg.maxOutstanding >= 2
    ensures st == Run(cfg, Initial(cfg, start), steps)
    ensures st.now == start && st.places == [] && st.maps == map[STREAM := ReadyMap(cfg, list, start)]
    ensures st.ledger.starting == 2 && st.ledger.nextId == 0
  {
    hide Run, ReadyMap;
    steps, st := Build(cfg, list, start);
    steps, st := PR.Extend(cfg, start, steps, Acquiring);
    steps, st := PR.Extend(cfg, start, steps, Acquiring);
  }

  lemma PutTwo(cfg: Config, list: seq<M.Shard>, a: UserRecord, ha: nat, b: UserRecord, hb: nat, start: real)
      returns (steps: seq<Step>, st: State)
    requires cfg.maxOutstanding >= 2 && Valid(cfg, a, ha) && Valid(cfg, b, hb)
    requires Foretold(cfg, list, ha, start) == Foretold(cfg, list, hb, start)
    ensures st == Run(cfg, Initial(cfg, start), steps) && st.now == start
    ensures var x, y, shard := Made(cfg, 0, a, ha, start), Made(cfg, 1, b, hb, start), Foretold(cfg, list, ha, start);
            st.places == [Predicted(STREAM, shard, x), Predicted(STREAM, shard, y),
                          Buffering(STREAM, shard, R.Initial())]
  {
    hide Valid, Run, ActAt, MapFor, Foretold, ReadyMap, Started;
    var x, y, shard := Made(cfg, 0, a, ha, start), Made(cfg, 1, b, hb, start), Foretold(cfg, list, ha, start);
    steps, st := TwoPermits(cfg, list, start);
    Foresee(cfg, list, st, x, start, start);
    steps, st := DoRegister(cfg, start, steps, a, ha);
    Foresee(cfg, list, st, x, start, start);
    steps, st := DoRegister(cfg, start, steps, b, hb);
    assert st.places == [Registered(STREAM, x), Registered(STREAM, y)];
    steps, st := DoOpen(cfg, start, steps, Room(shard));
    Foresee(cfg, list, st, x, start, start);
    steps, st := DoAct(cfg, start, steps, 0, Predicting, start, Effect(Predicted(STREAM, shard, x), [], None));
    Foresee(cfg, list, st, y, start, start);
    steps, st := DoAct(cfg, start, steps, 1, Predicting, start, Effect(Predicted(STREAM, shard, y), [], None));
  }

  lemma NoSteps(cfg: Config, start: real)
    ensures Run(cfg, Initial(cfg, start), []) == Initial(cfg, start)
  {
  }

  lemma SmallerFirst(cfg: Config, x: Buffered, y: Buffered)
    ensures EstimatedSize(cfg.codec, [x]) < EstimatedSize(cfg.codec, [x, y])
  {
    hide Delta;
    SizeSnoc(cfg.codec, [x], y);
    assert [x] + [y] == [x, y];
    DeltaPositive(cfg.codec, PartitionKeys([x]), ExplicitHashKeys([x]), y.userRecord);
  }

  lemma DeltaPositive(c: Codec, pks: set<string>, ehks: set<string>, r: UserRecord)
    ensures Delta(c, pks, ehks, r) >= 8
  {
  }

  /** The first of two records stays, the second completes the batch. */
  lemma TwoIntoOne(cfg: Config, x: Buffered, y: Buffered, now: real)
    requires x.deadline <= y.deadline && AggregatorOf(cfg).countLimit >= 2
    requires EstimatedSize(cfg.codec, [x, y]) <= cfg.aggregationMaxSize
    ensures var (b1, c1) := R.Add(AggregatorOf(cfg), R.Initial(), x, now);
            var (b2, c2) := R.Add(AggregatorOf(cfg), b1, y, now);
            var (b3, c3) := R.Flush(AggregatorOf(cfg), b2, now);
            && c1 == None && b3.active == []
            && ((c2 == Some([x, y]) && c3 == None) || (c2 == None && c3 == Some([x, y])))
  {
    hide R.PackAndSplit, R.Monotone, R.Reschedule, S.Sorted, EstimatedSize;
    var agg := AggregatorOf(cfg);
    C.Monotonicity(cfg);
    SmallerFirst(cfg, x, y);
    SortedPair(agg, x, y);
    assert [] + [x] == [x] && [x] + [y] == [x, y];
    var b1 := R.Add(agg, R.Initial(), x, now).0;
    assert b1.active == [x];
    ClosesWith(agg, b1, y, now);
  }

  /** Two records that fit one batch, and get the same prediction or both none,
      leave their reducer together. */
  lemma MixTwo(cfg: Config, list: seq<M.Shard>, a: UserRecord, ha: nat, b: UserRecord, hb: nat, start: real)
      returns (steps: seq<Step>, st: State)
    requires cfg.maxOutstanding >= 2 && Valid(cfg, a, ha) && Valid(cfg, b, hb)
    requires Foretold(cfg, list, ha, start) == Foretold(cfg, list, hb, start)
    requires var x, y := Made(cfg, 0, a, ha, start), Made(cfg, 1, b, hb, start);
             AggregatorOf(cfg).countLimit >= 2 && EstimatedSize(cfg.codec, [x, y]) <= cfg.aggregationMaxSize
    ensures st == Run(cfg, Initial(cfg, start), steps) && st.now == start && |st.places| == 4
    ensures var x, y, shard := Made(cfg, 0, a, ha, start), Made(cfg, 1, b, hb, start), Foretold(cfg, list, ha, start);
            st.places[3] == Closed(STREAM, Batch(shard, [x, y])) && KeyOf(st.places[2]) == Some(Room(shard))
    ensures KeyOf(st.places[0]) == KeyOf(st.places[1]) == None
  {
    hide Valid, Run, R.Add, R.Flush, AggregatorOf, EstimatedSize, MapFor, Foretold;
    var x, y, shard := Made(cfg, 0, a, ha, start), Made(cfg, 1, b, hb, start), Foretold(cfg, list, ha, start);
    var agg := AggregatorOf(cfg);
    TwoIntoOne(cfg, x, y, start);
    steps, st := PutTwo(cfg, list, a, ha, b, hb, start);
    var (b1, c1) := R.Add(agg, R.Initial(), x, start);
    var (b2, c2) := R.Add(agg, b1, y, start);
    var (b3, c3) := R.Flush(agg, b2, start);
    steps, st := DoHand(cfg, start, steps, 0, 2, Effect(Buffering(STREAM, shard, b1), [], None));
    var e := Effect(Buffering(STREAM, shard, b2), ClosedParcel(STREAM, shard, c2), None);
    steps, st := DoHand(cfg, start, steps, 1, 2, e);
    e := Effect(Buffering(STREAM, shard, b3), ClosedParcel(STREAM, shard, c3), None);
    steps, st := DoAct(cfg, start, steps, 2, Flushing, start, e);
  }

  /** A batch on its own passes a limiter that is flushed, unless it is expired. */
  lemma Forced(cfg: Config, b: Batch<Buffered>, start: real)
    requires cfg.policy.ttl > 0.0
    ensures var idle := L.State([], L.FreshStreams(cfg.rps, cfg.bps, start));
            var queued := L.Enqueue(LimiterOf(cfg), idle, b, start + cfg.policy.ttl);
            && queued.queue == [L.Pending(b, start + cfg.policy.ttl)]
            && L.DrainForce(queued, start).1 == [b] && L.DrainForce(queued, start).2 == []
  {
    Alone(L.Pending(b, start + cfg.policy.ttl), start);
  }

  lemma Alone(p: L.Pending<Batch<Buffered>>, now: real)
    ensures p.expiresAt > now ==> L.Live([p], now) == [p] && L.Expired([p], now) == []
    ensures p.expiresAt <= now ==> L.Live([p], now) == [] && L.Expired([p], now) == [p]
  {
    assert Front([p]) == [] && Last([p]) == p;
  }

  lemma OneIntoRequest(cfg: Config, b: Batch<Buffered>, now: real)
    ensures var (b1, c1) := R.Add(CollectorOf(cfg), R.Initial(), b, now);
            var (b2, c2) := R.Flush(CollectorOf(cfg), b1, now);
            (c1 == Some([b]) && c2 == None) || (c1 == None && c2 == Some([b]))
  {
    hide R.Add, R.Flush, R.Monotone, S.Sorted, CollectorOf;
    C.Monotonicity(cfg);
    SortedPair(CollectorOf(cfg), b, b);
    assert [] + [b] == [b];
    ClosesWith(CollectorOf(cfg), R.Initial(), b, now);
  }

  lemma AdmitClosed(cfg: Config, start: real, steps: seq<Step>, c: nat, b: Batch<Buffered>)
      returns (more: seq<Step>, st: State)
    requires cfg.policy.ttl > 0.0
    requires var st := Run(cfg, Initial(cfg, start), steps);
             && st.now == start && |st.places| == c + 1 && st.places[c] == Closed(STREAM, b)
             && !HasStage(st.places, Gate(b.shard)) && !HasStage(st.places, DESK)
    ensures st == Run(cfg, Initial(cfg, start), more) && st.maps == Run(cfg, Initial(cfg, start), steps).maps
    ensures st.now == start && |st.places| == c + 3 && st.places[c + 2] == Admitted(STREAM, b)
    ensures st.ledger == Run(cfg, Initial(cfg, start), steps).ledger && !HasStage(st.places, DESK)
  {
    hide Run, LimiterOf, L.Enqueue, L.DrainForce, L.FreshStreams, MapFor;
    Forced(cfg, b, start);
    var idle := L.State([], L.FreshStreams(cfg.rps, cfg.bps, start));
    var expiresAt := start + cfg.policy.ttl;
    var queued := L.Enqueue(LimiterOf(cfg), idle, b, expiresAt);
    var h1 := [L.Enqueuing(b, expiresAt, start)];
    more, st := DoOpen(cfg, start, steps, Gate(b.shard));
    assert [] + h1 == h1;
    more, st := DoHand(cfg, start, more, c, c + 1, Effect(Queueing(STREAM, b.shard, queued, start, h1), [], None));
    var (flushed, admitted, expired) := L.DrainForce(queued, start);
    var e := Effect(Queueing(STREAM, b.shard, flushed, start, h1 + [L.Forcing(start)]),
                    ExpiredParcels(STREAM, expired) + AdmittedParcels(STREAM, admitted), None);
    more, st := DoAct(cfg, start, more, c + 1, Forcing, start, e);
    assert e.more == [Admitted(STREAM, b)];
  }

  /** A closed batch, left alone with the stages it needs, is sent. */
  lemma SendClosed(cfg: Config, start: real, steps: seq<Step>, c: nat, b: Batch<Buffered>)
      returns (more: seq<Step>, st: State)
    requires cfg.policy.ttl > 0.0
    requires var st := Run(cfg, Initial(cfg, start), steps);
             && st.now == start && |st.places| == c + 1 && st.places[c] == Closed(STREAM, b)
             && !HasStage(st.places, Gate(b.shard)) && !HasStage(st.places, DESK)
    ensures st == Run(cfg, Initial(cfg, start), more) && st.maps == Run(cfg, Initial(cfg, start), steps).maps
    ensures st.ledger == Run(cfg, Initial(cfg, start), steps).ledger && st.now == start
    ensures |st.places| == c + 5 && st.places[c + 4] == Sending(STREAM, [b])
  {
    hide Run, CollectorOf, R.Add, R.Flush, HasStage, MapFor;
    OneIntoRequest(cfg, b, start);
    var (b1, c1) := R.Add(CollectorOf(cfg), R.Initial(), b, start);
    var (b2, c2) := R.Flush(CollectorOf(cfg), b1, start);
    more, st := AdmitClosed(cfg, start, steps, c, b);
    more, st := DoOpen(cfg, start, more, DESK);
    more, st := DoHand(cfg, start, more, c + 2, c + 3, Effect(Collecting(STREAM, b1), SendingParcel(STREAM, c1), None));
    var e := Effect(Collecting(STREAM, b2), SendingParcel(STREAM, c2), None);
    more, st := DoAct(cfg, start, more, c + 3, Flushing, start, e);
  }

  // ---- Records without a predicted shard ----

  const LOWEST := UserRecord("k", [], Some(ToDecimal(0)), [])
  const HIGHEST := UserRecord("k", [], Some(ToDecimal(UINT128_MAX)), [])

  /** No single shard owns both ends of the hash space, unless it is alone. */
  lemma EndsApart(list: seq<M.Shard>, o: nat)
    requires M.Tiles(list) && |list| >= 2 && o < |list|
    ensures !(M.Contains(list[o], 0) && M.Contains(list[o], UINT128_MAX))
  {
    if M.Contains(list[o], 0) && M.Contains(list[o], UINT128_MAX) {
      var j := if o == 0 then 1 else 0;
      assert M.Contains(list[j], list[j].start) && M.Contains(list[o], list[j].start);
    }
  }

  lemma EndsAreValid(cfg: Config)
    ensures Valid(cfg, LOWEST, 0) && Valid(cfg, HIGHEST, UINT128_MAX)
  {
    hide ToDecimal;
    ParsePrintedHashKey(0);
    ParsePrintedHashKey(UINT128_MAX);
  }

  /** The reducer for records without a shard is not in single-record mode: any
      two records that fit, and that the listing leaves unowned, may be sent in
      one batch. Any success for it is
      accepted for both records, whatever shard answered and whatever the map
      knows. If they are the two ends of the hash space, as above, then with two
      or more shards one of them is off its shard. */
  lemma MixedBatchIsAcceptedAnywhere(cfg: Config, list: seq<M.Shard>, a: UserRecord, ha: nat, b: UserRecord, hb: nat,
                                     start: real)
      returns (steps: seq<Step>, st: State, batch: Batch<Buffered>)
    requires cfg.maxOutstanding >= 2 && AggregatorOf(cfg).countLimit >= 2 && cfg.policy.ttl > 0.0
    requires Valid(cfg, a, ha) && Valid(cfg, b, hb)
    requires Foretold(cfg, list, ha, start) == Foretold(cfg, list, hb, start) == None
    requires var x, y := Made(cfg, 0, a, ha, start), Made(cfg, 1, b, hb, start);
             EstimatedSize(cfg.codec, [x, y]) <= cfg.aggregationMaxSize
    ensures st == Run(cfg, Initial(cfg, start), steps) && |st.places| == 8 && st.places[7] == Sending(STREAM, [batch])
    ensures batch == Batch(None, [Made(cfg, 0, a, ha, start), Made(cfg, 1, b, hb, start)])
    ensures forall slot: Slot, lookup, r ::
              slot.sequenceNumber.Some? && slot.sequenceNumber.value != "" && r in batch.items ==>
                Rule(cfg.policy, BuildPerRecord(batch, slot), r.hashKey, lookup)
                == Accept(slot.shardId, slot.sequenceNumber)
    ensures ha == 0 && hb == UINT128_MAX ==>
              forall list, o :: M.Tiles(list) && |list| >= 2 && 0 <= o < |list| ==>
                !(M.Contains(list[o], batch.items[0].hashKey) && M.Contains(list[o], batch.items[1].hashKey))
  {
    hide Run, AggregatorOf, EstimatedSize, Valid, ParseShardId, M.Tiles, M.Contains, Foretold;
    steps, st := MixTwo(cfg, list, a, ha, b, hb, start);
    batch := st.places[3].batch;
    steps, st := SendClosed(cfg, start, steps, 3, batch);
    if ha == 0 && hb == UINT128_MAX {
      forall list, o | M.Tiles(list) && |list| >= 2 && 0 <= o < |list|
        ensures !(M.Contains(list[o], batch.items[0].hashKey) && M.Contains(list[o], batch.items[1].hashKey))
      {
        EndsApart(list, o);
      }
    }
  }

  // ---- When single-record mode holds ----

  /** Two calls may be outstanding, a batch may hold two records, and there is a
      partition key short enough for two empty records under it. With UTF-8 the
      last means that aggregation_max_size is at least 20. */
  ghost predicate CanMix(cfg: Config) {
    && cfg.maxOutstanding >= 2
    && AggregatorOf(cfg).countLimit >= 2
    && exists k: string :: k != "" && 19 + |cfg.codec.utf8(k)| <= cfg.aggregationMaxSize
  }

  /** At the end of this run every closed batch without a shard is one record. */
  ghost predicate SingleWithoutShard(cfg: Config, start: real, steps: seq<Step>) {
    var places := Run(cfg, Initial(cfg, start), steps).places;
    forall i :: 0 <= i < |places| && places[i].Closed? && places[i].batch.shard.None? ==> |places[i].batch.items| == 1
  }

  lemma TwinsSize(cfg: Config, x: Buffered, y: Buffered)
    requires x.userRecord == y.userRecord && x.userRecord.data == [] && x.userRecord.explicitHashKey.None?
    ensures EstimatedSize(cfg.codec, [x, y]) == 19 + |cfg.codec.utf8(x.userRecord.partitionKey)|
  {
    var c := cfg.codec;
    assert [] + [x] == [x] && [x] + [y] == [x, y];
    SizeSnoc(c, [], x);
    SizeSnoc(c, [x], y);
    assert PartitionKeys([]) == {} && x.userRecord.partitionKey in PartitionKeys([x]) by {
      KeysSnoc([], x);
    }
  }

  lemma {:induction false} PairSize(cfg: Config, items: seq<Buffered>)
    requires |items| >= 2
    ensures EstimatedSize(cfg.codec, items) >= 19 + |cfg.codec.utf8(items[0].userRecord.partitionKey)|
  {
    var c, f := cfg.codec, Front(items);
    assert f + [Last(items)] == items;
    SizeSnoc(c, f, Last(items));
    DeltaPositive(c, PartitionKeys(f), ExplicitHashKeys(f), Last(items).userRecord);
    if |items| == 2 {
      assert [] + [items[0]] == f;
      SizeSnoc(c, [], items[0]);
      assert PartitionKeys([]) == {};
    } else {
      PairSize(cfg, f);
    }
  }

  lemma Smaller(a: multiset<Ticket>, s: set<Ticket>)
    requires a <= multiset(s)
    ensures |a| <= |s|
  {
    var rest := multiset(s) - a;
    assert a + rest == multiset(s);
    assert |a + rest| == |a| + |rest|;
    assert |multiset(s)| == |s|;
  }

  /** In every run a closed batch of two or more records shows that such batches
      are possible. */
  lemma BatchesShowRoom(cfg: Config, start: real, steps: seq<Step>, i: nat)
    requires Lawful(cfg.codec)
    requires var places := Run(cfg, Initial(cfg, start), steps).places;
             i < |places| && places[i].Closed? && |places[i].batch.items| != 1
    ensures CanMix(cfg)
  {
    hide Run, Lawful, EstimatedSize, T.Total;
    var st := Run(cfg, Initial(cfg, start), steps);
    var p, items := st.places[i], st.places[i].batch.items;
    RR.RunIsGood(cfg, None, 0.0, start, steps);
    assert Q.GoodPlace(cfg, RR.WorldOf(None, 0.0, st), st.now, p);
    PairSize(cfg, items);
    assert items[0] in items && items[0].userRecord.partitionKey != "";
    PR.RunConserves(cfg, start, steps);
    T.TotalContains(C.PlaceIds, st.places, i);
    C.BagSize(p.stream, items);
    Smaller(C.PlaceIds(p), st.ledger.pending);
  }

  lemma MixingRun(cfg: Config, start: real) returns (steps: seq<Step>)
    requires CanMix(cfg)
    ensures !SingleWithoutShard(cfg, start, steps)
  {
    hide Run, AggregatorOf, EstimatedSize, Md5HashKey, Foretold;
    var k: string :| k != "" && 19 + |cfg.codec.utf8(k)| <= cfg.aggregationMaxSize;
    var u, h := UserRecord(k, [], None, []), Md5HashKey(cfg.codec, k);
    TwinsSize(cfg, Made(cfg, 0, u, h, start), Made(cfg, 1, u, h, start));
    var st;
    EmptyListing(cfg, h, start);
    steps, st := MixTwo(cfg, [], u, h, u, h, start);
    assert st.places[3].Closed? && |st.places[3].batch.items| == 2;
  }

  /** Every batch without a shard is one record, in every run, if and only if
      batches of two are impossible altogether. */
  lemma SingleRecordModeIff(cfg: Config)
    requires Lawful(cfg.codec)
    ensures (forall start, steps :: SingleWithoutShard(cfg, start, steps)) <==> !CanMix(cfg)
  {
    hide Lawful, CanMix, Run;
    if CanMix(cfg) {
      var steps := MixingRun(cfg, 0.0);
    } else {
      forall start, steps
        ensures SingleWithoutShard(cfg, start, steps)
      {
        var places := Run(cfg, Initial(cfg, start), steps).places;
        forall i | 0 <= i < |places| && places[i].Closed? && places[i].batch.shard.None?
          ensures |places[i].batch.items| == 1
        {
          if |places[i].batch.items| != 1 {
            BatchesShowRoom(cfg, start, steps, i);
          }
        }
      }
    }
  }

  // ---- A record that is exactly as old as its TTL ----

  /** Without a whole token nothing is admitted. */
  lemma NothingAdmitted(cfg: Config, p: L.Pending<Batch<Buffered>>, st: L.State<Batch<Buffered>>, start: real)
    requires 0.0 <= cfg.rps < 1.0 && cfg.bps >= 0.0 && p.expiresAt > start
    requires st == L.State([p], L.FreshStreams(cfg.rps, cfg.bps, start))
    ensures var (st', admitted, expired) := L.Drain(LimiterOf(cfg), st, start, k => start);
            st'.queue == [p] && |st'.streams| == 2 && admitted == [] && expired == []
  {
    hide L.Request;
    Alone(p, start);
    L.RequestUnfold(LimiterOf(cfg), st.streams, p.batch, k => start, 0);
    assert [p][0..] == [p] && [p][..0] == [];
  }

  lemma AllExpired(cfg: Config, p: L.Pending<Batch<Buffered>>, st: L.State<Batch<Buffered>>, now: real)
    requires st.queue == [p] && |st.streams| == 2 && p.expiresAt <= now
    ensures var (st', admitted, expired) := L.Drain(LimiterOf(cfg), st, now, k => now);
            admitted == [] && expired == [p.batch]
  {
    Alone(p, now);
  }

  lemma PredictOne(cfg: Config, list: seq<M.Shard>, u: UserRecord, h: nat, start: real)
      returns (steps: seq<Step>, st: State)
    requires cfg.maxOutstanding >= 1 && Valid(cfg, u, h)
    ensures st == Run(cfg, Initial(cfg, start), steps) && st.now == start && st.ledger.results == map[]
    ensures st.maps == map[STREAM := ReadyMap(cfg, list, start)]
    ensures var shard := Foretold(cfg, list, h, start);
            st.places == [Predicted(STREAM, shard, Made(cfg, 0, u, h, start)), Buffering(STREAM, shard, R.Initial())]
  {
    hide Valid, Run, ActAt, MapFor, Foretold, ReadyMap, Started;
    var x, shard := Made(cfg, 0, u, h, start), Foretold(cfg, list, h, start);
    steps, st := Build(cfg, list, start);
    steps, st := PR.Extend(cfg, start, steps, Acquiring);
    Foresee(cfg, list, st, x, start, start);
    steps, st := DoRegister(cfg, start, steps, u, h);
    assert st.places == [Registered(STREAM, x)];
    steps, st := DoOpen(cfg, start, steps, Room(shard));
    Foresee(cfg, list, st, x, start, start);
    steps, st := DoAct(cfg, start, steps, 0, Predicting, start, Effect(Predicted(STREAM, shard, x), [], None));
  }

  /** One record, closed and alone at place 2. */
  lemma PutOne(cfg: Config, list: seq<M.Shard>, u: UserRecord, h: nat, start: real)
      returns (steps: seq<Step>, st: State)
    requires cfg.maxOutstanding >= 1 && Valid(cfg, u, h)
    ensures st == Run(cfg, Initial(cfg, start), steps) && st.now == start && st.ledger.results == map[]
    ensures st.maps == map[STREAM := ReadyMap(cfg, list, start)] && |st.places| == 3
    ensures var shard := Foretold(cfg, list, h, start);
            && st.places[2] == Closed(STREAM, Batch(shard, [Made(cfg, 0, u, h, start)]))
            && KeyOf(st.places[0]) == None && KeyOf(st.places[1]) == Some(Room(shard))
  {
    hide Valid, Run, R.Add, R.Flush, AggregatorOf, S.Sorted, R.Monotone, MapFor, Foretold, ReadyMap;
    var x, agg, shard := Made(cfg, 0, u, h, start), AggregatorOf(cfg), Foretold(cfg, list, h, start);
    C.Monotonicity(cfg);
    SortedPair(agg, x, x);
    assert [] + [x] == [x];
    ClosesWith(agg, R.Initial(), x, start);
    var (b1, c1) := R.Add(agg, R.Initial(), x, start);
    var (b2, c2) := R.Flush(agg, b1, start);
    steps, st := PredictOne(cfg, list, u, h, start);
    var e := Effect(Buffering(STREAM, shard, b1), ClosedParcel(STREAM, shard, c1), None);
    steps, st := DoHand(cfg, start, steps, 0, 1, e);
    e := Effect(Buffering(STREAM, shard, b2), ClosedParcel(STREAM, shard, c2), None);
    steps, st := DoAct(cfg, start, steps, 1, Flushing, start, e);
  }

  /** It is queued and finds no token, and times out at exactly the TTL. */
  lemma TimeOut(cfg: Config, start: real, steps: seq<Step>, b: Batch<Buffered>) returns (more: seq<Step>, st: State)
    requires 0.0 <= cfg.rps < 1.0 && cfg.bps >= 0.0 && cfg.policy.ttl > 0.0
    requires var st := Run(cfg, Initial(cfg, start), steps);
             && st.now == start && |st.places| == 3 && st.places[2] == Closed(STREAM, b) && st.ledger.results == map[]
             && KeyOf(st.places[0]) == None && KeyOf(st.places[1]) == Some(Room(b.shard))
    ensures st == Run(cfg, Initial(cfg, start), more) && st.now == start + cfg.policy.ttl && st.ledger.results == map[]
    ensures |st.places| == 5 && st.places[4] == Expired(STREAM, b)
  {
    hide Run, LimiterOf, L.Enqueue, L.Drain, L.FreshStreams, MapFor;
    var late, p := start + cfg.policy.ttl, L.Pending(b, start + cfg.policy.ttl);
    var idle := L.State([], L.FreshStreams(cfg.rps, cfg.bps, start));
    Forced(cfg, b, start);
    QueuedStreams(cfg, idle, b, p.expiresAt);
    more, st := DoOpen(cfg, start, steps, Gate(b.shard));
    var l1, h1 := L.State([p], idle.streams), [L.Enqueuing(b, late, start)];
    assert [] + h1 == h1;
    more, st := DoHand(cfg, start, more, 2, 3, Effect(Queueing(STREAM, b.shard, l1, start, h1), [], None));
    NothingAdmitted(cfg, p, l1, start);
    var early := Draining(k => start, start);
    var (l2, a2, x2) := L.Drain(LimiterOf(cfg), l1, start, early.clock);
    var e := Effect(Queueing(STREAM, b.shard, l2, start, h1 + [L.Draining(start, early.clock, start)]),
                    ExpiredParcels(STREAM, x2) + AdmittedParcels(STREAM, a2), None);
    more, st := DoAct(cfg, start, more, 3, early, start, e);
    assert |st.places| == 4;
    AllExpired(cfg, p, l2, late);
    var last := Draining(k => late, late);
    var (l3, a3, x3) := L.Drain(LimiterOf(cfg), l2, late, last.clock);
    e := Effect(Queueing(STREAM, b.shard, l3, start, st.places[3].history + [L.Draining(late, last.clock, late)]),
                ExpiredParcels(STREAM, x3) + AdmittedParcels(STREAM, a3), None);
    more, st := DoAct(cfg, start, more, 3, last, late, e);
  }

  lemma QueuedStreams(cfg: Config, st: L.State<Batch<Buffered>>, b: Batch<Buffered>, expiresAt: real)
    ensures L.Enqueue(LimiterOf(cfg), st, b, expiresAt).streams == st.streams
  {
  }

  /** Whatever the service lists, a record that expires in the limiter at exactly
      its TTL is not finished as expired: it goes round again, with a failed
      attempt. */
  lemma RetriedAtTtl(cfg: Config, list: seq<M.Shard>, u: UserRecord, h: nat, start: real)
      returns (steps: seq<Step>, st: State, r: Buffered)
    requires cfg.maxOutstanding >= 1 && Valid(cfg, u, h)
    requires 0.0 <= cfg.rps < 1.0 && cfg.bps >= 0.0 && cfg.policy.ttl > 0.0
    ensures st == Run(cfg, Initial(cfg, start), steps) && st.ledger.results == map[]
    ensures st.now == start + cfg.policy.ttl && r.arrivalTime == start
    ensures |st.places| == 6 && st.places[5] == Registered(STREAM, r)
    ensures r.id == 0 && |r.attempts| == 1 && r.attempts[0].errorCode == Some(EXPIRED)
  {
    hide Run, Valid, MapFor, Received, Settle, Foretold, ReadyMap;
    var x, late := Made(cfg, 0, u, h, start), start + cfg.policy.ttl;
    var b := Batch(Foretold(cfg, list, h, start), [x]);
    steps, st := PutOne(cfg, list, u, h, start);
    steps, st := TimeOut(cfg, start, steps, b);
    OneGiven(cfg, b, x, late);
    var given := Received(cfg, STREAM, SendOutcome(late, late, Some((EXPIRED, EXPIRED_IN_QUEUE)), [], [b]));
    steps, st := DoAct(cfg, start, steps, 4, Giving, late, Effect(given, [], None));
    r := SettledOnTime(cfg, x, late);
    var e := Effect(given.(ruled := given.ruled[1..]), [Registered(STREAM, r)], None);
    steps, st := DoAct(cfg, start, steps, 4, Settling, late, e);
  }

  lemma SettledOnTime(cfg: Config, x: Buffered, at: real) returns (r: Buffered)
    requires at - x.arrivalTime == cfg.policy.ttl && x.attempts == []
    ensures Settle(cfg.policy, x, at, at, TryAgain(EXPIRED, EXPIRED_IN_QUEUE), at) == (r, Retried)
    ensures r.id == x.id && r.arrivalTime == x.arrivalTime
    ensures |r.attempts| == 1 && r.attempts[0].errorCode == Some(EXPIRED)
  {
    r := Settle(cfg.policy, x, at, at, TryAgain(EXPIRED, EXPIRED_IN_QUEUE), at).0;
  }

  lemma OneGiven(cfg: Config, b: Batch<Buffered>, x: Buffered, at: real)
    requires b.items == [x]
    ensures var o := SendOutcome(at, at, Some((EXPIRED, EXPIRED_IN_QUEUE)), [], [b]);
            && Received(cfg, STREAM, o).ruled == [(x, TryAgain(EXPIRED, EXPIRED_IN_QUEUE))]
            && Received(cfg, STREAM, o).Handling? && Received(cfg, STREAM, o).stream == STREAM
            && Received(cfg, STREAM, o).startedAt == Received(cfg, STREAM, o).endedAt == at
  {
    assert Front([b]) == [] && Flatten([b]) == [x];
    assert |EXPIRED| != |THROTTLED|;
    var o := SendOutcome(at, at, Some((EXPIRED, EXPIRED_IN_QUEUE)), [], [b]);
    var w := Rulings(cfg.policy, o, HashOf(), k => id => None);
    assert RuleError(cfg.policy, EXPIRED, EXPIRED_IN_QUEUE) == TryAgain(EXPIRED, EXPIRED_IN_QUEUE);
    assert Flatten(o.batchItems)[0] == x;
    assert |w| == 1 && w[0] == (x, TryAgain(EXPIRED, EXPIRED_IN_QUEUE));
  }

  // ---- A reshard is not noticed ----

  const WHOLE := M.Shard(0, 0, UINT128_MAX)

  lemma WholeListing(cfg: Config, h: nat, start: real)
    requires h <= UINT128_MAX
    ensures Foretold(cfg, [WHOLE], h, start) == Some(0)
    ensures ReadyMap(cfg, [WHOLE], start).snapshot.shards.Keys == {0}
  {
    hide ReadyMap, M.SnapshotOf, M.BisectLeft;
    ReadyMapIs(cfg, [WHOLE], start);
    assert M.Tiles([WHOLE]) by {
      forall k: nat | k <= UINT128_MAX
        ensures M.Owned([WHOLE], k)
      {
        assert M.Contains([WHOLE][0], k);
      }
    }
    var o := M.BisectFindsOwner([WHOLE], h);
    assert Front([WHOLE]) == [];
  }

  /** The one answer of one batch with one record, taken up. */
  lemma TakenUp(cfg: Config, map': M.State, x: Buffered, slot: Slot, a: int, at: real)
    requires slot.sequenceNumber.Some? && slot.sequenceNumber.value != ""
    requires ParseShardId(slot.shardId) == Some(a) && a != 0 && a !in map'.snapshot.shards
    ensures var b, act := Batch(Some(0), [x]), Answering(Replied([slot]), at);
            var sent := ActAt(cfg, map', Sending(STREAM, [b]), act, at);
            && sent.Some? && sent.value.more == [] && sent.value.finished.None? && sent.value.place.Handling?
            && (var taken := ActAt(cfg, map', sent.value.place, Classifying, at);
                && taken.Some? && taken.value.more == [] && taken.value.finished.None?
                && taken.value.place == Handling(STREAM, at, at, [(x, TryAgain(WRONG_SHARD, WRONG_SHARD_MESSAGE))],
                                                 [], [a]))
  {
    hide ParseShardId;
    var b, act := Batch(Some(0), [x]), Answering(Replied([slot]), at);
    var p := ActAt(cfg, map', Sending(STREAM, [b]), act, at).value.place;
    assert p.waiting == [BuildPerRecord(b, slot)] && p.ruled == [];
    var w := RuleItems(cfg.policy, p.waiting[0], HashOf(), Lookup(map'));
    assert |w| == 1 && w[0] == (x, TryAgain(WRONG_SHARD, WRONG_SHARD_MESSAGE));
    assert p.waiting[1..] == [];
  }

  lemma SettledAgain(cfg: Config, x: Buffered, at: real) returns (r: Buffered)
    requires x.arrivalTime == at && cfg.policy.ttl > 0.0 && x.attempts == []
    ensures Settle(cfg.policy, x, at, at, TryAgain(WRONG_SHARD, WRONG_SHARD_MESSAGE), at) == (r, Retried)
    ensures r.id == x.id && r.hashKey == x.hashKey && r.arrivalTime == x.arrivalTime
    ensures |r.attempts| == 1 && r.attempts[0].errorCode == Some(WRONG_SHARD)
  {
    r := Settle(cfg.policy, x, at, at, TryAgain(WRONG_SHARD, WRONG_SHARD_MESSAGE), at).0;
  }

  /** The documented table says that a success from the child of a split is
      accepted and refreshes the map. In this run the map knows one shard, the
      service has split it, and a child answers: the record is not accepted but
      sent round as a wrong shard, and the report leaves the map as it is, so that
      it is predicted for the old shard again. */
  lemma SplitIsNotNoticed(cfg: Config, u: UserRecord, h: nat, slot: Slot, child: int, start: real)
      returns (steps: seq<Step>, st: State, r: Buffered)
    requires cfg.maxOutstanding >= 1 && cfg.policy.ttl > 0.0 && Valid(cfg, u, h) && h <= UINT128_MAX
    requires slot.sequenceNumber.Some? && slot.sequenceNumber.value != ""
    requires ParseShardId(slot.shardId) == Some(child) && child != 0
    ensures st == Run(cfg, Initial(cfg, start), steps) && st.ledger.results == map[]
    ensures st.maps == map[STREAM := ReadyMap(cfg, [WHOLE], start)] && Foretold(cfg, [WHOLE], h, start) == Some(0)
    ensures |st.places| == 8 && st.places[7] == Registered(STREAM, r)
    ensures r.id == 0 && r.hashKey == h && |r.attempts| == 1 && r.attempts[0].errorCode == Some(WRONG_SHARD)
    ensures st.places[6] == Handling(STREAM, start, start, [], [], [])
  {
    hide Run, Valid, MapFor, Settle, Foretold, ReadyMap, ActAt, ParseShardId, M.Invalidate;
    WholeListing(cfg, h, start);
    var m, x := ReadyMap(cfg, [WHOLE], start), Made(cfg, 0, u, h, start);
    var b := Batch(Some(0), [x]);
    steps, st := PutOne(cfg, [WHOLE], u, h, start);
    steps, st := SendClosed(cfg, start, steps, 2, b);
    TakenUp(cfg, m, x, slot, child, start);
    StreamMap(cfg, st, m);
    var e := ActAt(cfg, m, Sending(STREAM, [b]), Answering(Replied([slot]), start), start).value;
    steps, st := DoAct(cfg, start, steps, 6, Answering(Replied([slot]), start), start, e);
    StreamMap(cfg, st, m);
    var e2 := ActAt(cfg, m, e.place, Classifying, start).value;
    assert StreamOf(e.place) == STREAM by {
      SameStream(cfg, m, b, Answering(Replied([slot]), start), start);
    }
    steps, st := DoAct(cfg, start, steps, 6, Classifying, start, e2);
    steps, st := ReportUnknown(cfg, start, steps, 6, m, child);
    r := SettledAgain(cfg, x, start);
    StreamMap(cfg, st, m);
    SettlingEffect(cfg, m, x, r, start);
    var rest := Handling(STREAM, start, start, [], [], []);
    steps, st := DoAct(cfg, start, steps, 6, Settling, start, Effect(rest, [Registered(STREAM, r)], None));
  }

  lemma StreamMap(cfg: Config, st: State, m: M.State)
    requires st.maps == map[STREAM := m]
    ensures MapFor(cfg, st, STREAM) == m
  {
  }

  lemma SameStream(cfg: Config, m: M.State, b: Batch<Buffered>, act: Act, at: real)
    requires ActAt(cfg, m, Sending(STREAM, [b]), act, at).Some?
    ensures StreamOf(ActAt(cfg, m, Sending(STREAM, [b]), act, at).value.place) == STREAM
  {
  }

  lemma SettlingEffect(cfg: Config, m: M.State, x: Buffered, r: Buffered, at: real)
    requires Settle(cfg.policy, x, at, at, TryAgain(WRONG_SHARD, WRONG_SHARD_MESSAGE), at) == (r, Retried)
    ensures ActAt(cfg, m, Handling(STREAM, at, at, [(x, TryAgain(WRONG_SHARD, WRONG_SHARD_MESSAGE))], [], []),
                  Settling, at)
         == Some(Effect(Handling(STREAM, at, at, [], [], []), [Registered(STREAM, r)], None))
  {
    hide Settle;
    assert [(x, TryAgain(WRONG_SHARD, WRONG_SHARD_MESSAGE))][1..] == [];
  }

  /** A report of a shard the map does not know changes nothing. */
  lemma ReportUnknown(cfg: Config, start: real, steps: seq<Step>, i: nat, m: M.State, a: int)
      returns (more: seq<Step>, st: State)
    requires var was := Run(cfg, Initial(cfg, start), steps);
             && was.maps == map[STREAM := m] && a !in m.snapshot.shards && i < |was.places|
             && was.places[i].Handling? && was.places[i].stream == STREAM && was.places[i].reports == [a]
    ensures st == Run(cfg, Initial(cfg, start), more)
    ensures var was := Run(cfg, Initial(cfg, start), steps);
            st == was.(places := was.places[i := was.places[i].(reports := [])])
  {
    hide Run;
    var was := Run(cfg, Initial(cfg, start), steps);
    StreamMap(cfg, was, m);
    more, st := PR.Extend(cfg, start, steps, Reporting(i, was.now));
    assert M.Invalidate(cfg.shardMap, m, was.now, Some(a)) == m;
    assert was.places[i].reports[1..] == [];
    assert st.maps == was.maps;
  }
}
