/** What holds of every record in flight: its history, its age, and the shard
    its batch was predicted for. */
module Routing {
  import opened Common
  import opened Aggregation
  import opened Records
  import opened Hashing
  import opened Retrier
  import opened Batches
  import opened Pipeline
  import R = ReducerSpec
  import Runs = ReducerRuns
  import L = Limiter
  import M = ShardMap
  import MR = ShardMapRuns
  import S = Sorting
  import C = Conservation

  /** The hash range of every shard id of every stream, which never changes;
      `None` where nothing is assumed about the lists the service returns. */
  type Ranges = Option<(string, int) -> (int, int)>

  /** What a run is measured against: the ranges, the records as they were
      accepted, and the least time between two settlings of one record. */
  datatype World = World(ranges: Ranges, origin: map<Ticket, Buffered>, gap: real)

  ghost predicate Agrees(ranges: Ranges, stream: string, list: seq<M.Shard>) {
    ranges.Some? ==>
      && M.Tiles(list)
      && forall i :: 0 <= i < |list| ==> ranges.value(stream, list[i].id) == (list[i].start, list[i].end)
  }

  // ---- Invariants ----

  /** Still the record that was accepted by this stream under this identity,
      except for its deadline and its attempts. */
  ghost predicate Genuine(world: World, stream: string, r: Buffered) {
    var t := Ticket(stream, r.id);
    t in world.origin && r == world.origin[t].(deadline := r.deadline, attempts := r.attempts)
  }

  /** `n` times `gap`. */
  ghost function Times(n: nat, gap: real): real {
    if n == 0 then 0.0 else Times(n - 1, gap) + gap
  }

  /** When a retried record was sent round. */
  function SettledAt(cfg: Config, r: Buffered): real {
    r.deadline - cfg.policy.retryDelay
  }

  /** A new record is due when its time in the buffer is over; a retried one was
      sent round in the past, within its TTL, and no sooner
      than its attempts take. */
  ghost predicate InTime(cfg: Config, world: World, now: real, r: Buffered) {
    && r.arrivalTime <= now
    && (r.attempts == [] ==> r.deadline == r.arrivalTime + cfg.bufferedTime)
    && (r.attempts != [] ==>
          && r.arrivalTime + Times(|r.attempts| - 1, world.gap) <= SettledAt(cfg, r)
          && SettledAt(cfg, r) <= r.arrivalTime + cfg.policy.ttl
          && SettledAt(cfg, r) <= now)
  }

  ghost predicate GoodRecord(cfg: Config, world: World, now: real, stream: string, r: Buffered) {
    && r.userRecord.partitionKey != "" && WellHashed(cfg.codec, r)
    && Genuine(world, stream, r)
    && AllFailed(r.attempts)
    && InTime(cfg, world, now, r)
  }

  ghost predicate InShard(world: World, stream: string, shard: Option<int>, h: nat) {
    world.ranges.Some? && shard.Some? ==> InRange(Some(world.ranges.value(stream, shard.value)), h)
  }

  /** A record in a stage or batch for `shard`. */
  ghost predicate Routable(cfg: Config, world: World, now: real, stream: string, shard: Option<int>, r: Buffered) {
    GoodRecord(cfg, world, now, stream, r) && InShard(world, stream, shard, r.hashKey)
  }

  /** What one aggregated batch may hold. */
  predicate FitsBatch(cfg: Config, items: seq<Buffered>) {
    && |items| <= (if cfg.aggregationEnabled then cfg.aggregationMaxCount else 1)
    && EstimatedSize(cfg.codec, items) <= cfg.aggregationMaxSize
  }

  /** What one request may hold. */
  predicate FitsRequest(cfg: Config, bs: seq<Batch<Buffered>>) {
    |bs| <= cfg.collectionMaxCount && TotalSize(cfg.codec, bs) <= cfg.collectionMaxSize
  }

  ghost predicate GoodBatch(cfg: Config, world: World, now: real, stream: string, b: Batch<Buffered>) {
    && b.items != []
    && (|b.items| == 1 || FitsBatch(cfg, b.items))
    && forall r :: r in b.items ==> Routable(cfg, world, now, stream, b.shard, r)
  }

  /** No record of the batch is younger than the TTL at `t`. */
  ghost predicate TimedOut(cfg: Config, b: Batch<Buffered>, t: real) {
    forall r :: r in b.items ==> r.arrivalTime + cfg.policy.ttl <= t
  }

  ghost predicate GoodQueued(cfg: Config, world: World, now: real, stream: string, shard: Option<int>,
                             p: L.Pending<Batch<Buffered>>) {
    && GoodBatch(cfg, world, now, stream, p.batch) && p.batch.shard == shard
    && TimedOut(cfg, p.batch, p.expiresAt) && p.expiresAt <= now + cfg.policy.ttl
  }

  ghost predicate GoodPlace(cfg: Config, world: World, now: real, p: Place) {
    match p
    case Buffering(stream, shard, buffer) =>
      && Runs.TimerInv(AggregatorOf(cfg), buffer)
      && forall r :: r in buffer.active ==> Routable(cfg, world, now, stream, shard, r)
    case Queueing(stream, shard, limiter, _, _) =>
      && |limiter.streams| == 2
      && forall q :: q in limiter.queue ==> GoodQueued(cfg, world, now, stream, shard, q)
    case Collecting(stream, open) =>
      && Runs.TimerInv(CollectorOf(cfg), open)
      && forall b :: b in open.active ==> GoodBatch(cfg, world, now, stream, b)
    case Registered(stream, record) => GoodRecord(cfg, world, now, stream, record)
    case Predicted(stream, shard, record) => Routable(cfg, world, now, stream, shard, record)
    case Closed(stream, batch) => GoodBatch(cfg, world, now, stream, batch)
    case Admitted(stream, batch) => GoodBatch(cfg, world, now, stream, batch)
    case Expired(stream, batch) => GoodBatch(cfg, world, now, stream, batch) && TimedOut(cfg, batch, now)
    case Sending(stream, batches) =>
      && batches != [] && (|batches| == 1 || FitsRequest(cfg, batches))
      && forall b :: b in batches ==> GoodBatch(cfg, world, now, stream, b)
    case Handling(stream, _, _, ruled, waiting, _) =>
      && (forall w :: w in ruled ==> GoodRecord(cfg, world, now, stream, w.0))
      && (forall pr :: pr in waiting ==> GoodBatch(cfg, world, now, stream, pr.batch))
    case Done => true
  }

  ghost predicate GoodPlaces(cfg: Config, world: World, now: real, ps: seq<Place>) {
    forall i :: 0 <= i < |ps| ==> GoodPlace(cfg, world, now, ps[i])
  }

  /** A terminal result: a non-empty history that fails up to its last attempt,
      which succeeded exactly when the result did, and no more attempts than the
      TTL leaves time for. */
  ghost predicate GoodResult(cfg: Config, world: World, r: RecordResult) {
    && r.attempts != [] && AllFailed(Front(r.attempts)) && (r.success <==> Last(r.attempts).success)
    && (|r.attempts| > 3 ==> Times(|r.attempts| - 3, world.gap) <= cfg.policy.ttl)
  }

  ghost predicate GoodEffect(cfg: Config, world: World, now: real, e: Effect) {
    && GoodPlace(cfg, world, now, e.place)
    && GoodPlaces(cfg, world, now, e.more)
    && (e.finished.Some? ==> GoodResult(cfg, world, e.finished.value.1))
  }

  /** Every shard the map knows, open or closed, has its own range. */
  ghost predicate TrueRanges(ranges: Ranges, stream: string, shards: map<int, M.Shard>) {
    ranges.Some? ==> forall id :: id in shards ==> ranges.value(stream, id) == (shards[id].start, shards[id].end)
  }

  ghost predicate GoodMap(world: World, stream: string, m: M.State) {
    && MR.TablesInv(m)
    && (m.status == M.Ready ==> Agrees(world.ranges, stream, m.fetched))
    && TrueRanges(world.ranges, stream, m.snapshot.shards)
  }

  // ---- Time passes ----

  lemma BatchLater(cfg: Config, world: World, now: real, later: real, stream: string, b: Batch<Buffered>)
    requires GoodBatch(cfg, world, now, stream, b) && now <= later
    ensures GoodBatch(cfg, world, later, stream, b)
  {
    hide WellHashed, AllFailed, InShard, Genuine, Times, FitsBatch;
  }

  lemma PlaceLater(cfg: Config, world: World, now: real, later: real, p: Place)
    requires GoodPlace(cfg, world, now, p) && now <= later
    ensures GoodPlace(cfg, world, later, p)
  {
    hide WellHashed, AllFailed, InShard, GoodBatch, Genuine, Times, Runs.TimerInv;
    forall stream, b | GoodBatch(cfg, world, now, stream, b)
      ensures GoodBatch(cfg, world, later, stream, b)
    {
      BatchLater(cfg, world, now, later, stream, b);
    }
  }

  // ---- Prediction ----

  lemma WellHashedInRange(cfg: Config, r: Buffered)
    requires Lawful(cfg.codec) && WellHashed(cfg.codec, r)
    ensures r.hashKey <= UINT128_MAX
  {
    if r.userRecord.explicitHashKey.None? {
      Md5HashKeyInRange(cfg.codec, r.userRecord.partitionKey);
    }
  }

  lemma PredictionFits(world: World, stream: string, m: M.State, h: nat)
    requires GoodMap(world, stream, m) && h <= UINT128_MAX
    ensures InShard(world, stream, M.Predict(m, h), h)
  {
    hide M.BisectLeft, M.SnapshotOf, M.Tiles;
    if world.ranges.Some? && m.status == M.Ready {
      var o := M.BisectFindsOwner(m.fetched, h);
    }
  }

  lemma ListRanges(ranges: Ranges, stream: string, list: seq<M.Shard>)
    requires Agrees(ranges, stream, list)
    ensures TrueRanges(ranges, stream, M.MapOf(list))
  {
    hide M.MapOf, M.Tiles;
  }

  lemma MapStepKeeps(cfg: M.Config, world: World, stream: string, m: M.State, e: M.Event)
    requires GoodMap(world, stream, m) && (e.Installing? ==> Agrees(world.ranges, stream, e.list))
    ensures GoodMap(world, stream, M.Step(cfg, m, e))
  {
    hide M.SnapshotOf, M.MapOf, Agrees, M.ClosingTime;
    if e.Installing? {
      ListRanges(world.ranges, stream, e.list);
    }
  }

  lemma NewMapGood(cfg: M.Config, world: World, stream: string, now: real)
    ensures GoodMap(world, stream, M.Initial(cfg, now))
  {
    assert M.SnapshotOf([]).endings == [] && M.SnapshotOf([]).ids == [];
  }

  // ---- Every act keeps it ----

  /** What a reducer holds or closes afterwards, it held or was given. */
  lemma ReducerKeeps<I(!new)>(cfg: R.Config<I>, st: R.State<I>, e: Runs.Event<I>, good: I -> bool)
    requires R.Monotone(cfg) && (forall x :: x in st.active ==> good(x)) && (e.Adding? ==> good(e.item))
    requires Runs.TimerInv(cfg, st)
    ensures var (st', closed) := Runs.Step(cfg, st, e);
            && Runs.TimerInv(cfg, st')
            && (forall x :: x in st'.active ==> good(x))
            && (closed.Some? ==>
                  && closed.value != []
                  && (|closed.value| == 1
                      || (|closed.value| <= cfg.countLimit && cfg.size(closed.value) <= cfg.sizeLimit))
                  && forall x :: x in closed.value ==> good(x))
  {
    hide Runs.Step, FitsBatch, R.Monotone, Runs.TimerInv;
    Runs.StepKeepsTimer(cfg, st, e);
    Runs.StepConserves(cfg, st, e);
    var (st', closed) := Runs.Step(cfg, st, e);
    var out := if closed.Some? then multiset(closed.value) else multiset{};
    var into := if e.Adding? then multiset{e.item} else multiset{};
    forall x | x in st'.active || (closed.Some? && x in closed.value)
      ensures good(x)
    {
      assert x in multiset(st'.active) + out;
      assert x in multiset(st.active) + into;
    }
  }

  lemma BufferingGood(cfg: Config, world: World, p: Place, e: Runs.Event<Buffered>, at: real)
    requires p.Buffering? && GoodPlace(cfg, world, at, p)
    requires e.Adding? ==> Routable(cfg, world, at, p.stream, p.shard, e.item)
    ensures var (b, closed) := Runs.Step(AggregatorOf(cfg), p.buffer, e);
            GoodEffect(cfg, world, at, Effect(p.(buffer := b), ClosedParcel(p.stream, p.shard, closed), None))
  {
    hide Routable, Runs.Step, R.Monotone, EstimatedSize, Runs.TimerInv;
    C.Monotonicity(cfg);
    var good := (r: Buffered) => Routable(cfg, world, at, p.stream, p.shard, r);
    ReducerKeeps(AggregatorOf(cfg), p.buffer, e, good);
    var (b, closed) := Runs.Step(AggregatorOf(cfg), p.buffer, e);
    assert forall r :: r in b.active ==> good(r);
    assert GoodPlace(cfg, world, at, p.(buffer := b));
    if closed.Some? {
      assert forall r :: r in closed.value ==> good(r);
      assert GoodBatch(cfg, world, at, p.stream, Batch(p.shard, closed.value));
    }
  }

  lemma CollectingGood(cfg: Config, world: World, p: Place, e: Runs.Event<Batch<Buffered>>, at: real)
    requires p.Collecting? && GoodPlace(cfg, world, at, p)
    requires e.Adding? ==> GoodBatch(cfg, world, at, p.stream, e.item)
    ensures var (b, closed) := Runs.Step(CollectorOf(cfg), p.open, e);
            GoodEffect(cfg, world, at, Effect(p.(open := b), SendingParcel(p.stream, closed), None))
  {
    hide GoodBatch, Runs.Step, R.Monotone, TotalSize, Share, Runs.TimerInv;
    C.Monotonicity(cfg);
    var good := (b: Batch<Buffered>) => GoodBatch(cfg, world, at, p.stream, b);
    ReducerKeeps(CollectorOf(cfg), p.open, e, good);
    var (b, closed) := Runs.Step(CollectorOf(cfg), p.open, e);
    assert forall x :: x in b.active ==> good(x);
    assert GoodPlace(cfg, world, at, p.(open := b));
    if closed.Some? {
      assert forall x :: x in closed.value ==> good(x);
      assert GoodPlace(cfg, world, at, Sending(p.stream, closed.value));
    }
  }

  lemma QueueingGood(cfg: Config, world: World, p: Place, act: Act, at: real)
    requires p.Queueing? && GoodPlace(cfg, world, at, p) && ActQueueing(cfg, p, act, at).Some?
    ensures GoodEffect(cfg, world, at, ActQueueing(cfg, p, act, at).value)
  {
    hide GoodBatch, L.AdmitFrom, L.Live, L.Expired, LimiterOf;
    var q := p.limiter.queue;
    L.ExpiredAndLive(q, at);
    var live, expired := L.Live(q, at), L.Expired(q, at);
    forall i | 0 <= i < |expired|
      ensures GoodBatch(cfg, world, at, p.stream, expired[i].batch) && TimedOut(cfg, expired[i].batch, at)
    {
      assert expired[i] in expired;
      assert GoodQueued(cfg, world, at, p.stream, p.shard, expired[i]);
    }
    forall i | 0 <= i < |live|
      ensures GoodQueued(cfg, world, at, p.stream, p.shard, live[i])
    {
      assert live[i] in live;
    }
  }

  lemma EnqueueGood(cfg: Config, world: World, p: Place, b: Batch<Buffered>, at: real)
    requires p.Queueing? && GoodPlace(cfg, world, at, p) && GoodBatch(cfg, world, at, p.stream, b) && b.shard == p.shard
    ensures var l := L.Enqueue(LimiterOf(cfg), p.limiter, b, at + cfg.policy.ttl);
            GoodPlace(cfg, world, at, p.(limiter := l,
                                         history := p.history + [L.Enqueuing(b, at + cfg.policy.ttl, at)]))
  {
    hide S.InsertRight, LimiterOf, WellHashed, AllFailed, InShard, Genuine, Times, FitsBatch;
    var x := L.Pending(b, at + cfg.policy.ttl);
    InsertedMembers(L.ByDeadline(LimiterOf(cfg)), p.limiter.queue, x);
    assert GoodQueued(cfg, world, at, p.stream, p.shard, x);
  }

  lemma {:induction false} InsertedMembers<T>(leq: (T, T) -> bool, q: seq<T>, x: T)
    ensures forall y :: y in S.InsertRight(leq, q, x) ==> y in q || y == x
  {
    if q != [] && !leq(Last(q), x) {
      InsertedMembers(leq, Front(q), x);
    }
  }

  lemma {:induction false} FlattenGood(cfg: Config, world: World, now: real, stream: string, bs: seq<Batch<Buffered>>)
    requires forall b :: b in bs ==> GoodBatch(cfg, world, now, stream, b)
    ensures forall r :: r in Flatten(bs) ==> GoodRecord(cfg, world, now, stream, r)
  {
    hide GoodRecord, InShard;
    if bs != [] {
      FlattenGood(cfg, world, now, stream, Front(bs));
      assert Last(bs) in bs;
    }
  }

  lemma ReceivedGood(cfg: Config, world: World, now: real, stream: string, o: SendOutcome<Buffered>)
    requires forall b :: b in o.batchItems ==> GoodBatch(cfg, world, now, stream, b)
    requires o.requestError.None? ==>
               |o.perRecord| == |o.batchItems| && forall i :: 0 <= i < |o.perRecord| ==>
                   o.perRecord[i].batch == o.batchItems[i]
    ensures GoodPlace(cfg, world, now, Received(cfg, stream, o))
  {
    hide GoodRecord, GoodBatch, Flatten, RuleError, RuleAll;
    FlattenGood(cfg, world, now, stream, o.batchItems);
  }

  /** This settling does not come sooner after the last one than `gap`. */
  ghost predicate SpacedSettling(cfg: Config, gap: real, p: Place, act: Act, at: real) {
    p.Handling? && act.Settling? && p.ruled != [] && p.ruled[0].0.attempts != [] ==>
      SettledAt(cfg, p.ruled[0].0) + gap <= at
  }

  lemma SettleInTime(cfg: Config, world: World, r: Buffered, t: Trip)
    requires AllFailed(r.attempts) && InTime(cfg, world, t.now, r) && world.gap >= 0.0
    requires r.attempts != [] ==> SettledAt(cfg, r) + world.gap <= t.now
    ensures var (r', v) := Settle(cfg.policy, r, t.startedAt, t.endedAt, t.ruling, t.now);
            && (v.Finished? && |v.result.attempts| > 3 ==> Times(|v.result.attempts| - 3, world.gap) <= cfg.policy.ttl)
            && (v.Retried? ==> InTime(cfg, world, t.now, r'))
  {
    SettleHistory(cfg.policy, r, t);
    var (r', v) := Settle(cfg.policy, r, t.startedAt, t.endedAt, t.ruling, t.now);
    if v.Finished? && |v.result.attempts| > 3 {
      TimesMonotone(|v.result.attempts| - 3, |r.attempts| - 1, world.gap);
    }
  }

  lemma {:induction false} TimesMonotone(m: nat, n: nat, gap: real)
    requires m <= n && gap >= 0.0
    ensures Times(m, gap) <= Times(n, gap)
  {
    if m < n {
      TimesMonotone(m, n - 1, gap);
    }
  }

  lemma SettleGood(cfg: Config, world: World, stream: string, r: Buffered, t: Trip)
    requires GoodRecord(cfg, world, t.now, stream, r) && world.gap >= 0.0
    requires r.attempts != [] ==> SettledAt(cfg, r) + world.gap <= t.now
    ensures var (r', v) := Settle(cfg.policy, r, t.startedAt, t.endedAt, t.ruling, t.now);
            && (v.Finished? ==> GoodResult(cfg, world, v.result))
            && (v.Retried? ==> GoodRecord(cfg, world, t.now, stream, r'))
  {
    hide Settle, AllFailed, InTime, Times;
    SettleHistory(cfg.policy, r, t);
    SettleInTime(cfg, world, r, t);
  }

  lemma HandlingGood(cfg: Config, world: World, map': M.State, p: Place, act: Act, at: real)
    requires p.Handling? && GoodPlace(cfg, world, at, p) && ActHandling(cfg, map', p, act, at).Some?
    requires world.gap >= 0.0 && SpacedSettling(cfg, world.gap, p, act, at)
    ensures GoodEffect(cfg, world, at, ActHandling(cfg, map', p, act, at).value)
  {
    hide GoodRecord, Settle, Rule, GoodResult, Routable, GoodBatch;
    if act.Settling? {
      assert p.ruled[0] in p.ruled;
      SettleGood(cfg, world, p.stream, p.ruled[0].0, Trip(p.startedAt, p.endedAt, p.ruled[0].1, at));
      assert GoodPlace(cfg, world, at, p.(ruled := p.ruled[1..]));
      var (record, v) := Settle(cfg.policy, p.ruled[0].0, p.startedAt, p.endedAt, p.ruled[0].1, at);
      if v.Retried? {
        assert GoodPlace(cfg, world, at, Registered(p.stream, record));
      }
    } else {
      var pr := p.waiting[0];
      assert pr in p.waiting;
      BatchRecordsGood(cfg, world, at, p.stream, pr.batch);
      var w := RuleItems(cfg.policy, pr, HashOf(), Lookup(map'));
      forall x | x in w
        ensures GoodRecord(cfg, world, at, p.stream, x.0)
      {
        assert x.0 in pr.batch.items;
      }
    }
  }

  lemma BatchRecordsGood(cfg: Config, world: World, now: real, stream: string, b: Batch<Buffered>)
    requires GoodBatch(cfg, world, now, stream, b)
    ensures forall r :: r in b.items ==> GoodRecord(cfg, world, now, stream, r)
  {
    hide GoodRecord, FitsBatch;
  }

  lemma ActGood(cfg: Config, world: World, map': M.State, p: Place, act: Act, at: real)
    requires Lawful(cfg.codec) && GoodPlace(cfg, world, at, p) && GoodMap(world, StreamOf(p), map')
    requires ActAt(cfg, map', p, act, at).Some? && world.gap >= 0.0 && SpacedSettling(cfg, world.gap, p, act, at)
    ensures GoodEffect(cfg, world, at, ActAt(cfg, map', p, act, at).value)
  {
    hide R.Flush, R.Fire, AggregatorOf, CollectorOf, ActHandling, ActQueueing, GoodBatch, Received, GoodResult,
      M.Predict, WellHashed, Lawful, GoodMap, InShard, Runs.TimerInv, InTime;
    match p
    case Buffering(_, _, _) =>
      BufferingGood(cfg, world, p, if act.Flushing? then Runs.Flushing(at) else Runs.Firing(act.id, at), at);
    case Collecting(_, _) =>
      CollectingGood(cfg, world, p, if act.Flushing? then Runs.Flushing(at) else Runs.Firing(act.id, at), at);
    case Queueing(_, _, _, _, _) => QueueingGood(cfg, world, p, act, at);
    case Handling(_, _, _, _, _, _) => HandlingGood(cfg, world, map', p, act, at);
    case Registered(stream, record) =>
      WellHashedInRange(cfg, record);
      PredictionFits(world, stream, map', record.hashKey);
    case Sending(stream, batches) =>
      ReceivedGood(cfg, world, at, stream, Send(batches, act.response, act.startedAt, at).value);
    case Expired(stream, batch) =>
      ReceivedGood(cfg, world, at, stream, SendOutcome(at, at, Some((EXPIRED, EXPIRED_IN_QUEUE)), [], [batch]));
  }

  lemma HandGood(cfg: Config, world: World, parcel: Place, stage: Place, at: real)
    requires GoodPlace(cfg, world, at, parcel) && GoodPlace(cfg, world, at, stage)
    requires HandTo(cfg, parcel, stage, at).Some? && Destination(parcel) == KeyOf(stage)
    ensures GoodEffect(cfg, world, at, HandTo(cfg, parcel, stage, at).value)
  {
    hide R.Add, AggregatorOf, CollectorOf, LimiterOf, GoodBatch, Routable, L.Enqueue, Runs.TimerInv;
    match parcel
    case Predicted(_, _, record) => BufferingGood(cfg, world, stage, Runs.Adding(record, at), at);
    case Closed(_, batch) => EnqueueGood(cfg, world, stage, batch, at);
    case Admitted(_, batch) => CollectingGood(cfg, world, stage, Runs.Adding(batch, at), at);
  }
}
