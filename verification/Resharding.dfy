/** What a shard map learns from answers: in runs where the service tells the
    truth, nothing. It is installed once for each stream and never again, so
    every batch has a shard, and a reshard is not noticed. */
module Resharding {
  import opened Common
  import opened Aggregation
  import opened Records
  import opened Hashing
  import opened Retrier
  import opened Pipeline
  import opened Routing
  import opened RoutingRuns
  import R = ReducerSpec
  import Runs = ReducerRuns
  import L = Limiter
  import M = ShardMap
  import MR = ShardMapRuns
  import S = Sorting
  import C = Conservation

  // ---- When an answer refreshes the map ----

  /** A report changes the map, by starting a refresh, exactly when the map knows
      the shard, was not installed since, and is not refreshing already. */
  lemma ReportRefreshesIff(cfg: M.Config, m: M.State, seenAt: real, shard: int)
    ensures var m' := M.Invalidate(cfg, m, seenAt, Some(shard));
            && (m' == m || (m'.status == M.Updating && m'.loops == m.loops + 1))
            && (m' != m <==>
                  && shard in m.snapshot.shards && m.status != M.Updating
                  && (m.updatedAt.Some? ==> seenAt > m.updatedAt.value))
  {
  }

  /** The shard reported when an answer is taken up is the one that answered, and it
      is reported exactly when the answer is a success of another shard than was
      predicted and holds a record. */
  lemma ReportedIff(cfg: Config, m: M.State, p: Place, at: real, a: int)
    requires p.Handling? && p.ruled == [] && p.reports == [] && p.waiting != []
    ensures var e, pr := ActAt(cfg, m, p, Classifying, at), p.waiting[0];
            && e.Some? && e.value.place.Handling? && |e.value.place.reports| <= 1
            && (a in e.value.place.reports <==>
                  && pr.success && pr.batch.items != [] && pr.batch.shard.Some?
                  && ParseShardId(pr.shardId) == Some(a) && pr.batch.shard.value != a)
  {
    hide ParseShardId, Rule;
  }

  /** A record of a diverted answer is accepted exactly when the map knows the
      actual shard with a range that holds its key; otherwise it is retried. */
  lemma DivertedAcceptedIff(policy: Policy, m: M.State, pr: PerRecord<Buffered>, h: int)
    requires Diverted(pr)
    ensures var ruling := Rule(policy, pr, h, Lookup(m));
            && (ruling.Accept? <==> InRange(M.HashRange(m, ParseShardId(pr.shardId).value), h))
            && (!ruling.Accept? ==> ruling == TryAgain(WRONG_SHARD, WRONG_SHARD_MESSAGE))
  {
    hide ParseShardId;
  }

  // ---- When there is no prediction ----

  /** Bisecting the endings of a list runs past the end exactly when every shard
      listed ends before the key. */
  lemma BisectPastIff(list: seq<M.Shard>, h: nat)
    ensures var snap := M.SnapshotOf(list);
            M.BisectLeft(snap.endings, h, 0, |snap.endings|) == |snap.endings|
            <==> forall i :: 0 <= i < |list| ==> list[i].end < h
  {
    hide M.SnapshotOf, M.BisectLeft, M.SortedEntries;
    var snap := M.SnapshotOf(list);
    M.EndingsAscend(list);
    M.BisectSplits(snap.endings, h, 0, |snap.endings|);
    var k := M.BisectLeft(snap.endings, h, 0, |snap.endings|);
    if k == |snap.endings| {
      forall i | 0 <= i < |list|
        ensures list[i].end < h
      {
        var j := M.PositionOf(list, i);
        assert (snap.endings[j], snap.ids[j]) == (list[i].end, list[i].id);
      }
    } else {
      var i := M.ShardAt(list, k);
      assert (snap.endings[k], snap.ids[k]) == (list[i].end, list[i].id);
      assert list[i].end >= h;
    }
  }

  /** In every run, a record is left without a shard exactly when the map of its
      stream is not ready, that is refreshing again once records are put, or its
      list leaves the key beyond every shard. */
  lemma NoPredictionIff(cfg: Config, start: real, steps: seq<Step>, stream: string, h: nat)
    requires Lawful(cfg.codec)
    ensures var m := MapFor(cfg, Run(cfg, Initial(cfg, start), steps), stream);
            M.Predict(m, h) == None <==> m.status != M.Ready || forall i :: 0 <= i < |m.fetched| ==>
                m.fetched[i].end < h
  {
    hide Run, Lawful, GoodPlace, GoodResult, M.SnapshotOf, M.BisectLeft;
    var st := Run(cfg, Initial(cfg, start), steps);
    RunIsGood(cfg, None, 0.0, start, steps);
    NewMapGood(cfg.shardMap, WorldOf(None, 0.0, st), stream, st.now);
    BisectPastIff(MapFor(cfg, st, stream).fetched, h);
  }

  // ---- A service that tells the truth ----

  /** A success names a shard whose range holds the key the batch was routed by. */
  ghost predicate HonestSlot(cfg: Config, ranges: Ranges, stream: string, b: Batch<Buffered>, slot: Slot) {
    ranges.Some? && b.items != [] && slot.sequenceNumber.Some? && slot.sequenceNumber.value != ""
    && ParseShardId(slot.shardId).Some? ==>
      var h := HashKey(cfg.codec, RoutingPartitionKey(b), RoutingExplicitHashKey(b));
      h.Ok? && InRange(Some(ranges.value(stream, ParseShardId(slot.shardId).value)), h.value)
  }

  ghost predicate HonestAct(cfg: Config, ranges: Ranges, p: Place, act: Act) {
    p.Sending? && act.Answering? && act.response.Replied? && |act.response.slots| == |p.batches| ==>
      forall k :: 0 <= k < |p.batches| ==> HonestSlot(cfg, ranges, p.stream, p.batches[k], act.response.slots[k])
  }

  /** So do all answers of the run. */
  ghost predicate Honest(cfg: Config, ranges: Ranges, start: real, steps: seq<Step>) {
    steps == [] ||
    (&& Honest(cfg, ranges, start, Front(steps))
     && var st, step := Run(cfg, Initial(cfg, start), Front(steps)), Last(steps);
        step.Acting? && step.i < |st.places| ==> HonestAct(cfg, ranges, st.places[step.i], step.act))
  }

  // ---- The invariant ----

  /** Before its first list a map knows nothing; after it, it is ready, knows
      exactly that list, and no refresh runs. */
  ghost predicate SteadyMap(ranges: Ranges, stream: string, m: M.State) {
    && MR.TablesInv(m) && MR.LoopInv(m) && m.closedAt == map[]
    && (m.updatedAt.None? ==> m.status != M.Ready && m.snapshot.shards == map[])
    && (m.updatedAt.Some? ==>
          && m.status == M.Ready && m.loops == 0 && m.snapshot.shards == M.MapOf(m.fetched)
          && Agrees(ranges, stream, m.fetched))
  }

  /** A shard of the list that was installed. */
  predicate Known(m: M.State, shard: Option<int>) {
    m.updatedAt.Some? && shard.Some? && shard.value in m.snapshot.shards
  }

  /** A success answered by a shard whose range holds the batch's first key. */
  ghost predicate HonestAnswer(ranges: Ranges, stream: string, pr: PerRecord<Buffered>) {
    ranges.Some? && pr.success && ParseShardId(pr.shardId).Some? && pr.batch.items != [] ==>
      InRange(Some(ranges.value(stream, ParseShardId(pr.shardId).value)), pr.batch.items[0].hashKey)
  }

  ghost predicate SteadyPlace(ranges: Ranges, m: M.State, p: Place) {
    match p
    case Buffering(_, shard, buffer) => buffer.active != [] ==> Known(m, shard)
    case Queueing(_, _, limiter, _, _) => forall q :: q in limiter.queue ==> Known(m, q.batch.shard)
    case Collecting(_, open) => forall b :: b in open.active ==> Known(m, b.shard)
    case Registered(_, _) => m.updatedAt.Some?
    case Predicted(_, shard, _) => Known(m, shard)
    case Closed(_, batch) => Known(m, batch.shard)
    case Admitted(_, batch) => Known(m, batch.shard)
    case Expired(_, batch) => Known(m, batch.shard)
    case Sending(_, batches) => forall b :: b in batches ==> Known(m, b.shard)
    case Handling(stream, _, _, _, waiting, reports) =>
      && m.updatedAt.Some?
      && (forall pr :: pr in waiting ==> Known(m, pr.batch.shard) && HonestAnswer(ranges, stream, pr))
      && (forall a :: a in reports ==> a !in m.snapshot.shards)
    case Done => true
  }

  ghost predicate SteadyEffect(ranges: Ranges, m: M.State, e: Effect) {
    SteadyPlace(ranges, m, e.place) && forall i :: 0 <= i < |e.more| ==> SteadyPlace(ranges, m, e.more[i])
  }

  // ---- Acts ----

  /** Two shards of one tiling list that hold the same key are one. */
  lemma SameOwner(ranges: Ranges, stream: string, list: seq<M.Shard>, a: int, s: int, h: nat)
    requires ranges.Some? && Agrees(ranges, stream, list) && a in M.MapOf(list) && s in M.MapOf(list)
    requires InRange(Some(ranges.value(stream, a)), h) && InRange(Some(ranges.value(stream, s)), h)
    ensures a == s
  {
    hide M.MapOf;
    var x, y := M.MapOf(list)[a], M.MapOf(list)[s];
    var i :| 0 <= i < |list| && list[i] == x;
    var j :| 0 <= j < |list| && list[j] == y;
    assert M.Contains(list[i], h) && M.Contains(list[j], h);
  }

  /** The actual shard of a diverted answer is one the map does not know. */
  lemma DivertedIsUnknown(cfg: Config, world: World, now: real, stream: string, m: M.State, pr: PerRecord<Buffered>)
    requires world.ranges.Some? && SteadyMap(world.ranges, stream, m) && Known(m, pr.batch.shard)
    requires GoodBatch(cfg, world, now, stream, pr.batch) && HonestAnswer(world.ranges, stream, pr) && Diverted(pr)
    ensures ParseShardId(pr.shardId).value !in m.snapshot.shards
  {
    hide ParseShardId, GoodRecord, FitsBatch, M.MapOf, M.Tiles;
    var a, s, first := ParseShardId(pr.shardId).value, pr.batch.shard.value, pr.batch.items[0];
    assert first in pr.batch.items;
    if a in m.snapshot.shards {
      SameOwner(world.ranges, stream, m.fetched, a, s, first.hashKey);
    }
  }

  lemma PredictsKnown(ranges: Ranges, stream: string, m: M.State, h: nat)
    requires ranges.Some? && SteadyMap(ranges, stream, m) && m.updatedAt.Some? && h <= UINT128_MAX
    ensures Known(m, M.Predict(m, h))
  {
    hide M.BisectLeft, M.SnapshotOf, M.Tiles, M.MapOf;
    var o := M.BisectFindsOwner(m.fetched, h);
  }

  lemma BufferingSteady(cfg: Config, ranges: Ranges, m: M.State, p: Place, e: Runs.Event<Buffered>)
    requires p.Buffering? && SteadyPlace(ranges, m, p) && (e.Adding? ==> Known(m, p.shard))
    ensures var (b, closed) := Runs.Step(AggregatorOf(cfg), p.buffer, e);
            SteadyEffect(ranges, m, Effect(p.(buffer := b), ClosedParcel(p.stream, p.shard, closed), None))
  {
    hide Runs.Step, R.Monotone, AggregatorOf, Known;
    C.Monotonicity(cfg);
    Runs.StepConserves(AggregatorOf(cfg), p.buffer, e);
    var (b, closed) := Runs.Step(AggregatorOf(cfg), p.buffer, e);
    var out := if closed.Some? then multiset(closed.value) else multiset{};
    assert closed.Some? ==> |out| > 0;
    if p.buffer.active == [] && !e.Adding? {
      assert multiset(b.active) + out == multiset{};
      NothingFromNothing(b.active, out);
    }
  }

  lemma NothingFromNothing<T>(s: seq<T>, out: multiset<T>)
    requires multiset(s) + out == multiset{}
    ensures s == [] && out == multiset{}
  {
    assert |multiset(s) + out| == |s| + |out|;
  }

  lemma CollectingSteady(cfg: Config, ranges: Ranges, m: M.State, p: Place, e: Runs.Event<Batch<Buffered>>)
    requires p.Collecting? && SteadyPlace(ranges, m, p) && (e.Adding? ==> Known(m, e.item.shard))
    requires Runs.TimerInv(CollectorOf(cfg), p.open)
    ensures var (b, closed) := Runs.Step(CollectorOf(cfg), p.open, e);
            SteadyEffect(ranges, m, Effect(p.(open := b), SendingParcel(p.stream, closed), None))
  {
    hide Runs.Step, R.Monotone, CollectorOf, Known, Runs.TimerInv;
    C.Monotonicity(cfg);
    var good := (b: Batch<Buffered>) => Known(m, b.shard);
    ReducerKeeps(CollectorOf(cfg), p.open, e, good);
    var (b, closed) := Runs.Step(CollectorOf(cfg), p.open, e);
    assert forall x :: x in b.active ==> good(x);
    assert closed.Some? ==> forall x :: x in closed.value ==> good(x);
  }

  lemma QueueingSteady(cfg: Config, ranges: Ranges, m: M.State, p: Place, act: Act, at: real)
    requires p.Queueing? && SteadyPlace(ranges, m, p) && ActQueueing(cfg, p, act, at).Some?
    ensures SteadyEffect(ranges, m, ActQueueing(cfg, p, act, at).value)
  {
    hide Known, L.AdmitFrom, L.Live, L.Expired, LimiterOf;
    var q := p.limiter.queue;
    L.ExpiredAndLive(q, at);
    var live, expired := L.Live(q, at), L.Expired(q, at);
    forall i | 0 <= i < |expired|
      ensures Known(m, expired[i].batch.shard)
    {
      assert expired[i] in expired;
    }
    forall i | 0 <= i < |live|
      ensures Known(m, live[i].batch.shard)
    {
      assert live[i] in live;
    }
  }

  /** What an honest reply leaves to be taken up is honest. */
  lemma RepliesAreHonest(cfg: Config, world: World, now: real, p: Place, slots: seq<Slot>, k: nat)
    requires Lawful(cfg.codec) && p.Sending? && GoodPlace(cfg, world, now, p) && |slots| == |p.batches| && k < |slots|
    requires HonestSlot(cfg, world.ranges, p.stream, p.batches[k], slots[k])
    ensures HonestAnswer(world.ranges, p.stream, BuildPerRecord(p.batches[k], slots[k]))
  {
    hide ParseShardId, HashKey, RoutingPartitionKey, RoutingExplicitHashKey, Lawful, FitsBatch;
    var b := p.batches[k];
    assert b in p.batches;
    assert b.items[0] in b.items;
    RoutingHash(cfg.codec, b);
  }

  lemma SendingSteady(cfg: Config, world: World, now: real, m: M.State, p: Place, act: Act, at: real)
    requires Lawful(cfg.codec) && p.Sending? && GoodPlace(cfg, world, now, p) && p.batches != [] && act.Answering?
    requires SteadyPlace(world.ranges, m, p) && HonestAct(cfg, world.ranges, p, act) && act.startedAt <= at
    ensures SteadyPlace(world.ranges, m, Received(cfg, p.stream,
                                                  Send(p.batches, act.response, act.startedAt, at).value))
  {
    hide HonestSlot, HonestAnswer, Lawful, GoodPlace, Known, Rulings;
    var o := Send(p.batches, act.response, act.startedAt, at).value;
    assert p.batches[0] in p.batches;
    KnownStarted(m, p.batches[0].shard);
    if o.requestError.None? {
      forall k | 0 <= k < |o.perRecord|
        ensures Known(m, o.perRecord[k].batch.shard) && HonestAnswer(world.ranges, p.stream, o.perRecord[k])
      {
        assert p.batches[k] in p.batches;
        RepliesAreHonest(cfg, world, now, p, act.response.slots, k);
      }
    }
  }

  lemma KnownStarted(m: M.State, shard: Option<int>)
    requires Known(m, shard)
    ensures m.updatedAt.Some?
  {
  }

  lemma HandlingSteady(cfg: Config, world: World, now: real, m: M.State, p: Place, act: Act, at: real)
    requires world.ranges.Some? && p.Handling? && GoodPlace(cfg, world, now, p) && SteadyMap(world.ranges, p.stream, m)
    requires SteadyPlace(world.ranges, m, p) && ActHandling(cfg, m, p, act, at).Some?
    ensures SteadyEffect(world.ranges, m, ActHandling(cfg, m, p, act, at).value)
  {
    hide GoodRecord, Settle, Rule, GoodBatch, HonestAnswer, Known, SteadyMap, Diverted;
    if act.Classifying? {
      var pr := p.waiting[0];
      assert pr in p.waiting;
      if Diverted(pr) {
        DivertedIsUnknown(cfg, world, now, p.stream, m, pr);
      }
    }
  }

  lemma ActSteady(cfg: Config, world: World, now: real, m: M.State, p: Place, act: Act, at: real)
    requires Lawful(cfg.codec) && world.ranges.Some? && GoodPlace(cfg, world, now, p)
    requires (!p.Done? ==> SteadyMap(world.ranges, p.stream, m)) && SteadyPlace(world.ranges, m, p)
    requires HonestAct(cfg, world.ranges, p, act) && ActAt(cfg, m, p, act, at).Some?
    ensures SteadyEffect(world.ranges, m, ActAt(cfg, m, p, act, at).value)
  {
    hide R.Flush, R.Fire, AggregatorOf, CollectorOf, ActHandling, ActQueueing, GoodBatch, Received, M.Predict, Lawful,
      SteadyMap, Routable, InTime, Known, HonestAct, WellHashed, Runs.TimerInv, Genuine;
    match p
    case Buffering(_, _, _) =>
      BufferingSteady(cfg, world.ranges, m, p, if act.Flushing? then Runs.Flushing(at) else Runs.Firing(act.id, at));
    case Collecting(_, _) =>
      CollectingSteady(cfg, world.ranges, m, p, if act.Flushing? then Runs.Flushing(at) else Runs.Firing(act.id, at));
    case Queueing(_, _, _, _, _) => QueueingSteady(cfg, world.ranges, m, p, act, at);
    case Handling(_, _, _, _, _, _) => HandlingSteady(cfg, world, now, m, p, act, at);
    case Registered(stream, record) =>
      WellHashedInRange(cfg, record);
      PredictsKnown(world.ranges, stream, m, record.hashKey);
    case Sending(_, _) => SendingSteady(cfg, world, now, m, p, act, at);
    case Expired(stream, batch) =>
      KnownStarted(m, batch.shard);
      GivenSteady(cfg, world.ranges, m, stream, batch, at);
  }

  lemma GivenSteady(cfg: Config, ranges: Ranges, m: M.State, stream: string, b: Batch<Buffered>, at: real)
    requires m.updatedAt.Some?
    ensures SteadyPlace(ranges, m, Received(cfg, stream,
                                            SendOutcome(at, at, Some((EXPIRED, EXPIRED_IN_QUEUE)), [], [b])))
  {
    hide Rulings;
  }

  lemma HandSteady(cfg: Config, world: World, now: real, m: M.State, parcel: Place, stage: Place, at: real)
    requires GoodPlace(cfg, world, now, stage) && SteadyPlace(world.ranges, m, parcel) &&
              SteadyPlace(world.ranges, m, stage)
    requires HandTo(cfg, parcel, stage, at).Some? && Destination(parcel) == KeyOf(stage)
    ensures SteadyEffect(world.ranges, m, HandTo(cfg, parcel, stage, at).value)
  {
    hide R.Add, AggregatorOf, CollectorOf, LimiterOf, GoodBatch, Routable, S.InsertRight, Known, Runs.TimerInv;
    match parcel
    case Predicted(_, _, record) => BufferingSteady(cfg, world.ranges, m, stage, Runs.Adding(record, at));
    case Closed(_, batch) =>
      InsertedMembers(L.ByDeadline(LimiterOf(cfg)), stage.limiter.queue, L.Pending(batch, at + cfg.policy.ttl));
    case Admitted(_, batch) => CollectingSteady(cfg, world.ranges, m, stage, Runs.Adding(batch, at));
  }

  // ---- Maps ----

  /** A map that has been installed stays what it is; only its clock goes on. */
  predicate Follows(m: M.State, m': M.State) {
    m.updatedAt.Some? ==> m' == m.(now := m'.now)
  }

  lemma PlaceFollows(ranges: Ranges, m: M.State, m': M.State, p: Place)
    requires SteadyPlace(ranges, m, p) && Follows(m, m')
    ensures SteadyPlace(ranges, m', p)
  {
    hide HonestAnswer;
  }

  lemma NewMapSteady(cfg: M.Config, ranges: Ranges, stream: string, now: real)
    ensures SteadyMap(ranges, stream, M.Initial(cfg, now))
  {
    assert M.SnapshotOf([]).endings == [] && M.SnapshotOf([]).ids == [];
  }

  lemma MapStepSteady(cfg: M.Config, ranges: Ranges, stream: string, m: M.State, e: M.Event)
    requires SteadyMap(ranges, stream, m) && !e.Invalidating? && (e.Starting? ==> m.status == M.Invalid)
    requires e.Installing? ==> Agrees(ranges, stream, e.list)
    ensures SteadyMap(ranges, stream, M.Step(cfg, m, e)) && Follows(m, M.Step(cfg, m, e))
  {
    hide M.SnapshotOf, M.MapOf, Agrees, M.ClosingTime;
    MR.StepGoesOn(cfg, m, e);
    var m' := M.Step(cfg, m, e);
    if e.Installing? && m.loops > 0 && e.at >= m.now {
      assert m'.closedAt == map[] && m'.snapshot.shards == M.MapOf(e.list);
    }
    if e.Cleaning? && m.status == M.Ready && e.at >= m.now {
      assert m'.closedAt == map[] && m'.snapshot.shards == m.snapshot.shards;
    }
  }

  // ---- States ----

  ghost predicate SteadyState(cfg: Config, ranges: Ranges, st: State) {
    && (forall stream :: stream in st.maps ==> SteadyMap(ranges, stream, st.maps[stream]))
    && (forall i :: 0 <= i < |st.places| ==>
          SteadyPlace(ranges, MapFor(cfg, st, StreamOf(st.places[i])), st.places[i]))
  }

  lemma EveryMapSteady(cfg: Config, ranges: Ranges, st: State, stream: string)
    requires SteadyState(cfg, ranges, st)
    ensures SteadyMap(ranges, stream, MapFor(cfg, st, stream))
  {
    hide SteadyMap, SteadyPlace;
    NewMapSteady(cfg.shardMap, ranges, stream, st.now);
  }

  ghost predicate AllFollow(cfg: Config, st: State, st': State) {
    forall stream :: Follows(MapFor(cfg, st, stream), MapFor(cfg, st', stream))
  }

  /** The places of `st'` are those of `st`, or steady. */
  lemma SteadyFrom(cfg: Config, ranges: Ranges, st: State, st': State)
    requires SteadyState(cfg, ranges, st) && AllFollow(cfg, st, st')
    requires forall stream :: stream in st'.maps ==> SteadyMap(ranges, stream, st'.maps[stream])
    requires |st.places| <= |st'.places|
    requires forall i :: 0 <= i < |st'.places| ==>
               || (i < |st.places| && st'.places[i] == st.places[i])
               || SteadyPlace(ranges, MapFor(cfg, st, StreamOf(st'.places[i])), st'.places[i])
    ensures SteadyState(cfg, ranges, st')
  {
    hide SteadyMap, SteadyPlace, Follows, MapFor;
    forall i | 0 <= i < |st'.places|
      ensures SteadyPlace(ranges, MapFor(cfg, st', StreamOf(st'.places[i])), st'.places[i])
    {
      var stream := StreamOf(st'.places[i]);
      PlaceFollows(ranges, MapFor(cfg, st, stream), MapFor(cfg, st', stream), st'.places[i]);
    }
  }

  lemma SameMapsFollow(cfg: Config, st: State, st': State)
    requires st'.maps == st.maps
    ensures AllFollow(cfg, st, st')
  {
  }

  lemma ActingSteady(cfg: Config, world: World, st: State, i: nat, act: Act, at: real)
    requires Lawful(cfg.codec) && world.ranges.Some? && GoodState(cfg, world, st) && SteadyState(cfg, world.ranges, st)
    requires i < |st.places| ==> HonestAct(cfg, world.ranges, st.places[i], act)
    ensures SteadyState(cfg, world.ranges, Exec(cfg, st, Acting(i, act, at)))
  {
    hide GoodPlace, GoodMap, GoodResult, SteadyMap, SteadyPlace, ActAt, MapFor, AllFollow, HonestAct, Lawful, Settled;
    var st' := Exec(cfg, st, Acting(i, act, at));
    SameMapsFollow(cfg, st, st');
    if i < |st.places| && at >= st.now && EndOfAct(act, at) >= at {
      var p, stream := st.places[i], StreamOf(st.places[i]);
      var m := MapFor(cfg, st, stream);
      if ActAt(cfg, m, p, act, at).Some? {
        EveryMapSteady(cfg, world.ranges, st, stream);
        ActSteady(cfg, world, st.now, m, p, act, at);
        EffectStreams(cfg, m, p, act, at);
        var e := ActAt(cfg, m, p, act, at).value;
        EffectPlaces(cfg, world.ranges, st, i, e, EndOfAct(act, at));
        SteadyFrom(cfg, world.ranges, st, st');
      }
    }
  }

  /** What happens at a place stays on its stream. */
  lemma EffectStreams(cfg: Config, map': M.State, p: Place, act: Act, at: real)
    requires ActAt(cfg, map', p, act, at).Some?
    ensures var e := ActAt(cfg, map', p, act, at).value;
            StreamOf(e.place) == StreamOf(p) && forall i :: 0 <= i < |e.more| ==> StreamOf(e.more[i]) == StreamOf(p)
  {
    hide R.Flush, R.Fire, L.Drain, L.DrainForce, AggregatorOf, CollectorOf, LimiterOf, RuleItems, Settle, Rulings, Send,
      M.Predict;
  }

  lemma EffectPlaces(cfg: Config, ranges: Ranges, st: State, i: nat, e: Effect, at: real)
    requires i < |st.places|
    requires SteadyEffect(ranges, MapFor(cfg, st, StreamOf(st.places[i])), e)
    requires StreamOf(e.place) == StreamOf(st.places[i])
    requires forall k :: 0 <= k < |e.more| ==> StreamOf(e.more[k]) == StreamOf(st.places[i])
    ensures forall k :: 0 <= k < |Apply(st, i, e, at).places| ==>
              var p := Apply(st, i, e, at).places[k];
              (k < |st.places| && p == st.places[k]) || SteadyPlace(ranges, MapFor(cfg, st, StreamOf(p)), p)
  {
    hide SteadyPlace, MapFor, StreamOf;
    var ps := Apply(st, i, e, at).places;
    forall k | 0 <= k < |ps|
      ensures (k < |st.places| && ps[k] == st.places[k]) || SteadyPlace(ranges, MapFor(cfg, st, StreamOf(ps[k])), ps[k])
    {
      if k >= |st.places| {
        assert ps[k] == e.more[k - |st.places|];
      }
    }
  }

  lemma HandStreams(cfg: Config, parcel: Place, stage: Place, at: real)
    requires HandTo(cfg, parcel, stage, at).Some? && Destination(parcel) == KeyOf(stage)
    ensures var e := HandTo(cfg, parcel, stage, at).value;
            && StreamOf(parcel) == StreamOf(stage) && StreamOf(e.place) == StreamOf(stage)
            && forall i :: 0 <= i < |e.more| ==> StreamOf(e.more[i]) == StreamOf(stage)
  {
    hide R.Add, AggregatorOf, CollectorOf, LimiterOf, L.Enqueue;
  }

  lemma DoneSteady(cfg: Config, ranges: Ranges, m: M.State)
    ensures SteadyPlace(ranges, m, Done)
  {
  }

  lemma HandingSteady(cfg: Config, world: World, st: State, j: nat, i: nat, at: real)
    requires GoodState(cfg, world, st) && SteadyState(cfg, world.ranges, st)
    ensures SteadyState(cfg, world.ranges, Exec(cfg, st, Handing(j, i, at)))
  {
    hide GoodPlace, GoodMap, GoodResult, SteadyMap, SteadyPlace, HandTo, MapFor, AllFollow, Settled, StreamOf;
    var st' := Exec(cfg, st, Handing(j, i, at));
    SameMapsFollow(cfg, st, st');
    if i < |st.places| && j < |st.places| && at >= st.now
       && Destination(st.places[j]).Some? && Destination(st.places[j]) == KeyOf(st.places[i])
       && HandTo(cfg, st.places[j], st.places[i], at).Some? {
      assert i != j;
      HandStreams(cfg, st.places[j], st.places[i], at);
      var m := MapFor(cfg, st, StreamOf(st.places[i]));
      HandSteady(cfg, world, st.now, m, st.places[j], st.places[i], at);
      var mid := st.(places := st.places[j := Done]);
      DoneSteady(cfg, world.ranges, MapFor(cfg, st, StreamOf(Done)));
      SteadyFrom(cfg, world.ranges, st, mid) by {
        SameMapsFollow(cfg, st, mid);
      }
      SameNow(cfg, st, mid, StreamOf(st.places[i]));
      EffectPlaces(cfg, world.ranges, mid, i, HandTo(cfg, st.places[j], st.places[i], at).value, at);
      SameMapsFollow(cfg, mid, st');
      SteadyFrom(cfg, world.ranges, mid, st');
    }
  }

  lemma SameNow(cfg: Config, st: State, st': State, stream: string)
    requires st'.maps == st.maps && st'.now == st.now
    ensures MapFor(cfg, st', stream) == MapFor(cfg, st, stream)
  {
  }

  lemma AppendSteady(cfg: Config, ranges: Ranges, st: State, st': State, p: Place)
    requires SteadyState(cfg, ranges, st) && st'.maps == st.maps && st'.places == st.places + [p]
    requires SteadyPlace(ranges, MapFor(cfg, st, StreamOf(p)), p)
    ensures SteadyState(cfg, ranges, st')
  {
    hide SteadyMap, SteadyPlace, MapFor, AllFollow;
    SameMapsFollow(cfg, st, st');
    SteadyFrom(cfg, ranges, st, st');
  }

  lemma NewStageSteady(cfg: Config, ranges: Ranges, m: M.State, key: Key, at: real)
    ensures SteadyPlace(ranges, m, NewStage(cfg, key, at))
  {
  }

  lemma ReportingSteady(cfg: Config, ranges: Ranges, st: State, i: nat, at: real)
    requires SteadyState(cfg, ranges, st)
    ensures SteadyState(cfg, ranges, Exec(cfg, st, Reporting(i, at)))
    ensures AllFollow(cfg, st, Exec(cfg, st, Reporting(i, at)))
  {
    hide SteadyMap, HonestAnswer, Known;
    var st' := Exec(cfg, st, Reporting(i, at));
    if i < |st.places| && at >= st.now && st.places[i].Handling? && st.places[i].reports != [] {
      var p, m := st.places[i], MapFor(cfg, st, st.places[i].stream);
      assert SteadyPlace(ranges, m, p);
      assert p.reports[0] in p.reports;
      ReportRefreshesIff(cfg.shardMap, m, at, p.reports[0]);
      EveryMapSteady(cfg, ranges, st, p.stream);
      assert SteadyPlace(ranges, m, p.(reports := p.reports[1..]));
      hide SteadyPlace, M.Invalidate;
      SteadyFrom(cfg, ranges, st, st');
    }
  }

  lemma MappingSteady(cfg: Config, ranges: Ranges, st: State, stream: string, event: M.Event)
    requires SteadyState(cfg, ranges, st) && (event.Installing? ==> Agrees(ranges, stream, event.list))
    ensures SteadyState(cfg, ranges, Exec(cfg, st, Mapping(stream, event)))
    ensures AllFollow(cfg, st, Exec(cfg, st, Mapping(stream, event)))
  {
    hide SteadyMap, SteadyPlace, M.Step, Agrees;
    if Spontaneous(cfg, st, stream, event) {
      EveryMapSteady(cfg, ranges, st, stream);
      MapStepSteady(cfg.shardMap, ranges, stream, MapFor(cfg, st, stream), event);
      SteadyFrom(cfg, ranges, st, Exec(cfg, st, Mapping(stream, event)));
    }
  }

  lemma StepSteady(cfg: Config, world: World, st: State, step: Step)
    requires Lawful(cfg.codec) && world.ranges.Some? && GoodState(cfg, world, st) && SteadyState(cfg, world.ranges, st)
    requires step.Acting? && step.i < |st.places| ==> HonestAct(cfg, world.ranges, st.places[step.i], step.act)
    requires step.Mapping? && step.event.Installing? ==> Agrees(world.ranges, step.stream, step.event.list)
    ensures SteadyState(cfg, world.ranges, Exec(cfg, st, step)) && AllFollow(cfg, st, Exec(cfg, st, step))
  {
    hide GoodState, SteadyMap, SteadyPlace, ActAt, HandTo, Agrees, Lawful, BuildBuffered, HonestAct, NewStage, HasStage,
      AllFollow, Settled, M.Step, M.Invalidate, Destination, KeyOf;
    var st' := Exec(cfg, st, step);
    match step
    case Acquiring =>
      SameMapsFollow(cfg, st, st');
      SteadyFrom(cfg, world.ranges, st, st');
    case Registering(stream, record, at) =>
      SameMapsFollow(cfg, st, st');
      if |st'.places| > |st.places| {
        StartedSteady(cfg, world.ranges, st, Last(st'.places));
        AppendSteady(cfg, world.ranges, st, st', Last(st'.places));
      } else {
        SteadyFrom(cfg, world.ranges, st, st');
      }
    case Opening(key, at) =>
      SameMapsFollow(cfg, st, st');
      if |st'.places| > |st.places| {
        NewStageSteady(cfg, world.ranges, MapFor(cfg, st, StreamOf(NewStage(cfg, key, at))), key, at);
        AppendSteady(cfg, world.ranges, st, st', NewStage(cfg, key, at));
      } else {
        SteadyFrom(cfg, world.ranges, st, st');
      }
    case Acting(i, act, at) =>
      SameMapsFollow(cfg, st, st');
      ActingSteady(cfg, world, st, i, act, at);
    case Handing(j, i, at) =>
      SameMapsFollow(cfg, st, st');
      HandingSteady(cfg, world, st, j, i, at);
    case Reporting(i, at) => ReportingSteady(cfg, world.ranges, st, i, at);
    case Mapping(stream, event) => MappingSteady(cfg, world.ranges, st, stream, event);
  }

  lemma StartedSteady(cfg: Config, ranges: Ranges, st: State, p: Place)
    requires p.Registered? && Started(cfg, st, p.stream)
    ensures SteadyPlace(ranges, MapFor(cfg, st, StreamOf(p)), p)
  {
  }

  lemma {:induction false} RunIsSteady(cfg: Config, ranges: Ranges, start: real, steps: seq<Step>)
    requires Lawful(cfg.codec) && ranges.Some? && Truthful(ranges, steps) && Honest(cfg, ranges, start, steps)
    ensures SteadyState(cfg, ranges, Run(cfg, Initial(cfg, start), steps))
  {
    hide SteadyState, Exec, Agrees, Lawful, HonestAct, GoodState;
    if steps == [] {
      InitialSteady(cfg, ranges, start);
    } else {
      assert forall i :: 0 <= i < |Front(steps)| ==> Front(steps)[i] == steps[i];
      var st := Run(cfg, Initial(cfg, start), Front(steps));
      RunIsSteady(cfg, ranges, start, Front(steps));
      RunIsGood(cfg, ranges, 0.0, start, Front(steps));
      assert Last(steps) == steps[|steps| - 1];
      StepSteady(cfg, WorldOf(ranges, 0.0, st), st, Last(steps));
    }
  }

  lemma InitialSteady(cfg: Config, ranges: Ranges, start: real)
    ensures SteadyState(cfg, ranges, Initial(cfg, start))
  {
  }

  // ---- Theorems ----

  /** In every truthful run the shard map of a stream is installed once: from
      then on it never changes, whatever the service does to its shards. */
  lemma {:induction false} InstalledOnce(cfg: Config, ranges: Ranges, start: real, steps: seq<Step>, more: seq<Step>,
                                         stream: string)
    requires Lawful(cfg.codec) && ranges.Some?
    requires Truthful(ranges, steps + more) && Honest(cfg, ranges, start, steps + more)
    requires Started(cfg, Run(cfg, Initial(cfg, start), steps), stream)
    ensures var m := MapFor(cfg, Run(cfg, Initial(cfg, start), steps), stream);
            var m' := MapFor(cfg, Run(cfg, Initial(cfg, start), steps + more), stream);
            m' == m.(now := m'.now)
  {
    hide Exec, Agrees, Lawful, HonestAct, GoodState, SteadyState, MapFor;
    if more == [] {
      assert steps + more == steps;
    } else {
      var all := steps + more;
      assert Front(all) == steps + Front(more) && Last(all) == all[|all| - 1];
      assert forall i :: 0 <= i < |Front(all)| ==> Front(all)[i] == all[i];
      InstalledOnce(cfg, ranges, start, steps, Front(more), stream);
      var st := Run(cfg, Initial(cfg, start), Front(all));
      RunIsSteady(cfg, ranges, start, Front(all));
      RunIsGood(cfg, ranges, 0.0, start, Front(all));
      StepSteady(cfg, WorldOf(ranges, 0.0, st), st, Last(all));
      assert Follows(MapFor(cfg, st, stream), MapFor(cfg, Exec(cfg, st, Last(all)), stream));
    }
  }

  /** So no record is without a shard: in every truthful run every prediction and
      every batch, wherever it is, has one. */
  lemma EveryBatchHasAShard(cfg: Config, ranges: Ranges, start: real, steps: seq<Step>, i: nat)
    requires Lawful(cfg.codec) && ranges.Some? && Truthful(ranges, steps) && Honest(cfg, ranges, start, steps)
    requires i < |Run(cfg, Initial(cfg, start), steps).places|
    ensures match Run(cfg, Initial(cfg, start), steps).places[i]
            case Buffering(_, shard, buffer) => buffer.active != [] ==> shard.Some?
            case Queueing(_, _, limiter, _, _) => forall q :: q in limiter.queue ==> q.batch.shard.Some?
            case Collecting(_, open) => forall b :: b in open.active ==> b.shard.Some?
            case Predicted(_, shard, _) => shard.Some?
            case Closed(_, batch) => batch.shard.Some?
            case Admitted(_, batch) => batch.shard.Some?
            case Expired(_, batch) => batch.shard.Some?
            case Sending(_, batches) => forall b :: b in batches ==> b.shard.Some?
            case _ => true
  {
    hide Run, Lawful, Truthful, Honest, MapFor, SteadyMap;
    RunIsSteady(cfg, ranges, start, steps);
    var st := Run(cfg, Initial(cfg, start), steps);
    assert SteadyPlace(ranges, MapFor(cfg, st, StreamOf(st.places[i])), st.places[i]);
  }

  /** And a reshard is never noticed: in every truthful run an answer from another
      shard than predicted is retried as a wrong shard, for every record, though
      the shard may own it, and its report leaves the map as it is. */
  lemma ReshardIsNeverNoticed(cfg: Config, ranges: Ranges, start: real, steps: seq<Step>, i: nat, k: nat, h: int,
                              at: real)
    requires Lawful(cfg.codec) && ranges.Some? && Truthful(ranges, steps) && Honest(cfg, ranges, start, steps)
    requires var st := Run(cfg, Initial(cfg, start), steps);
             && i < |st.places| && st.places[i].Handling? && k < |st.places[i].waiting|
             && Diverted(st.places[i].waiting[k])
    ensures var st := Run(cfg, Initial(cfg, start), steps);
            var pr, m := st.places[i].waiting[k], MapFor(cfg, st, st.places[i].stream);
            && Rule(cfg.policy, pr, h, Lookup(m)) == TryAgain(WRONG_SHARD, WRONG_SHARD_MESSAGE)
            && M.Invalidate(cfg.shardMap, m, at, Some(ParseShardId(pr.shardId).value)) == m
  {
    hide Run, Lawful, Truthful, Honest, ParseShardId, SteadyMap, GoodBatch, GoodRecord, HonestAnswer, Known, MapFor;
    RunIsSteady(cfg, ranges, start, steps);
    RunIsGood(cfg, ranges, 0.0, start, steps);
    var st := Run(cfg, Initial(cfg, start), steps);
    var p, pr, world := st.places[i], st.places[i].waiting[k], WorldOf(ranges, 0.0, st);
    var m := MapFor(cfg, st, p.stream);
    assert pr in p.waiting && StreamOf(p) == p.stream;
    assert GoodPlace(cfg, world, st.now, p) && SteadyPlace(ranges, m, p);
    EveryMapSteady(cfg, ranges, st, p.stream);
    DivertedIsUnknown(cfg, world, st.now, p.stream, m, pr);
    DivertedAcceptedIff(cfg.policy, m, pr, h);
    ReportRefreshesIff(cfg.shardMap, m, at, ParseShardId(pr.shardId).value);
  }
}
