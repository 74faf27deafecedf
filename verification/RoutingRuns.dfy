/** Theorems about the records in flight, over every run. */
module RoutingRuns {
  import opened Common
  import opened Aggregation
  import opened Records
  import opened Hashing
  import opened Retrier
  import opened Pipeline
  import opened Routing
  import opened Requests
  import PR = PipelineRuns
  import Runs = ReducerRuns
  import RT = RoundTrip
  import R = ReducerSpec
  import L = Limiter
  import M = ShardMap

  // ---- Every run ----

  ghost predicate StagesDistinct(ps: seq<Place>) {
    forall i, j :: 0 <= i < j < |ps| && KeyOf(ps[i]).Some? ==> KeyOf(ps[i]) != KeyOf(ps[j])
  }

  ghost predicate GoodState(cfg: Config, world: World, st: State) {
    && GoodPlaces(cfg, world, st.now, st.places)
    && (forall stream :: stream in st.maps ==> GoodMap(world, stream, st.maps[stream]))
    && (forall t :: t in st.ledger.results ==> GoodResult(cfg, world, st.ledger.results[t]))
    && StagesDistinct(st.places)
  }

  /** Every list the service returns tiles the hash space with the ranges of
      `ranges`; no condition if there are none. */
  ghost predicate Truthful(ranges: Ranges, steps: seq<Step>) {
    forall i :: 0 <= i < |steps| && steps[i].Mapping? && steps[i].event.Installing? ==>
      Agrees(ranges, steps[i].stream, steps[i].event.list)
  }

  lemma PlacesLater(cfg: Config, world: World, now: real, later: real, ps: seq<Place>)
    requires GoodPlaces(cfg, world, now, ps) && now <= later
    ensures GoodPlaces(cfg, world, later, ps)
  {
    hide GoodPlace;
    forall i | 0 <= i < |ps|
      ensures GoodPlace(cfg, world, later, ps[i])
    {
      PlaceLater(cfg, world, now, later, ps[i]);
    }
  }

  /** The stage stays what it is, and what is sent off is no stage. */
  ghost predicate KeepsKeys(p: Place, e: Effect) {
    KeyOf(e.place) == KeyOf(p) && forall i :: 0 <= i < |e.more| ==> KeyOf(e.more[i]).None?
  }

  lemma ActKeepsKeys(cfg: Config, map': M.State, p: Place, act: Act, at: real)
    requires ActAt(cfg, map', p, act, at).Some?
    ensures KeepsKeys(p, ActAt(cfg, map', p, act, at).value)
  {
    hide R.Flush, R.Fire, L.Drain, L.DrainForce, AggregatorOf, CollectorOf, LimiterOf, RuleItems, Settle, Rulings, Send,
      M.Predict;
  }

  lemma HandKeepsKeys(cfg: Config, parcel: Place, stage: Place, at: real)
    requires HandTo(cfg, parcel, stage, at).Some?
    ensures KeepsKeys(stage, HandTo(cfg, parcel, stage, at).value)
  {
  }

  lemma ApplyGood(cfg: Config, world: World, st: State, i: nat, e: Effect, at: real)
    requires GoodState(cfg, world, st.(now := at)) && i < |st.places|
    requires GoodEffect(cfg, world, at, e) && KeepsKeys(st.places[i], e)
    ensures GoodState(cfg, world, Apply(st, i, e, at))
  {
    hide GoodPlace, GoodMap, GoodResult;
  }

  lemma LaterState(cfg: Config, world: World, st: State, at: real)
    requires GoodState(cfg, world, st) && st.now <= at
    ensures GoodState(cfg, world, st.(now := at))
  {
    hide GoodPlace, GoodMap, GoodResult;
    PlacesLater(cfg, world, st.now, at, st.places);
  }

  lemma AddPlace(cfg: Config, world: World, st: State, p: Place)
    requires GoodState(cfg, world, st) && GoodPlace(cfg, world, st.now, p)
    requires KeyOf(p).Some? ==> !HasStage(st.places, KeyOf(p).value)
    ensures GoodState(cfg, world, st.(places := st.places + [p]))
  {
    hide GoodPlace, GoodMap, GoodResult;
  }

  lemma ActingGood(cfg: Config, world: World, st: State, i: nat, act: Act, at: real)
    requires Lawful(cfg.codec) && GoodState(cfg, world, st) && world.gap >= 0.0
    requires i < |st.places| ==> SpacedSettling(cfg, world.gap, st.places[i], act, at)
    ensures GoodState(cfg, world, Exec(cfg, st, Acting(i, act, at)))
  {
    hide GoodPlace, GoodMap, GoodResult, ActAt, Apply, GoodEffect, KeepsKeys, StagesDistinct;
    if i < |st.places| && at >= st.now && EndOfAct(act, at) >= at {
      var p, map' := st.places[i], MapFor(cfg, st, StreamOf(st.places[i]));
      LaterState(cfg, world, st, at);
      NewMapGood(cfg.shardMap, world, StreamOf(p), st.now);
      var e := ActAt(cfg, map', p, act, at);
      if e.Some? {
        ActGood(cfg, world, map', p, act, at);
        ActKeepsKeys(cfg, map', p, act, at);
        ApplyGood(cfg, world, st, i, e.value, at);
        AppliedLater(st, i, e.value, at, EndOfAct(act, at));
        LaterState(cfg, world, Apply(st, i, e.value, at), EndOfAct(act, at));
      }
    }
  }

  lemma AppliedLater(st: State, i: nat, e: Effect, at: real, later: real)
    requires i < |st.places|
    ensures Apply(st, i, e, at).(now := later) == Apply(st, i, e, later)
    ensures Apply(st, i, e, at).now == at
  {
  }

  lemma HandingGood(cfg: Config, world: World, st: State, j: nat, i: nat, at: real)
    requires GoodState(cfg, world, st)
    ensures GoodState(cfg, world, Exec(cfg, st, Handing(j, i, at)))
  {
    hide GoodPlace, GoodMap, GoodResult, HandTo, Apply, GoodEffect, KeepsKeys;
    if i < |st.places| && j < |st.places| && at >= st.now
       && Destination(st.places[j]).Some? && Destination(st.places[j]) == KeyOf(st.places[i]) {
      LaterState(cfg, world, st, at);
      var e := HandTo(cfg, st.places[j], st.places[i], at);
      if e.Some? {
        assert i != j;
        HandGood(cfg, world, st.places[j], st.places[i], at);
        HandKeepsKeys(cfg, st.places[j], st.places[i], at);
        DoneIsGood(cfg, world, at);
        ApplyGood(cfg, world, st.(places := st.places[j := Done]), i, e.value, at);
      }
    }
  }

  lemma DoneIsGood(cfg: Config, world: World, now: real)
    ensures GoodPlace(cfg, world, now, Done)
  {
  }

  /** The records accepted so far are those of `world`. */
  ghost predicate Recalled(world: World, st: State) {
    forall t :: t in st.ledger.accepted ==> t in world.origin && world.origin[t] == st.ledger.accepted[t]
  }

  lemma NewRecordGood(cfg: Config, stream: string, world: World, st: State, step: Step, b: Buffered)
    requires Ticket(stream, b.id) in world.origin && world.origin[Ticket(stream, b.id)] == b
    requires step.Registering? && step.record.partitionKey != ""
    requires BuildBuffered(cfg.codec, st.ledger.nextId, step.record, step.at, cfg.bufferedTime) == Ok(b)
    ensures GoodPlace(cfg, world, step.at, Registered(stream, b))
  {
  }

  lemma RegisteringGood(cfg: Config, world: World, st: State, step: Step)
    requires GoodState(cfg, world, st) && step.Registering? && Recalled(world, Exec(cfg, st, step))
    ensures GoodState(cfg, world, Exec(cfg, st, step))
  {
    hide GoodPlace, GoodMap, GoodResult, StagesDistinct, HashKey;
    if st.ledger.starting > 0 && st.now <= step.at && step.record.partitionKey != "" && Started(cfg, st, step.stream) {
      LaterState(cfg, world, st, step.at);
      var b := BuildBuffered(cfg.codec, st.ledger.nextId, step.record, step.at, cfg.bufferedTime);
      if b.Ok? {
        assert Ticket(step.stream, b.value.id) in Exec(cfg, st, step).ledger.accepted;
        NewRecordGood(cfg, step.stream, world, st, step, b.value);
        AddPlace(cfg, world, st.(now := step.at), Registered(step.stream, b.value));
      }
    }
  }

  lemma ReportingGood(cfg: Config, world: World, st: State, i: nat, at: real)
    requires GoodState(cfg, world, st)
    ensures GoodState(cfg, world, Exec(cfg, st, Reporting(i, at)))
  {
    hide GoodRecord, GoodBatch, GoodMap, GoodResult, M.Invalidate;
    if i < |st.places| && at >= st.now && st.places[i].Handling? && st.places[i].reports != [] {
      var p, m := st.places[i], MapFor(cfg, st, st.places[i].stream);
      LaterState(cfg, world, st, at);
      NewMapGood(cfg.shardMap, world, p.stream, st.now);
      MapStepKeeps(cfg.shardMap, world, p.stream, m, M.Invalidating(at, Some(p.reports[0])));
      assert GoodPlace(cfg, world, at, p);
      assert GoodPlace(cfg, world, at, p.(reports := p.reports[1..]));
      hide GoodPlace;
    }
  }

  lemma StepGood(cfg: Config, world: World, st: State, step: Step)
    requires Lawful(cfg.codec) && GoodState(cfg, world, st) && world.gap >= 0.0
    requires step.Acting? && step.i < |st.places| ==>
              SpacedSettling(cfg, world.gap, st.places[step.i], step.act, step.at)
    requires Recalled(world, Exec(cfg, st, step))
    requires step.Mapping? && step.event.Installing? ==> Agrees(world.ranges, step.stream, step.event.list)
    ensures GoodState(cfg, world, Exec(cfg, st, step))
  {
    hide GoodPlace, GoodMap, GoodResult, Apply, ActAt, HandTo, StagesDistinct, Agrees, Lawful, BuildBuffered, Recalled,
      SpacedSettling;
    match step
    case Acquiring =>
    case Registering(_, _, _) => RegisteringGood(cfg, world, st, step);
    case Opening(key, at) =>
      if at >= st.now && !HasStage(st.places, key) && !(key.kind.CollectorKind? && key.shard.Some?) {
        LaterState(cfg, world, st, at);
        NewStageGood(cfg, world, key, at);
        AddPlace(cfg, world, st.(now := at), NewStage(cfg, key, at));
      }
    case Acting(i, act, at) => ActingGood(cfg, world, st, i, act, at);
    case Handing(j, i, at) => HandingGood(cfg, world, st, j, i, at);
    case Reporting(i, at) => ReportingGood(cfg, world, st, i, at);
    case Mapping(stream, event) =>
      NewMapGood(cfg.shardMap, world, stream, st.now);
      MapStepKeeps(cfg.shardMap, world, stream, MapFor(cfg, st, stream), event);
  }

  lemma NewStageGood(cfg: Config, world: World, key: Key, at: real)
    requires !(key.kind.CollectorKind? && key.shard.Some?)
    ensures GoodPlace(cfg, world, at, NewStage(cfg, key, at)) && KeyOf(NewStage(cfg, key, at)) == Some(key)
  {
  }

  /** Registration only ever adds to the accepted records. */
  lemma StepAccepts(cfg: Config, st: State, step: Step)
    requires forall t :: t in st.ledger.accepted ==> t.id < st.ledger.nextId
    ensures var l, l' := st.ledger, Exec(cfg, st, step).ledger;
            forall t :: t in l.accepted ==> t in l'.accepted && l'.accepted[t] == l.accepted[t]
  {
    hide ActAt, HandTo, BuildBuffered, Settled, NewStage, MapFor, StreamOf, KeyOf, Destination;
    var l := st.ledger;
    SettledAccepts(l);
    match step
    case Registering(stream, record, at) =>
      var b := BuildBuffered(cfg.codec, l.nextId, record, at, cfg.bufferedTime);
      assert b.Ok? ==> Register(l, stream, b.value).accepted == l.accepted[Ticket(stream, l.nextId) := b.value];
    case Acting(_, _, _) => assert Exec(cfg, st, step).ledger.accepted == l.accepted;
    case Handing(_, _, _) => assert Exec(cfg, st, step).ledger.accepted == l.accepted;
    case _ =>
  }

  lemma SettledAccepts(l: Ledger)
    ensures forall f :: Settled(l, f).accepted == l.accepted
  {
  }

  lemma AcceptedGrows(cfg: Config, start: real, steps: seq<Step>, world: World)
    requires steps != [] && Recalled(world, Run(cfg, Initial(cfg, start), steps))
    ensures Recalled(world, Run(cfg, Initial(cfg, start), Front(steps)))
  {
    hide Exec, PR.Placed;
    PR.RunConserves(cfg, start, Front(steps));
    StepAccepts(cfg, Run(cfg, Initial(cfg, start), Front(steps)), Last(steps));
  }

  /** Settlings of one record are at least `gap` apart, in the whole run. */
  ghost predicate Spaced(cfg: Config, gap: real, start: real, steps: seq<Step>) {
    steps == [] ||
    (&& Spaced(cfg, gap, start, Front(steps))
     && var st, step := Run(cfg, Initial(cfg, start), Front(steps)), Last(steps);
        step.Acting? && step.i < |st.places| && st.now <= step.at ==>
          SpacedSettling(cfg, gap, st.places[step.i], step.act, step.at))
  }

  /** Without a gap that is no condition. */
  lemma NoGap(cfg: Config, world: World, now: real, p: Place, act: Act, at: real)
    requires GoodPlace(cfg, world, now, p) && now <= at
    ensures SpacedSettling(cfg, 0.0, p, act, at)
  {
    if p.Handling? && p.ruled != [] {
      assert p.ruled[0] in p.ruled;
    }
  }

  lemma {:induction false} RunGoodFor(cfg: Config, world: World, start: real, steps: seq<Step>)
    requires Lawful(cfg.codec) && Truthful(world.ranges, steps) && Recalled(world, Run(cfg, Initial(cfg, start), steps))
    requires world.gap == 0.0 || (world.gap > 0.0 && Spaced(cfg, world.gap, start, steps))
    ensures GoodState(cfg, world, Run(cfg, Initial(cfg, start), steps))
  {
    hide GoodPlaces, Exec, Agrees, Recalled, StagesDistinct, GoodMap, GoodResult, SpacedSettling;
    if steps == [] {
      InitialGood(cfg, world, start);
    } else {
      assert forall i :: 0 <= i < |Front(steps)| ==> Front(steps)[i] == steps[i];
      AcceptedGrows(cfg, start, steps, world);
      RunGoodFor(cfg, world, start, Front(steps));
      assert Last(steps) == steps[|steps| - 1];
      var st, step := Run(cfg, Initial(cfg, start), Front(steps)), Last(steps);
      if step.Acting? && step.i < |st.places| {
        if step.at < st.now {
          TooEarly(cfg, st, step);
          return;
        }
        if world.gap == 0.0 {
          OnePlace(cfg, world, st.now, st.places, step.i);
          NoGap(cfg, world, st.now, st.places[step.i], step.act, step.at);
        }
      }
      StepGood(cfg, world, st, step);
    }
  }

  lemma OnePlace(cfg: Config, world: World, now: real, ps: seq<Place>, i: nat)
    requires GoodPlaces(cfg, world, now, ps) && i < |ps|
    ensures GoodPlace(cfg, world, now, ps[i])
  {
  }

  lemma TooEarly(cfg: Config, st: State, step: Step)
    requires step.Acting? && step.at < st.now
    ensures Exec(cfg, st, step) == st
  {
  }

  ghost function WorldOf(ranges: Ranges, gap: real, st: State): World {
    World(ranges, st.ledger.accepted, gap)
  }

  /** The invariant of every run, measured against the records it accepted. */
  lemma RunIsGood(cfg: Config, ranges: Ranges, gap: real, start: real, steps: seq<Step>)
    requires Lawful(cfg.codec) && Truthful(ranges, steps)
    requires gap == 0.0 || (gap > 0.0 && Spaced(cfg, gap, start, steps))
    ensures var st := Run(cfg, Initial(cfg, start), steps);
            GoodState(cfg, WorldOf(ranges, gap, st), st)
  {
    hide Run, GoodState, Truthful, Lawful, Spaced;
    RunGoodFor(cfg, WorldOf(ranges, gap, Run(cfg, Initial(cfg, start), steps)), start, steps);
  }

  lemma InitialGood(cfg: Config, world: World, start: real)
    ensures GoodState(cfg, world, Initial(cfg, start))
  {
  }

  // ---- Consequences ----

  /** In every run whose shard lists tile the hash space: every record of a
      batch for shard s hashes into the range of s, and so does the key under
      which the service routes the batch. */
  lemma BatchesArePure(cfg: Config, ranges: Ranges, start: real, steps: seq<Step>, i: nat, k: nat, s: int)
    requires Lawful(cfg.codec) && Truthful(ranges, steps) && ranges.Some?
    requires var st := Run(cfg, Initial(cfg, start), steps);
             && i < |st.places| && st.places[i].Sending?
             && k < |st.places[i].batches| && st.places[i].batches[k].shard == Some(s)
    ensures var p := Run(cfg, Initial(cfg, start), steps).places[i];
            var b, range := p.batches[k], Some(ranges.value(p.stream, s));
            && b.items != []
            && (forall r :: r in b.items ==> InRange(range, r.hashKey))
            && (var h := HashKey(cfg.codec, RoutingPartitionKey(b), RoutingExplicitHashKey(b));
                h == Ok(b.items[0].hashKey) && InRange(range, h.value))
  {
    hide Run, HashKey, RoutingPartitionKey, RoutingExplicitHashKey, Lawful, Truthful;
    RunIsGood(cfg, ranges, 0.0, start, steps);
    var st := Run(cfg, Initial(cfg, start), steps);
    var b := st.places[i].batches[k];
    assert GoodPlace(cfg, WorldOf(ranges, 0.0, st), st.now, st.places[i]);
    assert b in st.places[i].batches && b.items[0] in b.items;
    RoutingHash(cfg.codec, b);
  }

  ghost predicate Lists(list: seq<M.Shard>, s: int) {
    exists o :: 0 <= o < |list| && list[o].id == s
  }

  /** While the predicted shard is still one of the service's shards, a success
      answered by the shard that owns the routing key is accepted for every
      record of the batch, whatever the cached map knows: Wrong Shard can only
      follow a reshard. */
  lemma SuccessIsNeverWrongShard(cfg: Config, ranges: Ranges, start: real, steps: seq<Step>, i: nat, k: nat,
                                 list: seq<M.Shard>, slot: Slot, r: Buffered, lookup: int -> Option<(int, int)>)
    requires Lawful(cfg.codec) && Truthful(ranges, steps) && ranges.Some?
    requires var st := Run(cfg, Initial(cfg, start), steps);
             && i < |st.places| && st.places[i].Sending? && k < |st.places[i].batches|
             && Agrees(ranges, st.places[i].stream, list)
             && (var b := st.places[i].batches[k];
                 && r in b.items && (b.shard.Some? ==> Lists(list, b.shard.value))
                 && slot.sequenceNumber.Some? && slot.sequenceNumber.value != ""
                 && var h := HashKey(cfg.codec, RoutingPartitionKey(b), RoutingExplicitHashKey(b));
                    h.Ok? && (ParseShardId(slot.shardId).Some? ==>
                              ParseShardId(slot.shardId) == M.LinearOwner(list, h.value)))
    ensures var b := Run(cfg, Initial(cfg, start), steps).places[i].batches[k];
            Rule(cfg.policy, BuildPerRecord(b, slot), r.hashKey, lookup) == Accept(slot.shardId, slot.sequenceNumber)
  {
    hide Run, HashKey, RoutingPartitionKey, RoutingExplicitHashKey, Lawful, Truthful, M.LinearOwner, ParseShardId;
    var p := Run(cfg, Initial(cfg, start), steps).places[i];
    var b := p.batches[k];
    if b.shard.Some? {
      var s := b.shard.value;
      BatchesArePure(cfg, ranges, start, steps, i, k, s);
      var h := b.items[0].hashKey;
      var o :| 0 <= o < |list| && list[o].id == s;
      assert M.Contains(list[o], h);
      M.LinearFindsOwner(list, h, o);
    }
  }

  /** Soundness of the retrier's check, for batches that have a shard: whatever
      the cached map holds by then, a record is accepted from an actual shard only
      if its hash key lies in that shard's range. */
  lemma AcceptedIsOnItsShard(cfg: Config, ranges: Ranges, start: real, steps: seq<Step>, i: nat, k: nat, r: Buffered)
    requires Lawful(cfg.codec) && Truthful(ranges, steps) && ranges.Some?
    requires var st := Run(cfg, Initial(cfg, start), steps);
             && i < |st.places| && st.places[i].Handling? && k < |st.places[i].waiting|
             && (var pr := st.places[i].waiting[k];
                 pr.success && pr.batch.shard.Some? && ParseShardId(pr.shardId).Some? && r in pr.batch.items)
    ensures var st := Run(cfg, Initial(cfg, start), steps);
            var p, pr := st.places[i], st.places[i].waiting[k];
            Rule(cfg.policy, pr, r.hashKey, Lookup(MapFor(cfg, st, p.stream))).Accept? ==>
              InRange(Some(ranges.value(p.stream, ParseShardId(pr.shardId).value)), r.hashKey)
  {
    hide Run, Lawful, Truthful, ParseShardId, GoodRecord, M.SnapshotOf;
    RunIsGood(cfg, ranges, 0.0, start, steps);
    var st := Run(cfg, Initial(cfg, start), steps);
    var world, p, pr := WorldOf(ranges, 0.0, st), st.places[i], st.places[i].waiting[k];
    assert GoodPlace(cfg, world, st.now, p);
    assert pr in p.waiting;
    assert Routable(cfg, world, st.now, p.stream, pr.batch.shard, r);
    NewMapGood(cfg.shardMap, world, p.stream, st.now);
    assert GoodMap(world, p.stream, MapFor(cfg, st, p.stream));
  }

  /** A batch that expires holds only records at least as old as the TTL. When
      the retrier comes to them, each finishes as expired, unless its age is the
      TTL to the instant, in which case it goes round once more. */
  lemma ExpiredBatchesAreOld(cfg: Config, start: real, steps: seq<Step>, i: nat, r: Buffered, given: real, at: real)
    requires Lawful(cfg.codec)
    requires var st := Run(cfg, Initial(cfg, start), steps);
             i < |st.places| && st.places[i].Expired? && r in st.places[i].batch.items && st.now <= given <= at
    ensures var (r', v) := Settle(cfg.policy, r, given, given, RuleError(cfg.policy, EXPIRED, EXPIRED_IN_QUEUE), at);
            && at - r.arrivalTime >= cfg.policy.ttl
            && (v.Retried? <==> at - r.arrivalTime == cfg.policy.ttl)
            && (v.Finished? ==> !v.result.success && Last(v.result.attempts).errorCode == Some(EXPIRED))
  {
    hide Run, Lawful;
    RunIsGood(cfg, None, 0.0, start, steps);
    var st := Run(cfg, Initial(cfg, start), steps);
    assert GoodPlace(cfg, WorldOf(None, 0.0, st), st.now, st.places[i]);
  }

  /** The sender is never called with an empty request or batch. */
  lemma NothingEmptyIsSent(cfg: Config, start: real, steps: seq<Step>, i: nat, response: Response, s: real, e: real)
    requires Lawful(cfg.codec)
    requires var st := Run(cfg, Initial(cfg, start), steps); i < |st.places| && st.places[i].Sending?
    ensures var p := Run(cfg, Initial(cfg, start), steps).places[i];
            && Send(p.batches, response, s, e).Ok?
            && forall k :: 0 <= k < |p.batches| ==> p.batches[k].items != []
  {
    hide Run, Lawful;
    RunIsGood(cfg, None, 0.0, start, steps);
    var st := Run(cfg, Initial(cfg, start), steps);
    assert GoodPlace(cfg, WorldOf(None, 0.0, st), st.now, st.places[i]);
    forall k | 0 <= k < |st.places[i].batches|
      ensures st.places[i].batches[k].items != []
    {
      assert st.places[i].batches[k] in st.places[i].batches;
    }
  }

  /** Every result delivered carries a non-empty history that fails up to its
      last attempt, and ends in a success exactly when the record succeeded. */
  lemma ResultsAreTerminal(cfg: Config, start: real, steps: seq<Step>, t: Ticket)
    requires Lawful(cfg.codec) && t in Run(cfg, Initial(cfg, start), steps).ledger.results
    ensures var r := Run(cfg, Initial(cfg, start), steps).ledger.results[t];
            r.attempts != [] && AllFailed(Front(r.attempts)) && (r.success <==> Last(r.attempts).success)
  {
    hide Run, Lawful, AllFailed, GoodPlace;
    RunIsGood(cfg, None, 0.0, start, steps);
  }

  // ---- Timers and retries ----

  /** In every run, each reducer of each stream that holds anything has a timer
      armed for its earliest deadline, and no other reducer has one. */
  lemma TimersAreArmed(cfg: Config, start: real, steps: seq<Step>, i: nat)
    requires Lawful(cfg.codec) && i < |Run(cfg, Initial(cfg, start), steps).places|
    ensures var p := Run(cfg, Initial(cfg, start), steps).places[i];
            && (p.Buffering? ==> Runs.TimerInv(AggregatorOf(cfg), p.buffer))
            && (p.Collecting? ==> Runs.TimerInv(CollectorOf(cfg), p.open))
  {
    hide Run, Lawful, Runs.TimerInv, Routable, GoodBatch;
    RunIsGood(cfg, None, 0.0, start, steps);
    var st := Run(cfg, Initial(cfg, start), steps);
    assert GoodPlace(cfg, WorldOf(None, 0.0, st), st.now, st.places[i]);
  }

  lemma {:induction false} TimesIsProduct(n: nat, gap: real)
    ensures Times(n, gap) == n as real * gap
  {
    if n > 0 {
      TimesIsProduct(n - 1, gap);
    }
  }

  /** At most so many gaps fit into the TTL. */
  lemma FewGaps(n: nat, gap: real, ttl: real)
    requires gap > 0.0 && ttl >= 0.0 && Times(n, gap) <= ttl
    ensures n <= (ttl / gap).Floor
  {
    TimesIsProduct(n, gap);
    if n > (ttl / gap).Floor {
      BeyondTtl(ttl, gap, n);
    }
  }

  /** In every run in which settlings of one record are at least `gap` apart, a
      record in flight was retried at most floor(ttl / gap) + 1 times, and a
      result carries at most two attempts more: the last one and its expiry. */
  lemma RetriesAreBounded(cfg: Config, gap: real, start: real, steps: seq<Step>)
    requires Lawful(cfg.codec) && gap > 0.0 && cfg.policy.ttl >= 0.0 && Spaced(cfg, gap, start, steps)
    ensures var st := Run(cfg, Initial(cfg, start), steps);
            var most := (cfg.policy.ttl / gap).Floor + 1;
            && (forall i, r :: 0 <= i < |st.places| && Holds(st.places[i], r) ==> |r.attempts| <= most)
            && (forall t :: t in st.ledger.results ==> |st.ledger.results[t].attempts| <= most + 2)
  {
    hide Run, Lawful, Spaced, Holds, GoodPlace, AllFailed, Times;
    RunIsGood(cfg, None, gap, start, steps);
    var st := Run(cfg, Initial(cfg, start), steps);
    var world := WorldOf(None, gap, st);
    assert (cfg.policy.ttl / gap) >= 0.0;
    forall i, r | 0 <= i < |st.places| && Holds(st.places[i], r)
      ensures |r.attempts| <= (cfg.policy.ttl / gap).Floor + 1
    {
      HeldIsGood(cfg, world, st.now, st.places[i], r);
      if r.attempts != [] {
        FewGaps(|r.attempts| - 1, gap, cfg.policy.ttl);
      }
    }
    forall t | t in st.ledger.results
      ensures |st.ledger.results[t].attempts| <= (cfg.policy.ttl / gap).Floor + 3
    {
      var a := st.ledger.results[t].attempts;
      assert GoodResult(cfg, world, st.ledger.results[t]);
      if |a| > 3 {
        FewGaps(|a| - 3, gap, cfg.policy.ttl);
      }
    }
  }

  // ---- End to end ----

  /** Record `r` is at place `p`. */
  ghost predicate Holds(p: Place, r: Buffered) {
    match p
    case Buffering(_, _, buffer) => r in buffer.active
    case Queueing(_, _, limiter, _, _) => exists q :: q in limiter.queue && r in q.batch.items
    case Collecting(_, open) => exists b :: b in open.active && r in b.items
    case Registered(_, record) => r == record
    case Predicted(_, _, record) => r == record
    case Closed(_, batch) => r in batch.items
    case Admitted(_, batch) => r in batch.items
    case Expired(_, batch) => r in batch.items
    case Sending(_, batches) => exists b :: b in batches && r in b.items
    case Handling(_, _, _, ruled, waiting, _) =>
      (exists w :: w in ruled && r == w.0) || (exists pr :: pr in waiting && r in pr.batch.items)
    case Done => false
  }

  lemma HeldIsGood(cfg: Config, world: World, now: real, p: Place, r: Buffered)
    requires GoodPlace(cfg, world, now, p) && Holds(p, r)
    ensures GoodRecord(cfg, world, now, p.stream, r)
  {
    hide GoodRecord, InShard, TimedOut;
  }

  /** Wherever a record is, however often it was retried, it is the record that
      was accepted by the same stream under its identity: only its deadline and its history have
      changed, and that history holds failures only. */
  lemma RecordsAreGenuine(cfg: Config, start: real, steps: seq<Step>, i: nat, r: Buffered)
    requires Lawful(cfg.codec)
    requires var st := Run(cfg, Initial(cfg, start), steps); i < |st.places| && Holds(st.places[i], r)
    ensures var st := Run(cfg, Initial(cfg, start), steps);
            var t := Ticket(st.places[i].stream, r.id);
            && t in st.ledger.accepted && r == st.ledger.accepted[t].(deadline := r.deadline, attempts := r.attempts)
            && AllFailed(r.attempts)
  {
    hide Run, Lawful, Holds, GoodPlace, AllFailed;
    RunIsGood(cfg, None, 0.0, start, steps);
    var st := Run(cfg, Initial(cfg, start), steps);
    HeldIsGood(cfg, WorldOf(None, 0.0, st), st.now, st.places[i], r);
  }

  /** The user records `stream` accepted under the identities of `items`. */
  ghost function AcceptedAs(accepted: map<Ticket, Buffered>, stream: string, items: seq<Buffered>): seq<UserRecord>
    requires forall m :: 0 <= m < |items| ==> Ticket(stream, items[m].id) in accepted
  {
    seq(|items|, m requires 0 <= m < |items| => accepted[Ticket(stream, items[m].id)].userRecord)
  }

  /** End to end: in every run, the entry of any batch being sent to a stream
      carries the data of exactly the records that this stream accepted under the
      identities in it. One
      record goes as its own bytes under its own key; several decode, in order,
      from the blob, as long as they fit the wire format. */
  lemma SentIsAccepted(cfg: Config, start: real, steps: seq<Step>, i: nat, k: nat, e: Entry)
    requires Lawful(cfg.codec)
    requires var st := Run(cfg, Initial(cfg, start), steps);
             i < |st.places| && st.places[i].Sending? && k < |st.places[i].batches|
    ensures var st := Run(cfg, Initial(cfg, start), steps);
            var items := st.places[i].batches[k].items;
            && (forall m :: 0 <= m < |items| ==> Ticket(st.places[i].stream, items[m].id) in st.ledger.accepted)
            && (EntryFor(cfg.codec, st.places[i].batches[k], e) ==>
                var records := AcceptedAs(st.ledger.accepted, st.places[i].stream, items);
                && (|records| == 1 ==> e.data == records[0].data && e.partitionKey == records[0].partitionKey)
                && (|records| > 1 && RT.Fits(cfg.codec, records) ==> Decode(cfg.codec, e.data) == Ok(records)))
  {
    hide Run, Lawful, Decode, RT.Fits, HashKey;
    var st := Run(cfg, Initial(cfg, start), steps);
    var b := st.places[i].batches[k];
    forall m | 0 <= m < |b.items|
      ensures var t := Ticket(st.places[i].stream, b.items[m].id);
              t in st.ledger.accepted && b.items[m].userRecord == st.ledger.accepted[t].userRecord
    {
      assert b in st.places[i].batches && b.items[m] in b.items;
      RecordsAreGenuine(cfg, start, steps, i, b.items[m]);
    }
    assert UserRecords(b.items) == AcceptedAs(st.ledger.accepted, st.places[i].stream, b.items);
  }
}
