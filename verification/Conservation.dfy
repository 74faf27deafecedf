/** No record is lost, duplicated or finished twice, in any run of the
    pipeline, and the accounting of the producer agrees. */
module Conservation {
  import opened Common
  import opened Totals
  import opened Records
  import opened Retrier
  import opened Batches
  import opened Pipeline
  import R = ReducerSpec
  import Runs = ReducerRuns
  import L = Limiter
  import M = ShardMap
  import S = Sorting

  // ---- The identities at a place ----

  function RecordIds(stream: string): Buffered -> multiset<Ticket> {
    (r: Buffered) => multiset{Ticket(stream, r.id)}
  }

  function BatchIds(stream: string): Batch<Buffered> -> multiset<Ticket> {
    (b: Batch<Buffered>) => Total(RecordIds(stream), b.items)
  }

  function PendingIds(stream: string): L.Pending<Batch<Buffered>> -> multiset<Ticket> {
    (p: L.Pending<Batch<Buffered>>) => BatchIds(stream)(p.batch)
  }

  function RuledIds(stream: string): ((Buffered, Ruling)) -> multiset<Ticket> {
    (w: (Buffered, Ruling)) => RecordIds(stream)(w.0)
  }

  function AnswerIds(stream: string): PerRecord<Buffered> -> multiset<Ticket> {
    (pr: PerRecord<Buffered>) => BatchIds(stream)(pr.batch)
  }

  /** The tickets of the records at a place. */
  function PlaceIds(p: Place): multiset<Ticket> {
    match p
    case Buffering(stream, _, buffer) => Total(RecordIds(stream), buffer.active)
    case Queueing(stream, _, limiter, _, _) => Total(PendingIds(stream), limiter.queue)
    case Collecting(stream, open) => Total(BatchIds(stream), open.active)
    case Registered(stream, record) => RecordIds(stream)(record)
    case Predicted(stream, _, record) => RecordIds(stream)(record)
    case Closed(stream, batch) => BatchIds(stream)(batch)
    case Admitted(stream, batch) => BatchIds(stream)(batch)
    case Expired(stream, batch) => BatchIds(stream)(batch)
    case Sending(stream, batches) => Total(BatchIds(stream), batches)
    case Handling(stream, _, _, ruled, waiting, _) => Total(RuledIds(stream), ruled) + Total(AnswerIds(stream), waiting)
    case Done => multiset{}
  }

  function FinishedIds(finished: Option<(Ticket, RecordResult)>): multiset<Ticket> {
    if finished.None? then multiset{} else multiset{finished.value.0}
  }

  /** What leaves a place with the effect `e`. */
  function EffectIds(e: Effect): multiset<Ticket> {
    PlaceIds(e.place) + Total(PlaceIds, e.more) + FinishedIds(e.finished)
  }

  lemma {:induction false} BagSize(stream: string, items: seq<Buffered>)
    ensures |Total(RecordIds(stream), items)| == |items|
  {
    if items != [] {
      BagSize(stream, Front(items));
    }
  }

  lemma ClosedParcelIds(stream: string, shard: Option<int>, closed: Option<seq<Buffered>>)
    ensures Total(PlaceIds, ClosedParcel(stream, shard, closed))
         == Total(RecordIds(stream), if closed.None? then [] else closed.value)
  {
    if closed.Some? {
      TotalOne(PlaceIds, Closed(stream, Batch(shard, closed.value)));
    }
  }

  lemma SendingParcelIds(stream: string, closed: Option<seq<Batch<Buffered>>>)
    ensures Total(PlaceIds, SendingParcel(stream, closed))
         == Total(BatchIds(stream), if closed.None? then [] else closed.value)
  {
    if closed.Some? {
      TotalOne(PlaceIds, Sending(stream, closed.value));
    }
  }

  lemma Moved<I(!new)>(f: I -> multiset<Ticket>, after: seq<I>, out: seq<I>, before: seq<I>, into: seq<I>)
    requires multiset(after) + multiset(out) == multiset(before) + multiset(into)
    ensures Total(f, after) + Total(f, out) == Total(f, before) + Total(f, into)
  {
    assert multiset(after + out) == multiset(before + into);
    TotalPermuted(f, after + out, before + into);
    TotalConcat(f, after, out);
    TotalConcat(f, before, into);
  }

  // ---- Reducers ----

  /** A step of a reducer moves identities, it does not change them. */
  lemma ReducerMoves<I(!new)>(f: I -> multiset<Ticket>, cfg: R.Config<I>, st: R.State<I>, e: Runs.Event<I>)
    requires R.Monotone(cfg)
    ensures var (st', closed) := Runs.Step(cfg, st, e);
            Total(f, st'.active) + Total(f, if closed.None? then [] else closed.value)
            == Total(f, st.active) + Total(f, if e.Adding? then [e.item] else [])
  {
    hide Runs.Step;
    Runs.StepConserves(cfg, st, e);
    var (st', closed) := Runs.Step(cfg, st, e);
    Moved(f, st'.active, if closed.None? then [] else closed.value, st.active, if e.Adding? then [e.item] else []);
  }

  lemma Monotonicity(cfg: Config)
    ensures R.Monotone(AggregatorOf(cfg)) && R.Monotone(CollectorOf(cfg))
  {
    var maxCount := if cfg.aggregationEnabled then cfg.aggregationMaxCount else 1;
    AggregatorMonotone(cfg.codec, maxCount, cfg.aggregationMaxSize);
    CollectorMonotone(cfg.codec, cfg.collectionMaxCount, cfg.collectionMaxSize, cfg.shareThreshold);
  }

  lemma BufferingConserves(cfg: Config, p: Place, act: Act, at: real)
    requires p.Buffering? && ActBuffering(cfg, p, act, at).Some?
    ensures EffectIds(ActBuffering(cfg, p, act, at).value) == PlaceIds(p)
  {
    hide R.Monotone, R.Flush, R.Fire, AggregatorOf, Total, ClosedParcel;
    Monotonicity(cfg);
    var e := if act.Flushing? then Runs.Flushing(at) else Runs.Firing(act.id, at);
    ReducerMoves(RecordIds(p.stream), AggregatorOf(cfg), p.buffer, e);
    ClosedParcelIds(p.stream, p.shard, Runs.Step(AggregatorOf(cfg), p.buffer, e).1);
    TotalNothing(RecordIds(p.stream));
  }

  lemma CollectingConserves(cfg: Config, p: Place, act: Act, at: real)
    requires p.Collecting? && ActCollecting(cfg, p, act, at).Some?
    ensures EffectIds(ActCollecting(cfg, p, act, at).value) == PlaceIds(p)
  {
    hide R.Monotone, R.Flush, R.Fire, CollectorOf, Total, SendingParcel;
    Monotonicity(cfg);
    var e := if act.Flushing? then Runs.Flushing(at) else Runs.Firing(act.id, at);
    ReducerMoves(BatchIds(p.stream), CollectorOf(cfg), p.open, e);
    SendingParcelIds(p.stream, Runs.Step(CollectorOf(cfg), p.open, e).1);
    TotalNothing(BatchIds(p.stream));
  }

  // ---- Limiters ----

  lemma DispatchedIds(stream: string, expired: seq<Batch<Buffered>>, admitted: seq<Batch<Buffered>>)
    ensures Total(PlaceIds, ExpiredParcels(stream, expired) + AdmittedParcels(stream, admitted))
         == Total(BatchIds(stream), expired) + Total(BatchIds(stream), admitted)
  {
    hide Total, BatchIds;
    TotalConcat(PlaceIds, ExpiredParcels(stream, expired), AdmittedParcels(stream, admitted));
    TotalMapped(PlaceIds, ExpiredParcels(stream, expired), BatchIds(stream), expired);
    TotalMapped(PlaceIds, AdmittedParcels(stream, admitted), BatchIds(stream), admitted);
  }

  lemma QueuedIds(stream: string, ps: seq<L.Pending<Batch<Buffered>>>)
    ensures Total(BatchIds(stream), L.Batches(ps)) == Total(PendingIds(stream), ps)
  {
    TotalMapped(BatchIds(stream), L.Batches(ps), PendingIds(stream), ps);
  }

  /** Expired, admitted and kept are all there was. */
  lemma LimiterMoves(stream: string, q: seq<L.Pending<Batch<Buffered>>>, at: real, n: nat)
    requires n <= |L.Live(q, at)|
    ensures Total(PendingIds(stream), L.Live(q, at)[n..]) + Total(BatchIds(stream), L.Batches(L.Expired(q, at)))
            + Total(BatchIds(stream), L.Batches(L.Live(q, at)[..n])) == Total(PendingIds(stream), q)
  {
    hide Total, PendingIds, BatchIds, L.Live, L.Expired;
    var live, expired := L.Live(q, at), L.Expired(q, at);
    L.ExpiredAndLive(q, at);
    Moved(PendingIds(stream), live, expired, q, []);
    TotalNothing(PendingIds(stream));
    assert Total(PendingIds(stream), q) == Total(PendingIds(stream), live) + Total(PendingIds(stream), expired);
    assert live == live[..n] + live[n..];
    TotalConcat(PendingIds(stream), live[..n], live[n..]);
    QueuedIds(stream, expired);
    QueuedIds(stream, live[..n]);
  }

  lemma QueueingConserves(cfg: Config, p: Place, act: Act, at: real)
    requires p.Queueing? && ActQueueing(cfg, p, act, at).Some?
    ensures EffectIds(ActQueueing(cfg, p, act, at).value) == PlaceIds(p)
  {
    hide Total, PendingIds, BatchIds, L.Live, L.Expired, L.AdmitFrom, LimiterOf, L.Batches;
    var q, live := p.limiter.queue, L.Live(p.limiter.queue, at);
    var n := if act.Draining? then L.AdmitFrom(LimiterOf(cfg), live, p.limiter.streams, act.clock, 0).0 else |live|;
    assert live[..|live|] == live && live[|live|..] == [];
    LimiterMoves(p.stream, q, at, n);
    DispatchedIds(p.stream, L.Batches(L.Expired(q, at)), L.Batches(live[..n]));
  }

  // ---- The retrier ----

  lemma {:induction false} FlattenIds(stream: string, bs: seq<Batch<Buffered>>)
    ensures Total(RecordIds(stream), Flatten(bs)) == Total(BatchIds(stream), bs)
  {
    if bs != [] {
      FlattenIds(stream, Front(bs));
      TotalConcat(RecordIds(stream), Flatten(Front(bs)), Last(bs).items);
    }
  }

  /** A request error rules on every record of the request once. */
  lemma ErrorIds(cfg: Config, stream: string, o: SendOutcome<Buffered>)
    requires o.requestError.Some?
    ensures PlaceIds(Received(cfg, stream, o)) == Total(BatchIds(stream), o.batchItems)
  {
    hide BatchIds, Flatten, RuleError, Total;
    var work := Rulings(cfg.policy, o, HashOf(), k => id => None);
    FlattenIds(stream, o.batchItems);
    TotalMapped(RuledIds(stream), work, RecordIds(stream), Flatten(o.batchItems));
    TotalNothing(AnswerIds(stream));
  }

  lemma AnsweredIds(cfg: Config, stream: string, batches: seq<Batch<Buffered>>, response: Response, s: real, e: real)
    requires Send(batches, response, s, e).Ok?
    ensures PlaceIds(Received(cfg, stream, Send(batches, response, s, e).value)) == Total(BatchIds(stream), batches)
  {
    hide BatchIds, Total, Rulings;
    var o := Send(batches, response, s, e).value;
    if o.requestError.Some? {
      ErrorIds(cfg, stream, o);
    } else {
      TotalMapped(AnswerIds(stream), o.perRecord, BatchIds(stream), batches);
      TotalNothing(RuledIds(stream));
    }
  }

  lemma TotalHead<T>(f: T -> multiset<Ticket>, s: seq<T>)
    requires s != []
    ensures Total(f, s) == f(s[0]) + Total(f, s[1..])
  {
    assert s == [s[0]] + s[1..];
    TotalConcat(f, [s[0]], s[1..]);
    TotalOne(f, s[0]);
  }

  lemma AnswerBag(stream: string, pr: PerRecord<Buffered>)
    ensures AnswerIds(stream)(pr) == Total(RecordIds(stream), pr.batch.items)
  {
    assert BatchIds(stream)(pr.batch) == Total(RecordIds(stream), pr.batch.items);
  }

  lemma ClassifyingConserves(cfg: Config, map': M.State, p: Place, at: real)
    requires p.Handling? && ActHandling(cfg, map', p, Classifying, at).Some?
    ensures EffectIds(ActHandling(cfg, map', p, Classifying, at).value) == PlaceIds(p)
  {
    hide Total, Rule;
    TotalNothing(PlaceIds);
    var pr := p.waiting[0];
    TotalHead(AnswerIds(p.stream), p.waiting);
    var w := RuleItems(cfg.policy, pr, HashOf(), Lookup(map'));
    TotalMapped(RuledIds(p.stream), w, RecordIds(p.stream), pr.batch.items);
    TotalNothing(RuledIds(p.stream));
    AnswerBag(p.stream, pr);
  }

  lemma SettleKeepsId(policy: Policy, b: Buffered, s: real, e: real, ruling: Ruling, at: real)
    ensures Settle(policy, b, s, e, ruling, at).0.id == b.id
  {
  }

  lemma HandlingBag(p: Place)
    requires p.Handling?
    ensures PlaceIds(p) == Total(RuledIds(p.stream), p.ruled) + Total(AnswerIds(p.stream), p.waiting)
    ensures p.ruled != [] ==>
              PlaceIds(p) == multiset{Ticket(p.stream, p.ruled[0].0.id)} + PlaceIds(p.(ruled := p.ruled[1..]))
  {
    hide Total, AnswerIds;
    if p.ruled != [] {
      TotalHead(RuledIds(p.stream), p.ruled);
      assert RecordIds(p.stream)(p.ruled[0].0) == multiset{Ticket(p.stream, p.ruled[0].0.id)};
    }
  }

  lemma SettlingConserves(cfg: Config, map': M.State, p: Place, at: real)
    requires p.Handling? && ActHandling(cfg, map', p, Settling, at).Some?
    ensures EffectIds(ActHandling(cfg, map', p, Settling, at).value) == PlaceIds(p)
  {
    hide Total, Settle, RuleItems, PlaceIds;
    HandlingBag(p);
    TotalNothing(PlaceIds);
    SettleKeepsId(cfg.policy, p.ruled[0].0, p.startedAt, p.endedAt, p.ruled[0].1, at);
    var (record, verdict) := Settle(cfg.policy, p.ruled[0].0, p.startedAt, p.endedAt, p.ruled[0].1, at);
    RegisteredBag(p.stream, record);
    TotalOne(PlaceIds, Registered(p.stream, record));
  }

  lemma RegisteredBag(stream: string, r: Buffered)
    ensures PlaceIds(Registered(stream, r)) == multiset{Ticket(stream, r.id)}
  {
  }

  lemma HandlingConserves(cfg: Config, map': M.State, p: Place, act: Act, at: real)
    requires p.Handling? && ActHandling(cfg, map', p, act, at).Some?
    ensures EffectIds(ActHandling(cfg, map', p, act, at).value) == PlaceIds(p)
  {
    hide EffectIds, PlaceIds, Settle, RuleItems;
    if act.Classifying? {
      ClassifyingConserves(cfg, map', p, at);
    } else {
      SettlingConserves(cfg, map', p, at);
    }
  }

  // ---- Every act and every hand-over ----

  lemma ActConserves(cfg: Config, map': M.State, p: Place, act: Act, at: real)
    requires ActAt(cfg, map', p, act, at).Some?
    ensures EffectIds(ActAt(cfg, map', p, act, at).value) == PlaceIds(p)
  {
    hide Total, BatchIds, ActBuffering, ActCollecting, ActQueueing, ActHandling, Received, Send, M.Predict;
    TotalNothing(PlaceIds);
    match p
    case Buffering(_, _, _) => BufferingConserves(cfg, p, act, at);
    case Collecting(_, _) => CollectingConserves(cfg, p, act, at);
    case Queueing(_, _, _, _, _) => QueueingConserves(cfg, p, act, at);
    case Handling(_, _, _, _, _, _) => HandlingConserves(cfg, map', p, act, at);
    case Registered(_, _) =>
    case Sending(stream, batches) => AnsweredIds(cfg, stream, batches, act.response, act.startedAt, at);
    case Expired(stream, batch) =>
      ErrorIds(cfg, stream, SendOutcome(at, at, Some((EXPIRED, EXPIRED_IN_QUEUE)), [], [batch]));
      TotalOne(BatchIds(stream), batch);
  }

  lemma {:induction false} InsertedIds(stream: string,
                                       leq: (L.Pending<Batch<Buffered>>, L.Pending<Batch<Buffered>>) -> bool,
                                       q: seq<L.Pending<Batch<Buffered>>>, x: L.Pending<Batch<Buffered>>)
    ensures Total(PendingIds(stream), S.InsertRight(leq, q, x)) == Total(PendingIds(stream), q) + PendingIds(stream)(x)
  {
    hide PendingIds;
    if q == [] || leq(Last(q), x) {
      TotalConcat(PendingIds(stream), q, [x]);
      TotalOne(PendingIds(stream), x);
    } else {
      InsertedIds(stream, leq, Front(q), x);
      var r := S.InsertRight(leq, Front(q), x);
      assert Front(r + [Last(q)]) == r;
    }
  }

  lemma HandConserves(cfg: Config, parcel: Place, stage: Place, at: real)
    requires HandTo(cfg, parcel, stage, at).Some? && Destination(parcel) == KeyOf(stage)
    ensures EffectIds(HandTo(cfg, parcel, stage, at).value) == PlaceIds(parcel) + PlaceIds(stage)
    ensures HandTo(cfg, parcel, stage, at).value.finished.None?
  {
    hide Total, BatchIds, R.Add, R.Monotone, AggregatorOf, CollectorOf, LimiterOf, ClosedParcel, SendingParcel,
        S.InsertRight;
    Monotonicity(cfg);
    TotalNothing(PlaceIds);
    match parcel
    case Predicted(stream, shard, record) =>
      ReducerMoves(RecordIds(stage.stream), AggregatorOf(cfg), stage.buffer, Runs.Adding(record, at));
      ClosedParcelIds(stream, shard, R.Add(AggregatorOf(cfg), stage.buffer, record, at).1);
      TotalOne(RecordIds(stage.stream), record);
    case Closed(_, batch) =>
      InsertedIds(stage.stream, L.ByDeadline(LimiterOf(cfg)), stage.limiter.queue,
                  L.Pending(batch, at + cfg.policy.ttl));
    case Admitted(stream, batch) =>
      ReducerMoves(BatchIds(stage.stream), CollectorOf(cfg), stage.open, Runs.Adding(batch, at));
      SendingParcelIds(stream, R.Add(CollectorOf(cfg), stage.open, batch, at).1);
      TotalOne(BatchIds(stage.stream), batch);
  }
}
