/** Nothing is ever stuck: from every state that the pipeline can reach, some
    continuation finishes every record and frees every permit. */
module Drainability {
  import opened Common
  import opened Sums
  import opened Totals
  import opened Aggregation
  import opened Records
  import opened Hashing
  import opened Retrier
  import opened Pipeline
  import opened Conservation
  import R = ReducerSpec
  import Runs = ReducerRuns
  import L = Limiter
  import M = ShardMap
  import PR = PipelineRuns
  import Q = Routing
  import RR = RoutingRuns

  // ---- A measure ----

  /** How far a place is from the end of the line. */
  function Rank(p: Place): nat {
    match p
    case Registered(_, _) => 10
    case Predicted(_, _, _) => 9
    case Buffering(_, _, _) => 8
    case Closed(_, _) => 7
    case Queueing(_, _, _, _, _) => 6
    case Admitted(_, _) => 5
    case Collecting(_, _) => 4
    case Sending(_, _) => 3
    case Expired(_, _) => 2
    case Handling(_, _, _, _, _, _) => 1
    case Done => 0
  }

  function Weight(p: Place): int {
    Rank(p) * |PlaceIds(p)|
  }

  function Load(ps: seq<Place>): int {
    Sum(Weight, ps)
  }

  lemma {:induction false} LoadNonnegative(ps: seq<Place>)
    ensures Load(ps) >= 0
  {
    hide PlaceIds, Rank;
    if ps != [] {
      LoadNonnegative(Front(ps));
      Product(Rank(Last(ps)), |PlaceIds(Last(ps))|);
    }
  }

  lemma Product(a: nat, b: nat)
    ensures a * b >= 0
  {
  }

  lemma SumUpdate(ps: seq<Place>, i: nat, p: Place)
    requires i < |ps|
    ensures Load(ps[i := p]) == Load(ps) - Weight(ps[i]) + Weight(p)
  {
    hide Weight, Sum;
    var qs := ps[i := p];
    SumAround(Weight, ps, i);
    SumAround(Weight, qs, i);
    assert qs[..i] + qs[i + 1..] == ps[..i] + ps[i + 1..];
  }

  lemma MulMono(a: nat, b: nat, n: nat)
    requires a <= b
    ensures a * n <= b * n
  {
  }

  /** Parcels of rank at most `r` weigh at most `r` a record. */
  lemma {:induction false} MoreLoad(ps: seq<Place>, r: nat)
    requires forall i :: 0 <= i < |ps| ==> Rank(ps[i]) <= r
    ensures Load(ps) <= r * |Total(PlaceIds, ps)|
  {
    hide PlaceIds, Rank;
    if ps != [] {
      var f, p := Front(ps), ps[|ps| - 1];
      MoreLoad(f, r);
      MulMono(Rank(p), r, |PlaceIds(p)|);
      assert |Total(PlaceIds, ps)| == |Total(PlaceIds, f)| + |PlaceIds(p)|;
      Distribute(r, |Total(PlaceIds, f)|, |PlaceIds(p)|);
    }
  }

  lemma Distribute(r: nat, a: nat, b: nat)
    ensures r * (a + b) == r * a + r * b
  {
  }

  /** What an effect weighs. */
  function EffectLoad(e: Effect): int {
    Weight(e.place) + Load(e.more)
  }

  /** The place stays or moves on, parcels are further on, and something moved. */
  lemma Lighter(p: Place, e: Effect)
    requires EffectIds(e) == PlaceIds(p) && Rank(e.place) <= Rank(p) && Rank(p) >= 1
    requires forall i :: 0 <= i < |e.more| ==> Rank(e.more[i]) <= Rank(p) - 1
    requires |PlaceIds(e.place)| < |PlaceIds(p)| || (Rank(e.place) < Rank(p) && |PlaceIds(p)| > 0)
    ensures EffectLoad(e) < Weight(p)
  {
    hide PlaceIds, Rank, Load;
    var n, n', m, f := |PlaceIds(p)|, |PlaceIds(e.place)|, |Total(PlaceIds, e.more)|, |FinishedIds(e.finished)|;
    assert n' + m + f == n by {
      assert |EffectIds(e)| == n' + m + f;
    }
    var r := Rank(p);
    MoreLoad(e.more, r - 1);
    Numbers(r, Rank(e.place), n, n', m, f);
  }

  lemma Numbers(r: nat, r': nat, n: nat, n': nat, m: nat, f: nat)
    requires r' <= r && r >= 1 && n' + m + f == n && (n' < n || (r' < r && n > 0))
    ensures r' * n' + (r - 1) * m < r * n
  {
    Distribute(r, n', m);
    Distribute(r, n' + m, f);
    assert (r - 1) * m == r * m - m;
    MulMono(r', r, n');
    if m == 0 && f == 0 {
      MulMono(r', r - 1, n');
      assert (r - 1) * n' == r * n' - n';
    } else {
      MulMono(1, r, f);
    }
  }

  lemma HandNumbers(r: nat, a: nat, b: nat, n: nat, m: nat, f: nat)
    requires n + m + f == a + b && a > 0
    ensures r * n + r * m < (r + 1) * a + r * b
  {
    Distribute(r, n, m);
    Distribute(r, a, b);
    MulMono(0, r, f);
    Distribute(r, n + m, f);
    assert (r + 1) * a == r * a + a;
  }

  /** A parcel enters the stage just below it. */
  lemma LighterHand(parcel: Place, stage: Place, e: Effect)
    requires EffectIds(e) == PlaceIds(parcel) + PlaceIds(stage)
    requires Rank(e.place) == Rank(stage) && Rank(parcel) == Rank(stage) + 1 && |PlaceIds(parcel)| > 0
    requires forall i :: 0 <= i < |e.more| ==> Rank(e.more[i]) <= Rank(stage)
    ensures EffectLoad(e) < Weight(parcel) + Weight(stage)
  {
    hide PlaceIds, Rank, Load;
    var a, b, n, m, f := |PlaceIds(parcel)|, |PlaceIds(stage)|, |PlaceIds(e.place)|, |Total(PlaceIds, e.more)|,
        |FinishedIds(e.finished)|;
    assert n + m + f == a + b by {
      assert |EffectIds(e)| == n + m + f;
    }
    MoreLoad(e.more, Rank(stage));
    HandNumbers(Rank(stage), a, b, n, m, f);
  }

  // ---- One act at a place that holds something ----

  lemma BatchHolds(stream: string, b: Batch<Buffered>)
    requires b.items != []
    ensures |BatchIds(stream)(b)| > 0
  {
    BagSize(stream, b.items);
  }

  lemma BatchesHold(stream: string, bs: seq<Batch<Buffered>>)
    requires bs != [] && bs[0].items != []
    ensures |Total(BatchIds(stream), bs)| > 0
  {
    hide BatchIds;
    BatchHolds(stream, bs[0]);
    TotalHead(BatchIds(stream), bs);
  }

  lemma FlushBuffering(cfg: Config, p: Place, at: real)
    requires p.Buffering? && |PlaceIds(p)| > 0
    ensures var e := ActBuffering(cfg, p, Flushing, at);
            e.Some? && EffectLoad(e.value) < Weight(p) && e.value.finished.None?
  {
    hide Total, R.PackAndSplit, R.Monotone, AggregatorOf, EffectLoad, Weight;
    TotalNothing(RecordIds(p.stream));
    Monotonicity(cfg);
    Runs.StepConserves(AggregatorOf(cfg), p.buffer, Runs.Flushing(at));
    BufferingConserves(cfg, p, Flushing, at);
    var e := ActBuffering(cfg, p, Flushing, at).value;
    var closed := R.Flush(AggregatorOf(cfg), p.buffer, at).1;
    assert closed.Some? && closed.value != [];
    ClosedParcelIds(p.stream, p.shard, closed);
    BagSize(p.stream, closed.value);
    Shrinks(p, e);
    Lighter(p, e);
  }

  /** What was sent off is no longer there. */
  lemma Shrinks(p: Place, e: Effect)
    requires EffectIds(e) == PlaceIds(p) && (|Total(PlaceIds, e.more)| > 0 || e.finished.Some?)
    ensures |PlaceIds(e.place)| < |PlaceIds(p)|
  {
    hide PlaceIds, Total;
    assert |EffectIds(e)| == |PlaceIds(e.place)| + |Total(PlaceIds, e.more)| + |FinishedIds(e.finished)|;
  }

  lemma FlushCollecting(cfg: Config, p: Place, at: real)
    requires p.Collecting? && |PlaceIds(p)| > 0 && forall b :: b in p.open.active ==> b.items != []
    ensures var e := ActCollecting(cfg, p, Flushing, at);
            e.Some? && EffectLoad(e.value) < Weight(p) && e.value.finished.None?
  {
    hide Total, R.PackAndSplit, R.Monotone, CollectorOf, EffectLoad, Weight, BatchIds;
    TotalNothing(BatchIds(p.stream));
    Monotonicity(cfg);
    Runs.StepConserves(CollectorOf(cfg), p.open, Runs.Flushing(at));
    CollectingConserves(cfg, p, Flushing, at);
    var e := ActCollecting(cfg, p, Flushing, at).value;
    var (b, closed) := R.Flush(CollectorOf(cfg), p.open, at);
    assert closed.Some? && closed.value != [];
    assert closed.value[0] in multiset(b.active) + multiset(closed.value);
    assert closed.value[0] in p.open.active;
    SendingParcelIds(p.stream, closed);
    BatchesHold(p.stream, closed.value);
    Shrinks(p, e);
    Lighter(p, e);
  }

  lemma ForceQueueing(cfg: Config, p: Place, at: real)
    requires p.Queueing? && |PlaceIds(p)| > 0
    ensures var e := ActQueueing(cfg, p, Forcing, at);
            e.Some? && EffectLoad(e.value) < Weight(p) && e.value.finished.None?
  {
    hide Total, EffectLoad, Weight, PendingIds, BatchIds, L.Live, L.Expired;
    QueueingConserves(cfg, p, Forcing, at);
    TotalNothing(PendingIds(p.stream));
    var e := ActQueueing(cfg, p, Forcing, at).value;
    assert PlaceIds(e.place) == multiset{};
    Lighter(p, e);
  }

  lemma Answer(cfg: Config, map': M.State, p: Place, at: real)
    requires p.Sending? && p.batches != [] && |PlaceIds(p)| > 0
    ensures var e := ActAt(cfg, map', p, Answering(Raised("", ""), at), at);
            e.Some? && EffectLoad(e.value) < Weight(p) && e.value.finished.None?
  {
    hide Total, EffectLoad, Weight, BatchIds, Rulings;
    var act := Answering(Raised("", ""), at);
    ActConserves(cfg, map', p, act, at);
    MovesOn(p, ActAt(cfg, map', p, act, at).value);
  }

  /** Everything moved to a place further on. */
  lemma MovesOn(p: Place, e: Effect)
    requires EffectIds(e) == PlaceIds(p) && Rank(e.place) < Rank(p) && e.more == [] && |PlaceIds(p)| > 0
    ensures EffectLoad(e) < Weight(p)
  {
    hide PlaceIds, Rank, EffectLoad, Weight;
    Lighter(p, e);
  }

  lemma Give(cfg: Config, map': M.State, p: Place, at: real)
    requires p.Expired? && |PlaceIds(p)| > 0
    ensures var e := ActAt(cfg, map', p, Giving, at);
            e.Some? && EffectLoad(e.value) < Weight(p) && e.value.finished.None?
  {
    hide Total, EffectLoad, Weight, BatchIds, Rulings;
    ActConserves(cfg, map', p, Giving, at);
    MovesOn(p, ActAt(cfg, map', p, Giving, at).value);
  }

  lemma Foresee(cfg: Config, map': M.State, p: Place, at: real)
    requires p.Registered?
    ensures var e := ActAt(cfg, map', p, Predicting, at);
            e.Some? && EffectLoad(e.value) < Weight(p) && e.value.finished.None?
  {
    hide Total, EffectLoad, Weight, M.Predict;
    ActConserves(cfg, map', p, Predicting, at);
    MovesOn(p, ActAt(cfg, map', p, Predicting, at).value);
  }

  /** Taking up the next answer moves nothing, but then there is a record to
      settle. */
  lemma TakeUp(cfg: Config, map': M.State, p: Place, at: real)
    requires p.Handling? && p.ruled == [] && p.reports == [] && p.waiting != [] && p.waiting[0].batch.items != []
    ensures var e := ActAt(cfg, map', p, Classifying, at);
            && e.Some? && EffectLoad(e.value) == Weight(p) && e.value.finished.None? && e.value.more == []
            && e.value.place.Handling? && e.value.place.stream == p.stream && e.value.place.ruled != []
            && e.value.place.ruled[0].0 == p.waiting[0].batch.items[0]
  {
    hide Total, Rule;
    ClassifyingConserves(cfg, map', p, at);
    TotalNothing(PlaceIds);
    NoLoad();
  }

  lemma NoLoad()
    ensures Load([]) == 0
  {
  }

  /** A record past its TTL is finished, whatever its ruling. */
  lemma SettleLate(cfg: Config, map': M.State, p: Place, at: real)
    requires p.Handling? && p.ruled != [] && at - p.ruled[0].0.arrivalTime > cfg.policy.ttl
    ensures var e := ActAt(cfg, map', p, Settling, at);
            e.Some? && EffectLoad(e.value) < Weight(p) && e.value.finished.Some? && e.value.more == []
  {
    hide Total, EffectLoad, Weight;
    SettlingConserves(cfg, map', p, at);
    var e := ActAt(cfg, map', p, Settling, at).value;
    assert e.more == [] && e.finished.Some?;
    Shrinks(p, e);
    Lighter(p, e);
  }

  // ---- One step of a state that holds something ----

  lemma ApplyLoad(st: State, i: nat, e: Effect, at: real)
    requires i < |st.places|
    ensures Load(Apply(st, i, e, at).places) == Load(st.places) - Weight(st.places[i]) + EffectLoad(e)
  {
    hide Weight, Sum;
    SumUpdate(st.places, i, e.place);
    SumConcat(Weight, st.places[i := e.place], e.more);
  }

  /** No record was accepted later than so long before `end` that it is not past
      its TTL then. */
  ghost predicate AllPast(cfg: Config, l: Ledger, end: real) {
    forall t :: t in l.accepted ==> end - l.accepted[t].arrivalTime > cfg.policy.ttl
  }

  /** From `st` to `st'` only time and places changed, except for results. */
  ghost predicate OnlyMoves(st: State, st': State) {
    st'.ledger.accepted == st.ledger.accepted && st'.ledger.starting == st.ledger.starting
  }

  lemma ActingLoad(cfg: Config, st: State, i: nat, act: Act, end: real)
    requires i < |st.places| && st.now <= end && !act.Draining?
    requires ActAt(cfg, MapFor(cfg, st, StreamOf(st.places[i])), st.places[i], act, end).Some?
    ensures var e := ActAt(cfg, MapFor(cfg, st, StreamOf(st.places[i])), st.places[i], act, end).value;
            var st' := Exec(cfg, st, Acting(i, act, end));
            && st' == Apply(st, i, e, end) && st'.now == end && OnlyMoves(st, st')
            && Load(st'.places) == Load(st.places) - Weight(st.places[i]) + EffectLoad(e)
  {
    hide ActAt, MapFor, Weight, EffectLoad, Load;
    ApplyLoad(st, i, ActAt(cfg, MapFor(cfg, st, StreamOf(st.places[i])), st.places[i], act, end).value, end);
  }

  /** Which act moves the records at a place, if it has one of its own. */
  function NextAct(p: Place, at: real): Act {
    match p
    case Registered(_, _) => Predicting
    case Buffering(_, _, _) => Flushing
    case Collecting(_, _) => Flushing
    case Queueing(_, _, _, _, _) => Forcing
    case Sending(_, _) => Answering(Raised("", ""), at)
    case Expired(_, _) => Giving
    case _ => Settling
  }

  lemma OwnAct(cfg: Config, world: Q.World, map': M.State, p: Place, now: real, end: real)
    requires Q.GoodPlace(cfg, world, now, p) && |PlaceIds(p)| > 0
    requires !p.Handling? && Destination(p).None?
    ensures var e := ActAt(cfg, map', p, NextAct(p, end), end);
            e.Some? && EffectLoad(e.value) < Weight(p)
  {
    hide PlaceIds, EffectLoad, Weight, Q.GoodRecord, Q.Routable, Q.FitsBatch, Runs.TimerInv, ActBuffering,
        ActCollecting, ActQueueing;
    match p
    case Registered(_, _) => Foresee(cfg, map', p, end);
    case Buffering(_, _, _) => FlushBuffering(cfg, p, end);
    case Collecting(_, _) => FlushCollecting(cfg, p, end);
    case Queueing(_, _, _, _, _) => ForceQueueing(cfg, p, end);
    case Sending(_, _) => Answer(cfg, map', p, end);
    case Expired(_, _) => Give(cfg, map', p, end);
    case Done => DoneHoldsNothing();
  }

  lemma DoneHoldsNothing()
    ensures |PlaceIds(Done)| == 0
  {
  }

  /** The state after `more` is later than the one after `steps`, with less to
      do and nothing new. */
  ghost predicate Advances(cfg: Config, start: real, steps: seq<Step>, more: seq<Step>, end: real) {
    var st, st' := Run(cfg, Initial(cfg, start), steps), Run(cfg, Initial(cfg, start), more);
    steps <= more && st'.now == end && OnlyMoves(st, st') && Load(st'.places) < Load(st.places)
  }

  lemma LateRecord(cfg: Config, st: State, now: real, stream: string, r: Buffered, end: real)
    requires Q.GoodRecord(cfg, RR.WorldOf(None, 0.0, st), now, stream, r) && AllPast(cfg, st.ledger, end)
    ensures end - r.arrivalTime > cfg.policy.ttl
  {
    hide WellHashed, AllFailed, Q.InTime;
  }

  lemma AdvanceSettling(cfg: Config, start: real, steps: seq<Step>, i: nat, end: real) returns (more: seq<Step>)
    requires var st := Run(cfg, Initial(cfg, start), steps);
             && i < |st.places| && st.places[i].Handling? && st.places[i].ruled != [] && st.now <= end
             && end - st.places[i].ruled[0].0.arrivalTime > cfg.policy.ttl
    ensures Advances(cfg, start, steps, more, end)
  {
    hide Run, Load, Weight, EffectLoad, Exec, ActAt;
    var st := Run(cfg, Initial(cfg, start), steps);
    var map' := MapFor(cfg, st, StreamOf(st.places[i]));
    SettleLate(cfg, map', st.places[i], end);
    ActingLoad(cfg, st, i, Settling, end);
    var st';
    more, st' := PR.Extend(cfg, start, steps, Acting(i, Settling, end));
  }

  /** Reporting a shard moves no record. */
  lemma ReportingLoad(cfg: Config, st: State, i: nat, end: real)
    requires i < |st.places| && st.places[i].Handling? && st.places[i].reports != [] && st.now <= end
    ensures var p, st' := st.places[i], Exec(cfg, st, Reporting(i, end));
            && st'.now == end && st'.ledger == st.ledger && Load(st'.places) == Load(st.places)
            && st'.places == st.places[i := p.(reports := p.reports[1..])]
            && PlaceIds(st'.places[i]) == PlaceIds(p)
  {
    hide Load;
    var p := st.places[i];
    SumUpdate(st.places, i, p.(reports := p.reports[1..]));
  }

  lemma AdvanceHandling(cfg: Config, start: real, steps: seq<Step>, i: nat, end: real) returns (more: seq<Step>)
    requires Lawful(cfg.codec)
    requires var st := Run(cfg, Initial(cfg, start), steps);
             && i < |st.places| && st.places[i].Handling? && |PlaceIds(st.places[i])| > 0
             && st.now <= end && AllPast(cfg, st.ledger, end)
    ensures Advances(cfg, start, steps, more, end)
    decreases |Run(cfg, Initial(cfg, start), steps).places[i].reports|
  {
    hide Run, Load, Weight, EffectLoad, Exec, ActAt, Lawful, Q.GoodRecord, Q.Routable, AllPast, Total, Q.FitsBatch;
    var st := Run(cfg, Initial(cfg, start), steps);
    var p, map' := st.places[i], MapFor(cfg, st, StreamOf(st.places[i]));
    RR.RunIsGood(cfg, None, 0.0, start, steps);
    var world := RR.WorldOf(None, 0.0, st);
    assert Q.GoodPlace(cfg, world, st.now, p);
    if p.ruled != [] {
      assert p.ruled[0] in p.ruled;
      LateRecord(cfg, st, st.now, p.stream, p.ruled[0].0, end);
      more := AdvanceSettling(cfg, start, steps, i, end);
    } else if p.reports != [] {
      ReportingLoad(cfg, st, i, end);
      var mid, st' := PR.Extend(cfg, start, steps, Reporting(i, end));
      more := AdvanceHandling(cfg, start, mid, i, end);
    } else {
      TotalNothing(RuledIds(p.stream));
      TotalNothing(AnswerIds(p.stream));
      assert p.waiting != [] && p.waiting[0] in p.waiting;
      var b := p.waiting[0].batch;
      Q.BatchRecordsGood(cfg, world, st.now, p.stream, b);
      assert b.items[0] in b.items;
      LateRecord(cfg, st, st.now, p.stream, b.items[0], end);
      TakeUp(cfg, map', p, end);
      ActingLoad(cfg, st, i, Classifying, end);
      var mid, st' := PR.Extend(cfg, start, steps, Acting(i, Classifying, end));
      assert st'.places[i] == ActAt(cfg, map', p, Classifying, end).value.place;
      more := AdvanceSettling(cfg, start, mid, i, end);
    }
  }

  lemma HandingLoad(cfg: Config, st: State, j: nat, i: nat, end: real)
    requires i < |st.places| && j < |st.places| && st.now <= end
    requires Destination(st.places[j]).Some? && Destination(st.places[j]) == KeyOf(st.places[i]) &&
              |PlaceIds(st.places[j])| > 0
    ensures var st' := Exec(cfg, st, Handing(j, i, end));
            st'.now == end && OnlyMoves(st, st') && Load(st'.places) < Load(st.places)
  {
    hide Load, Weight, EffectLoad, PlaceIds, HandTo;
    var parcel, stage := st.places[j], st.places[i];
    assert i != j;
    Accepts(cfg, parcel, stage, end);
    HandConserves(cfg, parcel, stage, end);
    var e := HandTo(cfg, parcel, stage, end).value;
    LighterHand(parcel, stage, e);
    var mid := st.(places := st.places[j := Done]);
    SumUpdate(st.places, j, Done);
    DoneWeighsNothing();
    ApplyLoad(mid, i, e, end);
  }

  lemma DoneWeighsNothing()
    ensures Weight(Done) == 0
  {
  }

  /** A stage takes every parcel meant for it. */
  lemma Accepts(cfg: Config, parcel: Place, stage: Place, at: real)
    requires Destination(parcel).Some? && Destination(parcel) == KeyOf(stage)
    ensures var e := HandTo(cfg, parcel, stage, at);
            && e.Some? && Rank(e.value.place) == Rank(stage) && Rank(parcel) == Rank(stage) + 1
            && forall i :: 0 <= i < |e.value.more| ==> Rank(e.value.more[i]) <= Rank(stage)
  {
    hide R.Add, L.Enqueue, AggregatorOf, CollectorOf, LimiterOf;
  }

  lemma OpeningLoad(cfg: Config, st: State, key: Key, end: real)
    requires st.now <= end && !HasStage(st.places, key) && !(key.kind.CollectorKind? && key.shard.Some?)
    ensures var st' := Exec(cfg, st, Opening(key, end));
            && st'.now == end && OnlyMoves(st, st') && Load(st'.places) == Load(st.places)
            && st'.places == st.places + [NewStage(cfg, key, end)] && KeyOf(NewStage(cfg, key, end)) == Some(key)
  {
    hide Weight, HasStage, PlaceIds, Sum;
    var p := NewStage(cfg, key, end);
    SumConcat(Weight, st.places, [p]);
    NewWeighsNothing(cfg, key, end);
  }

  lemma NewWeighsNothing(cfg: Config, key: Key, at: real)
    ensures Sum(Weight, [NewStage(cfg, key, at)]) == 0
  {
    var p := NewStage(cfg, key, at);
    assert Front([p]) == [];
    assert PlaceIds(p) == multiset{};
  }

  /** A parcel enters its stage, which is opened if need be. */
  lemma AdvanceParcel(cfg: Config, start: real, steps: seq<Step>, j: nat, end: real) returns (more: seq<Step>)
    requires var st := Run(cfg, Initial(cfg, start), steps);
             && j < |st.places| && Destination(st.places[j]).Some? && |PlaceIds(st.places[j])| > 0 && st.now <= end
    ensures Advances(cfg, start, steps, more, end)
  {
    hide Run, Load, PlaceIds, Exec;
    var st := Run(cfg, Initial(cfg, start), steps);
    var key := Destination(st.places[j]).value;
    var st';
    if HasStage(st.places, key) {
      var i :| 0 <= i < |st.places| && KeyOf(st.places[i]) == Some(key);
      HandingLoad(cfg, st, j, i, end);
      more, st' := PR.Extend(cfg, start, steps, Handing(j, i, end));
    } else {
      OpeningLoad(cfg, st, key, end);
      var mid, ready := PR.Extend(cfg, start, steps, Opening(key, end));
      HandingLoad(cfg, ready, j, |st.places|, end);
      more, st' := PR.Extend(cfg, start, mid, Handing(j, |st.places|, end));
    }
  }

  lemma AdvanceOwn(cfg: Config, start: real, steps: seq<Step>, i: nat, end: real) returns (more: seq<Step>)
    requires Lawful(cfg.codec)
    requires var st := Run(cfg, Initial(cfg, start), steps);
             && i < |st.places| && !st.places[i].Handling? && Destination(st.places[i]).None?
             && |PlaceIds(st.places[i])| > 0 && st.now <= end
    ensures Advances(cfg, start, steps, more, end)
  {
    hide Run, Load, PlaceIds, Exec, Lawful, ActAt, Q.GoodPlace, Weight, EffectLoad, Destination;
    var st := Run(cfg, Initial(cfg, start), steps);
    var p, map' := st.places[i], MapFor(cfg, st, StreamOf(st.places[i]));
    RR.RunIsGood(cfg, None, 0.0, start, steps);
    assert Q.GoodPlace(cfg, RR.WorldOf(None, 0.0, st), st.now, p);
    OwnAct(cfg, RR.WorldOf(None, 0.0, st), map', p, st.now, end);
    ActingLoad(cfg, st, i, NextAct(p, end), end);
    var st';
    more, st' := PR.Extend(cfg, start, steps, Acting(i, NextAct(p, end), end));
  }

  /** While anything is pending, something can be moved on. */
  lemma Advance(cfg: Config, start: real, steps: seq<Step>, end: real) returns (more: seq<Step>)
    requires Lawful(cfg.codec)
    requires var st := Run(cfg, Initial(cfg, start), steps);
             st.ledger.pending != {} && st.now <= end && AllPast(cfg, st.ledger, end)
    ensures Advances(cfg, start, steps, more, end)
  {
    hide Run, PlaceIds, Total, Lawful, AllPast, Advances;
    var st := Run(cfg, Initial(cfg, start), steps);
    var t :| t in st.ledger.pending;
    PR.RunConserves(cfg, start, steps);
    assert Total(PlaceIds, st.places)[t] == 1;
    var i := TotalUnique(PlaceIds, st.places, t);
    assert t in PlaceIds(st.places[i]);
    if st.places[i].Handling? {
      more := AdvanceHandling(cfg, start, steps, i, end);
    } else if Destination(st.places[i]).Some? {
      more := AdvanceParcel(cfg, start, steps, i, end);
    } else {
      more := AdvanceOwn(cfg, start, steps, i, end);
    }
  }

  // ---- To the end ----

  lemma {:induction false} FinishAll(cfg: Config, start: real, steps: seq<Step>, end: real) returns (more: seq<Step>)
    requires Lawful(cfg.codec)
    requires var st := Run(cfg, Initial(cfg, start), steps); st.now <= end && AllPast(cfg, st.ledger, end)
    ensures steps <= more && Run(cfg, Initial(cfg, start), more).ledger.pending == {}
    ensures Run(cfg, Initial(cfg, start), more).now <= end
    decreases Load(Run(cfg, Initial(cfg, start), steps).places)
  {
    hide Run, Load, Lawful;
    LoadNonnegative(Run(cfg, Initial(cfg, start), steps).places);
    if Run(cfg, Initial(cfg, start), steps).ledger.pending == {} {
      more := steps;
    } else {
      var next := Advance(cfg, start, steps, end);
      LoadNonnegative(Run(cfg, Initial(cfg, start), next).places);
      more := FinishAll(cfg, start, next, end);
    }
  }

  /** A shard map was ready once, or is being fetched, or can be started. */
  predicate Alive(m: M.State) {
    m.status == M.Invalid || m.updatedAt.Some? || m.loops > 0
  }

  ghost predicate AllAlive(st: State) {
    forall stream :: stream in st.maps ==> Alive(st.maps[stream])
  }

  lemma MapStepAlive(cfg: M.Config, m: M.State, e: M.Event)
    requires Alive(m)
    ensures Alive(M.Step(cfg, m, e))
  {
    hide M.SnapshotOf, M.ClosingTime;
  }

  lemma StepAlive(cfg: Config, st: State, step: Step)
    requires AllAlive(st)
    ensures AllAlive(Exec(cfg, st, step))
  {
    hide ActAt, HandTo, BuildBuffered, Settled, NewStage, KeyOf, Destination, M.Invalidate, HasStage, Alive;
    match step
    case Reporting(i, at) =>
      if i < |st.places| && st.places[i].Handling? && st.places[i].reports != [] {
        var p := st.places[i];
        NewMapAlive(cfg, st);
        MapStepAlive(cfg.shardMap, MapFor(cfg, st, p.stream), M.Invalidating(at, Some(p.reports[0])));
      }
    case Mapping(stream, event) =>
      NewMapAlive(cfg, st);
      MapStepAlive(cfg.shardMap, MapFor(cfg, st, stream), event);
    case _ =>
  }

  lemma NewMapAlive(cfg: Config, st: State)
    ensures Alive(M.Initial(cfg.shardMap, st.now))
  {
  }

  lemma {:induction false} RunAlive(cfg: Config, start: real, steps: seq<Step>)
    ensures AllAlive(Run(cfg, Initial(cfg, start), steps))
  {
    hide Exec, Alive;
    if steps != [] {
      RunAlive(cfg, start, Front(steps));
      StepAlive(cfg, Run(cfg, Initial(cfg, start), Front(steps)), Last(steps));
    }
  }

  const SPARE := "stream"

  lemma InstallStarts(cfg: Config, start: real, steps: seq<Step>) returns (more: seq<Step>)
    requires MapFor(cfg, Run(cfg, Initial(cfg, start), steps), SPARE).loops > 0
    ensures steps <= more && Started(cfg, Run(cfg, Initial(cfg, start), more), SPARE)
    ensures Run(cfg, Initial(cfg, start), more).ledger == Run(cfg, Initial(cfg, start), steps).ledger
  {
    hide Run, M.SnapshotOf;
    var m := MapFor(cfg, Run(cfg, Initial(cfg, start), steps), SPARE);
    var st;
    more, st := PR.Extend(cfg, start, steps, Mapping(SPARE, M.Installing([], m.now)));
  }

  /** The shard map of a stream can always become ready. */
  lemma GetStarted(cfg: Config, start: real, steps: seq<Step>) returns (more: seq<Step>)
    ensures steps <= more && Started(cfg, Run(cfg, Initial(cfg, start), more), SPARE)
    ensures Run(cfg, Initial(cfg, start), more).ledger == Run(cfg, Initial(cfg, start), steps).ledger
  {
    hide Run;
    RunAlive(cfg, start, steps);
    var st := Run(cfg, Initial(cfg, start), steps);
    var m := MapFor(cfg, st, SPARE);
    if m.updatedAt.Some? {
      more := steps;
    } else if m.loops > 0 {
      more := InstallStarts(cfg, start, steps);
    } else {
      var mid, st' := PR.Extend(cfg, start, steps, Mapping(SPARE, M.Starting));
      more := InstallStarts(cfg, start, mid);
    }
  }

  const MALFORMED := UserRecord("k", [], Some(""), [])

  /** Calls that are still starting may all turn out malformed, once the shard
      map they wait for is ready. */
  lemma {:induction false} AbortAll(cfg: Config, start: real, steps: seq<Step>, n: nat) returns (more: seq<Step>)
    requires Started(cfg, Run(cfg, Initial(cfg, start), steps), SPARE)
    requires var l := Run(cfg, Initial(cfg, start), steps).ledger; l.pending == {} && l.starting == n
    ensures steps <= more
    ensures var l := Run(cfg, Initial(cfg, start), more).ledger; l.pending == {} && l.starting == 0
    decreases n
  {
    hide Run;
    more := steps;
    if n > 0 {
      var st := Run(cfg, Initial(cfg, start), steps);
      var next, st' := PR.Extend(cfg, start, steps, Registering(SPARE, MALFORMED, st.now));
      more := AbortAll(cfg, start, next, n - 1);
    }
  }

  lemma {:induction false} LatestArrival(accepted: map<Ticket, Buffered>) returns (latest: real)
    ensures forall t :: t in accepted ==> accepted[t].arrivalTime <= latest
    decreases |accepted|
  {
    if accepted == map[] {
      latest := 0.0;
    } else {
      var t :| t in accepted;
      var rest := accepted - {t};
      assert rest.Keys == accepted.Keys - {t};
      assert |rest| == |rest.Keys| < |accepted.Keys| == |accepted|;
      latest := LatestArrival(rest);
      assert forall u :: u in accepted && u != t ==> u in rest && rest[u] == accepted[u];
      if latest < accepted[t].arrivalTime {
        latest := accepted[t].arrivalTime;
      }
    }
  }

  /** Whatever happened so far, there is a way to go on after which every record
      has its result and every permit is free. */
  lemma EveryRunCanFinish(cfg: Config, start: real, steps: seq<Step>) returns (more: seq<Step>)
    requires Lawful(cfg.codec)
    ensures steps <= more
    ensures var l := Run(cfg, Initial(cfg, start), more).ledger;
            && l.pending == {} && l.starting == 0 && l.outstanding == 0 && l.permits == cfg.maxOutstanding
            && l.results.Keys == l.accepted.Keys
  {
    hide Run, Lawful;
    var st := Run(cfg, Initial(cfg, start), steps);
    var latest := LatestArrival(st.ledger.accepted);
    var end := latest + cfg.policy.ttl + 1.0;
    if end < st.now {
      end := st.now;
    }
    more := FinishAll(cfg, start, steps, end);
    more := GetStarted(cfg, start, more);
    PR.RunConserves(cfg, start, more);
    more := AbortAll(cfg, start, more, Run(cfg, Initial(cfg, start), more).ledger.starting);
    PR.RunConserves(cfg, start, more);
  }
}
