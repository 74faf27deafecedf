/** The rate limit of every shard, over every run of the pipeline. */
module RateRuns {
  import opened Common
  import opened Records
  import opened Batches
  import opened Pipeline
  import L = Limiter
  import M = ShardMap
  import RR = RoutingRuns

  /** The clock does not go back while a drain reads it. */
  ghost predicate Timely(steps: seq<Step>) {
    forall i :: 0 <= i < |steps| && steps[i].Acting? && steps[i].act.Draining? ==>
      steps[i].at <= steps[i].act.clock(0) && L.Ticks(steps[i].act.clock, steps[i].act.until)
  }

  function Fresh(cfg: Config, since: real): L.State<Batch<Buffered>> {
    L.State([], L.FreshStreams(cfg.rps, cfg.bps, since))
  }

  /** What draining admitted at a limiter, and the readings that paid for it. */
  function Paid(cfg: Config, p: Place): seq<L.Admission<Batch<Buffered>>>
    requires p.Queueing?
  {
    L.Run(LimiterOf(cfg), Fresh(cfg, p.since), p.history).1
  }

  /** A limiter is what its history made of it. */
  ghost predicate HistoryInv(cfg: Config, now: real, p: Place) {
    p.Queueing? ==>
      && p.limiter == L.Run(LimiterOf(cfg), Fresh(cfg, p.since), p.history).0
      && L.WellTimed(p.history, p.since) && L.EndOf(p.history, p.since) <= now
  }

  ghost predicate AllHistories(cfg: Config, now: real, ps: seq<Place>) {
    forall i :: 0 <= i < |ps| ==> HistoryInv(cfg, now, ps[i])
  }

  lemma OneMore(cfg: Config, now: real, p: Place, e: L.Event<Batch<Buffered>>, until: real)
    requires p.Queueing? && HistoryInv(cfg, now, p) && now <= e.now && L.EndOf([e], now) <= until
    requires e.Draining? ==> e.now <= e.clock(0) && L.Ticks(e.clock, e.until)
    ensures HistoryInv(cfg, until, p.(limiter := L.Step(LimiterOf(cfg), p.limiter, e).0, history := p.history + [e]))
  {
    hide L.Step, LimiterOf;
    assert Front(p.history + [e]) == p.history && Last(p.history + [e]) == e;
  }

  lemma ActKeepsHistory(cfg: Config, now: real, map': M.State, p: Place, act: Act, at: real)
    requires HistoryInv(cfg, now, p) && now <= at <= EndOfAct(act, at) && ActAt(cfg, map', p, act, at).Some?
    requires act.Draining? ==> at <= act.clock(0) && L.Ticks(act.clock, act.until)
    ensures HistoryInv(cfg, EndOfAct(act, at), ActAt(cfg, map', p, act, at).value.place)
    ensures AllHistories(cfg, EndOfAct(act, at), ActAt(cfg, map', p, act, at).value.more)
  {
    hide LimiterOf, L.Run, L.WellTimed, L.AdmitFrom, L.Live, L.Expired, HistoryInv;
    RR.ActKeepsKeys(cfg, map', p, act, at);
    var e := ActAt(cfg, map', p, act, at).value;
    if p.Queueing? {
      if act.Draining? {
        OneMore(cfg, now, p, L.Draining(at, act.clock, act.until), act.until);
      } else {
        OneMore(cfg, now, p, L.Forcing(at), at);
      }
    } else {
      NoLimiter(cfg, EndOfAct(act, at), e.place);
    }
    forall i | 0 <= i < |e.more|
      ensures HistoryInv(cfg, EndOfAct(act, at), e.more[i])
    {
      NoLimiter(cfg, EndOfAct(act, at), e.more[i]);
    }
  }

  lemma NoLimiter(cfg: Config, now: real, p: Place)
    requires !p.Queueing?
    ensures HistoryInv(cfg, now, p)
  {
  }

  lemma HandKeepsHistory(cfg: Config, now: real, parcel: Place, stage: Place, at: real)
    requires HistoryInv(cfg, now, stage) && now <= at && HandTo(cfg, parcel, stage, at).Some?
    ensures HistoryInv(cfg, at, HandTo(cfg, parcel, stage, at).value.place)
    ensures AllHistories(cfg, at, HandTo(cfg, parcel, stage, at).value.more)
  {
    hide LimiterOf, L.Run, L.WellTimed, HistoryInv, L.Enqueue;
    RR.HandKeepsKeys(cfg, parcel, stage, at);
    var e := HandTo(cfg, parcel, stage, at).value;
    if stage.Queueing? {
      OneMore(cfg, now, stage, L.Enqueuing(parcel.batch, at + cfg.policy.ttl, at), at);
    } else {
      NoLimiter(cfg, at, e.place);
    }
    forall i | 0 <= i < |e.more|
      ensures HistoryInv(cfg, at, e.more[i])
    {
      NoLimiter(cfg, at, e.more[i]);
    }
  }

  lemma HistoriesLater(cfg: Config, now: real, later: real, ps: seq<Place>)
    requires AllHistories(cfg, now, ps) && now <= later
    ensures AllHistories(cfg, later, ps)
  {
    hide L.Run, L.WellTimed;
  }

  lemma NewStageHistory(cfg: Config, key: Key, at: real)
    ensures HistoryInv(cfg, at, NewStage(cfg, key, at))
  {
  }

  lemma StepKeepsHistories(cfg: Config, st: State, step: Step)
    requires AllHistories(cfg, st.now, st.places) && Timely([step])
    ensures AllHistories(cfg, Exec(cfg, st, step).now, Exec(cfg, st, step).places)
  {
    hide HistoryInv, ActAt, HandTo, NewStage, L.Ticks;
    var st' := Exec(cfg, st, step);
    if st.now <= st'.now {
      HistoriesLater(cfg, st.now, st'.now, st.places);
    }
    match step
    case Acquiring =>
    case Registering(stream, _, at) =>
      if |st'.places| > |st.places| {
        NoLimiter(cfg, at, Last(st'.places));
      }
    case Opening(key, at) => NewStageHistory(cfg, key, at);
    case Acting(i, act, at) =>
      assert [step][0] == step;
      if i < |st.places| && st.now <= at <= EndOfAct(act, at) {
        var map' := MapFor(cfg, st, StreamOf(st.places[i]));
        if ActAt(cfg, map', st.places[i], act, at).Some? {
          ActKeepsHistory(cfg, st.now, map', st.places[i], act, at);
        }
      }
    case Handing(j, i, at) =>
      NoLimiter(cfg, at, Done);
      if i < |st.places| && j < |st.places| && st.now <= at && HandTo(cfg, st.places[j], st.places[i], at).Some? {
        HandKeepsHistory(cfg, st.now, st.places[j], st.places[i], at);
      }
    case Reporting(i, at) =>
      if i < |st.places| && st.places[i].Handling? && st.places[i].reports != [] {
        NoLimiter(cfg, at, st.places[i].(reports := st.places[i].reports[1..]));
      }
    case Mapping(_, _) =>
  }

  lemma {:induction false} RunKeepsHistories(cfg: Config, start: real, steps: seq<Step>)
    requires Timely(steps)
    ensures var st := Run(cfg, Initial(cfg, start), steps); AllHistories(cfg, st.now, st.places)
  {
    hide HistoryInv, Exec, L.Ticks;
    if steps != [] {
      assert forall i :: 0 <= i < |Front(steps)| ==> Front(steps)[i] == steps[i];
      RunKeepsHistories(cfg, start, Front(steps));
      assert Last(steps) == steps[|steps| - 1];
      StepKeepsHistories(cfg, Run(cfg, Initial(cfg, start), Front(steps)), Last(steps));
    }
  }

  /** In every run of the pipeline, in every window of length `w`, draining
      admits at most rps * (1 + w) batches and bps * (1 + w) bytes at each
      limiter; there is one for each shard of each stream. */
  lemma ShardsKeepTheirRate(cfg: Config, start: real, steps: seq<Step>, k: nat, i: nat, j: nat, w: real)
    requires Timely(steps) && cfg.rps >= 0.0 && cfg.bps >= 0.0
    requires var st := Run(cfg, Initial(cfg, start), steps);
             && k < |st.places| && st.places[k].Queueing?
             && (var paid := Paid(cfg, st.places[k]);
                 && i < j <= |paid|
                 && paid[j - 1].recordAt - paid[i].recordAt <= w && paid[j - 1].byteAt - paid[i].byteAt <= w)
    ensures var paid := Paid(cfg, Run(cfg, Initial(cfg, start), steps).places[k]);
            && (j - i) as real <= cfg.rps * (1.0 + w)
            && L.BytesFrom(LimiterOf(cfg), paid[..j], i) as real <= cfg.bps * (1.0 + w)
  {
    hide Run, LimiterOf, L.BytesFrom, L.Run;
    RunKeepsHistories(cfg, start, steps);
    var p := Run(cfg, Initial(cfg, start), steps).places[k];
    assert HistoryInv(cfg, Run(cfg, Initial(cfg, start), steps).now, p);
    L.RateBound(LimiterOf(cfg), cfg.rps, cfg.bps, p.since, p.history, i, j, w);
  }

  /** In every run each limiter refills at the configured rates, holds at most one
      second's worth, and keeps its queue in the order of the batches' deadlines. */
  lemma LimitersAreConfigured(cfg: Config, start: real, steps: seq<Step>, k: nat)
    requires Timely(steps) && cfg.rps >= 0.0 && cfg.bps >= 0.0
    requires var st := Run(cfg, Initial(cfg, start), steps); k < |st.places| && st.places[k].Queueing?
    ensures var l := Run(cfg, Initial(cfg, start), steps).places[k].limiter;
            && |l.streams| == 2
            && l.streams[0].rate == l.streams[0].maxTokens == cfg.rps && 0.0 <= l.streams[0].tokens <= cfg.rps
            && l.streams[1].rate == l.streams[1].maxTokens == cfg.bps && 0.0 <= l.streams[1].tokens <= cfg.bps
            && forall i, j :: 0 <= i < j < |l.queue| ==>
                BatchDeadline(l.queue[i].batch) <= BatchDeadline(l.queue[j].batch)
  {
    hide Run, L.Run, L.WellTimed, L.EndOf, BatchDeadline;
    RunKeepsHistories(cfg, start, steps);
    var p := Run(cfg, Initial(cfg, start), steps).places[k];
    assert HistoryInv(cfg, Run(cfg, Initial(cfg, start), steps).now, p);
    L.RunTracks(LimiterOf(cfg), Fresh(cfg, p.since), p.history, p.since);
    L.QueueStaysSorted(LimiterOf(cfg), Fresh(cfg, p.since), p.history);
    var q := p.limiter.queue;
    forall i, j | 0 <= i < j < |q|
      ensures BatchDeadline(q[i].batch) <= BatchDeadline(q[j].batch)
    {
      assert L.ByDeadline(LimiterOf(cfg))(q[i], q[j]);
    }
  }

  /** The batches of these admissions, in order. */
  ghost predicate PaysFor(paid: seq<L.Admission<Batch<Buffered>>>, bs: seq<Batch<Buffered>>) {
    |paid| == |bs| && forall i :: 0 <= i < |bs| ==> paid[i].batch == bs[i]
  }

  /** The parcels a drain admits are those it pays for, in order, after the
      expired ones. */
  lemma DrainedIsPaid(cfg: Config, map': M.State, p: Place, clock: nat -> real, until: real, at: real, now: real)
      returns (expired: seq<Batch<Buffered>>, admitted: seq<Batch<Buffered>>, paid: seq<L.Admission<Batch<Buffered>>>)
    requires p.Queueing? && HistoryInv(cfg, now, p) && |p.limiter.streams| == 2
    ensures var e := ActAt(cfg, map', p, Draining(clock, until), at).value;
            && e.more == ExpiredParcels(p.stream, expired) + AdmittedParcels(p.stream, admitted)
            && Paid(cfg, e.place) == Paid(cfg, p) + paid && PaysFor(paid, admitted)
  {
    hide LimiterOf, L.AdmitFrom, L.Live, L.Expired, L.WellTimed;
    var lim := p.limiter;
    var live := L.Live(lim.queue, at);
    var n := L.AdmitFrom(LimiterOf(cfg), live, lim.streams, clock, 0).0;
    expired, admitted := L.Batches(L.Expired(lim.queue, at)), L.Batches(live[..n]);
    paid := L.Admissions(live[..n], clock, 0);
    var history := p.history + [L.Draining(at, clock, until)];
    assert Front(history) == p.history;
    var e := ActAt(cfg, map', p, Draining(clock, until), at).value;
    assert Paid(cfg, e.place) == Paid(cfg, p) + paid;
  }
}
