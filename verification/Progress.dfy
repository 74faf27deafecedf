/** Past the TTL of everything accepted, every run that keeps moving finishes. */
module Progress {
  import opened Common
  import opened Sums
  import opened Totals
  import opened Aggregation
  import opened Records
  import opened Retrier
  import opened Pipeline
  import opened Conservation
  import R = ReducerSpec
  import L = Limiter
  import M = ShardMap
  import PR = PipelineRuns
  import Q = Routing
  import RR = RoutingRuns
  import opened Drainability

  /** A record at `p` is elsewhere or further on. */
  ghost predicate Moved(p: Place, p': Place) {
    |PlaceIds(p)| > 0 && (PlaceIds(p') != PlaceIds(p) || Rank(p') != Rank(p))
  }

  ghost predicate SomeMoved(st: State, st': State) {
    exists i :: 0 <= i < |st.places| && i < |st'.places| && Moved(st.places[i], st'.places[i])
  }

  lemma NeverHeavier(p: Place, e: Effect)
    requires EffectIds(e) == PlaceIds(p) && Rank(e.place) <= Rank(p) && Rank(p) >= 1
    requires forall i :: 0 <= i < |e.more| ==> Rank(e.more[i]) <= Rank(p) - 1
    ensures EffectLoad(e) <= Weight(p) && (Moved(p, e.place) ==> EffectLoad(e) < Weight(p))
  {
    hide PlaceIds, Rank, Load;
    var n, n', m, f := |PlaceIds(p)|, |PlaceIds(e.place)|, |Total(PlaceIds, e.more)|, |FinishedIds(e.finished)|;
    assert |EffectIds(e)| == n' + m + f;
    if n' < n || (Rank(e.place) < Rank(p) && n > 0) {
      Lighter(p, e);
    } else {
      SameBag(PlaceIds(e.place), Total(PlaceIds, e.more) + FinishedIds(e.finished), PlaceIds(p));
      assert m == 0;
      MoreLoad(e.more, Rank(p));
      MulMono(Rank(e.place), Rank(p), n);
    }
  }

  lemma SameBag(a: multiset<Ticket>, b: multiset<Ticket>, c: multiset<Ticket>)
    requires a + b == c && |a| >= |c|
    ensures a == c
  {
    assert |a + b| == |a| + |b|;
    assert b == multiset{};
  }

  /** Records only move on, unless one is sent round again. */
  lemma RanksDrop(cfg: Config, map': M.State, p: Place, act: Act, at: real)
    requires ActAt(cfg, map', p, act, at).Some?
    requires p.Handling? && act.Settling? && p.ruled != [] ==> at - p.ruled[0].0.arrivalTime > cfg.policy.ttl
    ensures var e := ActAt(cfg, map', p, act, at).value;
            && 1 <= Rank(p) && Rank(e.place) <= Rank(p)
            && forall i :: 0 <= i < |e.more| ==> Rank(e.more[i]) <= Rank(p) - 1
  {
    hide R.Flush, R.Fire, L.Drain, L.DrainForce, AggregatorOf, CollectorOf, LimiterOf, RuleItems, Rulings, M.Predict;
  }

  lemma ActingNeverHeavier(cfg: Config, start: real, steps: seq<Step>, i: nat, act: Act, at: real)
    requires Lawful(cfg.codec)
    requires var st := Run(cfg, Initial(cfg, start), steps); AllPast(cfg, st.ledger, st.now)
    ensures var st := Run(cfg, Initial(cfg, start), steps);
            var st' := Exec(cfg, st, Acting(i, act, at));
            && Load(st'.places) <= Load(st.places) && (SomeMoved(st, st') ==> Load(st'.places) < Load(st.places))
  {
    hide Run, Load, Weight, EffectLoad, ActAt, Lawful, AllPast, PlaceIds, EffectIds, Rank, MapFor;
    var st := Run(cfg, Initial(cfg, start), steps);
    if i < |st.places| && at >= st.now && EndOfAct(act, at) >= at {
      var p, map' := st.places[i], MapFor(cfg, st, StreamOf(st.places[i]));
      if ActAt(cfg, map', p, act, at).Some? {
        var e := ActAt(cfg, map', p, act, at).value;
        if p.Handling? && p.ruled != [] {
          NextIsLate(cfg, start, steps, i, at);
        }
        RanksDrop(cfg, map', p, act, at);
        ActConserves(cfg, map', p, act, at);
        NeverHeavier(p, e);
        ApplyLoad(st, i, e, EndOfAct(act, at));
        OnlyThere(st, i, e, EndOfAct(act, at));
      } else {
        StaysPut(st);
      }
    } else {
      StaysPut(st);
    }
  }

  /** An effect at place `i` moves nothing anywhere else. */
  lemma OnlyThere(st: State, i: nat, e: Effect, at: real)
    requires i < |st.places|
    ensures SomeMoved(st, Apply(st, i, e, at)) ==> Moved(st.places[i], e.place)
  {
    hide PlaceIds, Rank;
  }

  lemma StaysPut(st: State)
    ensures !SomeMoved(st, st)
  {
    hide PlaceIds, Rank;
  }

  lemma NextIsLate(cfg: Config, start: real, steps: seq<Step>, i: nat, at: real)
    requires Lawful(cfg.codec)
    requires var st := Run(cfg, Initial(cfg, start), steps);
             && AllPast(cfg, st.ledger, st.now) && st.now <= at
             && i < |st.places| && st.places[i].Handling? && st.places[i].ruled != []
    ensures at - Run(cfg, Initial(cfg, start), steps).places[i].ruled[0].0.arrivalTime > cfg.policy.ttl
  {
    hide Run, Lawful, Q.GoodRecord, Q.Routable, AllPast;
    var st := Run(cfg, Initial(cfg, start), steps);
    RR.RunIsGood(cfg, None, 0.0, start, steps);
    assert Q.GoodPlace(cfg, RR.WorldOf(None, 0.0, st), st.now, st.places[i]);
    assert st.places[i].ruled[0] in st.places[i].ruled;
    LateRecord(cfg, st, st.now, st.places[i].stream, st.places[i].ruled[0].0, st.now);
  }

  lemma ParcelHolds(cfg: Config, world: Q.World, now: real, p: Place)
    requires Q.GoodPlace(cfg, world, now, p) && Destination(p).Some?
    ensures |PlaceIds(p)| > 0
  {
    hide Q.Routable, Q.FitsBatch;
    if p.Closed? || p.Admitted? {
      BatchHolds(p.stream, p.batch);
    }
  }

  lemma HandingNeverHeavier(cfg: Config, start: real, steps: seq<Step>, j: nat, i: nat, at: real)
    requires Lawful(cfg.codec)
    ensures var st := Run(cfg, Initial(cfg, start), steps);
            var st' := Exec(cfg, st, Handing(j, i, at));
            && Load(st'.places) <= Load(st.places) && (SomeMoved(st, st') ==> Load(st'.places) < Load(st.places))
  {
    hide Run, Load, Lawful, PlaceIds, HandTo, SomeMoved;
    var st := Run(cfg, Initial(cfg, start), steps);
    StaysPut(st);
    if i < |st.places| && j < |st.places| && at >= st.now
       && Destination(st.places[j]).Some? && Destination(st.places[j]) == KeyOf(st.places[i]) {
      RR.RunIsGood(cfg, None, 0.0, start, steps);
      var world := RR.WorldOf(None, 0.0, st);
      assert Q.GoodPlace(cfg, world, st.now, st.places[j]);
      ParcelHolds(cfg, world, st.now, st.places[j]);
      HandingLoad(cfg, st, j, i, at);
    }
  }

  /** Past the TTL of everything accepted, no step but a registration adds to the
      load, and every step that moves a record takes from it. */
  lemma StepNeverHeavier(cfg: Config, start: real, steps: seq<Step>, step: Step)
    requires Lawful(cfg.codec) && !step.Registering?
    requires var st := Run(cfg, Initial(cfg, start), steps); AllPast(cfg, st.ledger, st.now)
    ensures var st := Run(cfg, Initial(cfg, start), steps);
            var st' := Exec(cfg, st, step);
            && Load(st'.places) <= Load(st.places) && (SomeMoved(st, st') ==> Load(st'.places) < Load(st.places))
            && AllPast(cfg, st'.ledger, st'.now)
  {
    hide Run, Load, Lawful, SomeMoved, ActAt, HandTo, NewStage, HasStage, Settled, MapFor;
    var st := Run(cfg, Initial(cfg, start), steps);
    StaysPast(cfg, st, step);
    match step
    case Acquiring => SamePlaces(st, Exec(cfg, st, step));
    case Opening(key, at) =>
      SamePlaces(st, st);
      if at >= st.now && !HasStage(st.places, key) && !(key.kind.CollectorKind? && key.shard.Some?) {
        OpeningLoad(cfg, st, key, at);
        SamePlaces(st, Exec(cfg, st, step));
      }
    case Acting(i, act, at) => ActingNeverHeavier(cfg, start, steps, i, act, at);
    case Handing(j, i, at) => HandingNeverHeavier(cfg, start, steps, j, i, at);
    case Reporting(i, at) =>
      SamePlaces(st, st);
      if i < |st.places| && st.places[i].Handling? && st.places[i].reports != [] && at >= st.now {
        ReportingLoad(cfg, st, i, at);
        OneReported(st, Exec(cfg, st, step), i);
      }
    case Mapping(_, _) => SamePlaces(st, Exec(cfg, st, step));
  }

  lemma SamePlaces(st: State, st': State)
    requires |st.places| <= |st'.places| && st'.places[..|st.places|] == st.places
    ensures !SomeMoved(st, st')
  {
    hide PlaceIds, Rank;
    assert forall i :: 0 <= i < |st.places| ==> st'.places[i] == st'.places[..|st.places|][i];
  }

  lemma OneReported(st: State, st': State, i: nat)
    requires i < |st.places| && st.places[i].Handling? && st.places[i].reports != []
    requires st'.places == st.places[i := st.places[i].(reports := st.places[i].reports[1..])]
    ensures !SomeMoved(st, st')
  {
  }

  lemma StaysPast(cfg: Config, st: State, step: Step)
    requires AllPast(cfg, st.ledger, st.now) && !step.Registering?
    ensures AllPast(cfg, Exec(cfg, st, step).ledger, Exec(cfg, st, step).now)
  {
    hide ActAt, HandTo, NewStage, HasStage, MapFor, KeyOf, Destination;
    var st' := Exec(cfg, st, step);
    assert st'.ledger.accepted == st.ledger.accepted && st.now <= st'.now;
  }

  /** How many of the steps `more` after `steps` move a record. */
  ghost function Moves(cfg: Config, start: real, steps: seq<Step>, more: seq<Step>): nat {
    if more == [] then 0
    else
      var before := Run(cfg, Initial(cfg, start), steps + Front(more));
      Moves(cfg, start, steps, Front(more)) + if SomeMoved(before, Exec(cfg, before, Last(more))) then 1 else 0
  }

  lemma {:induction false} MovesAreBounded(cfg: Config, start: real, steps: seq<Step>, more: seq<Step>)
    requires Lawful(cfg.codec) && forall i :: 0 <= i < |more| ==> !more[i].Registering?
    requires var st := Run(cfg, Initial(cfg, start), steps); AllPast(cfg, st.ledger, st.now)
    ensures var st, st' := Run(cfg, Initial(cfg, start), steps), Run(cfg, Initial(cfg, start), steps + more);
            && Moves(cfg, start, steps, more) + Load(st'.places) <= Load(st.places)
            && AllPast(cfg, st'.ledger, st'.now)
  {
    hide Exec, Load, Lawful, AllPast, SomeMoved;
    if more == [] {
      assert steps + more == steps;
    } else {
      assert forall i :: 0 <= i < |Front(more)| ==> Front(more)[i] == more[i];
      MovesAreBounded(cfg, start, steps, Front(more));
      assert Front(steps + more) == steps + Front(more) && Last(steps + more) == Last(more) == more[|more| - 1];
      StepNeverHeavier(cfg, start, steps + Front(more), Last(more));
    }
  }

  lemma NothingLeft(cfg: Config, start: real, steps: seq<Step>)
    requires Load(Run(cfg, Initial(cfg, start), steps).places) <= 0
    ensures Run(cfg, Initial(cfg, start), steps).ledger.pending == {}
  {
    hide Run, PlaceIds, Total, Sum, Weight;
    var st := Run(cfg, Initial(cfg, start), steps);
    if st.ledger.pending != {} {
      var t :| t in st.ledger.pending;
      PR.RunConserves(cfg, start, steps);
      assert Total(PlaceIds, st.places)[t] == 1;
      var i := TotalUnique(PlaceIds, st.places, t);
      SumAround(Weight, st.places, i);
      LoadNonnegative(st.places[..i] + st.places[i + 1..]);
      HoldsWeigh(st.places[i], t);
      assert false;
    }
  }

  lemma HoldsWeigh(p: Place, t: Ticket)
    requires t in PlaceIds(p)
    ensures Weight(p) > 0
  {
    hide Total;
    assert |PlaceIds(p)| > 0;
    MulMono(1, Rank(p), |PlaceIds(p)|);
  }

  /** Once everything accepted is past its TTL, every run that accepts nothing
      more makes at most `Load` moves, whatever the steps and the answers; and a
      run that makes them all has finished every record. While anything is
      pending a move is possible. */
  lemma EveryMovingRunFinishes(cfg: Config, start: real, steps: seq<Step>, more: seq<Step>)
    requires Lawful(cfg.codec) && forall i :: 0 <= i < |more| ==> !more[i].Registering?
    requires var st := Run(cfg, Initial(cfg, start), steps); AllPast(cfg, st.ledger, st.now)
    ensures var load := Load(Run(cfg, Initial(cfg, start), steps).places);
            var st' := Run(cfg, Initial(cfg, start), steps + more);
            && Moves(cfg, start, steps, more) <= load
            && (Moves(cfg, start, steps, more) == load ==> st'.ledger.pending == {})
            && (st'.ledger.pending != {} ==> exists next :: Advances(cfg, start, steps + more, next, st'.now))
  {
    hide Run, Load, Lawful, AllPast, Moves, Advances;
    var st' := Run(cfg, Initial(cfg, start), steps + more);
    MovesAreBounded(cfg, start, steps, more);
    LoadNonnegative(st'.places);
    if Load(st'.places) <= 0 {
      NothingLeft(cfg, start, steps + more);
    }
    if st'.ledger.pending != {} {
      var next := Advance(cfg, start, steps + more, st'.now);
    }
  }
}
