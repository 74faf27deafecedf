/** Conservation over every run of the producer. */
module PipelineRuns {
  import opened Common
  import opened Totals
  import opened Aggregation
  import opened Records
  import opened Hashing
  import opened Pipeline
  import opened Conservation

  /** Every accepted record is pending on its stream or finished, never both, and
      no identity is given out twice. */
  ghost predicate IdsInv(l: Ledger) {
    && (forall t :: t in l.accepted <==> t in l.pending || t in l.results)
    && (forall t :: t in l.pending ==> t !in l.results)
    && (forall t :: t in l.accepted ==> t.id < l.nextId && l.accepted[t].id == t.id)
    && (forall t, u :: t in l.accepted && u in l.accepted && t.id == u.id ==> t == u)
  }

  /** What is outstanding is what is pending plus the calls still starting; free
      permits make up the rest. */
  ghost predicate CountsInv(max: int, l: Ledger) {
    && l.outstanding == |l.pending| + l.starting
    && l.permits + l.outstanding == max
    && l.permits >= 0 && l.starting >= 0
  }

  ghost predicate LedgerInv(max: int, l: Ledger) {
    IdsInv(l) && CountsInv(max, l)
  }

  /** The identities found in all the places are the pending ones, each once. */
  ghost predicate Placed(st: State) {
    Total(PlaceIds, st.places) == multiset(st.ledger.pending)
  }

  ghost predicate Inv(cfg: Config, st: State) {
    LedgerInv(cfg.maxOutstanding, st.ledger) && Placed(st)
  }

  lemma FinishKeepsIds(l: Ledger, t: Ticket, result: RecordResult)
    requires IdsInv(l) && t in l.pending
    ensures IdsInv(Finish(l, t, result))
  {
  }

  lemma FinishKeeps(max: int, l: Ledger, t: Ticket, result: RecordResult)
    requires LedgerInv(max, l) && t in l.pending
    ensures LedgerInv(max, Finish(l, t, result))
    ensures multiset(Finish(l, t, result).pending) + multiset{t} == multiset(l.pending)
  {
    hide IdsInv;
    FinishKeepsIds(l, t, result);
    var l' := Finish(l, t, result);
    assert |l'.pending| == |l.pending| - 1;
  }

  /** `extra` is what the place takes in from a parcel. */
  lemma ApplyKeeps(cfg: Config, st: State, i: nat, e: Effect, at: real, extra: multiset<Ticket>)
    requires LedgerInv(cfg.maxOutstanding, st.ledger) && i < |st.places|
    requires Total(PlaceIds, st.places) + extra == multiset(st.ledger.pending)
    requires EffectIds(e) == PlaceIds(st.places[i]) + extra
    ensures Inv(cfg, Apply(st, i, e, at))
    ensures e.finished.Some? ==> e.finished.value.0 in st.ledger.pending
  {
    hide PlaceIds, Total, LedgerInv, Finish;
    var changed := st.places[i := e.place];
    TotalUpdate(PlaceIds, st.places, i, e.place);
    TotalContains(PlaceIds, st.places, i);
    TotalConcat(PlaceIds, changed, e.more);
    assert Total(PlaceIds, changed + e.more) + FinishedIds(e.finished) == multiset(st.ledger.pending) by {
      Rearrange(Total(PlaceIds, changed), PlaceIds(st.places[i]), Total(PlaceIds, st.places), PlaceIds(e.place),
                Total(PlaceIds, e.more), FinishedIds(e.finished), extra);
    }
    if e.finished.Some? {
      var (t, result) := e.finished.value;
      assert t in FinishedIds(e.finished);
      assert t in multiset(st.ledger.pending);
      FinishKeeps(cfg.maxOutstanding, st.ledger, t, result);
      Cancel(Total(PlaceIds, changed + e.more), multiset(Finish(st.ledger, t, result).pending), multiset{t});
    }
  }

  lemma Rearrange(changed: multiset<Ticket>, was: multiset<Ticket>, all: multiset<Ticket>, now: multiset<Ticket>,
                  more: multiset<Ticket>, finished: multiset<Ticket>, extra: multiset<Ticket>)
    requires changed + was == all + now && now + more + finished == was + extra
    ensures changed + more + finished == all + extra
  {
    forall x
      ensures (changed + more + finished)[x] == (all + extra)[x]
    {
      assert (changed + was)[x] == (all + now)[x];
      assert (now + more + finished)[x] == (was + extra)[x];
    }
  }

  lemma Cancel(a: multiset<Ticket>, b: multiset<Ticket>, c: multiset<Ticket>)
    requires a + c == b + c
    ensures a == b
  {
    assert a == (a + c) - c && b == (b + c) - c;
  }

  lemma ActingKeeps(cfg: Config, st: State, i: nat, act: Act, at: real)
    requires Inv(cfg, st)
    ensures Inv(cfg, Exec(cfg, st, Acting(i, act, at)))
  {
    hide PlaceIds, LedgerInv, ActAt, EffectIds;
    if i < |st.places| && at >= st.now && EndOfAct(act, at) >= at {
      var map' := MapFor(cfg, st, StreamOf(st.places[i]));
      var e := ActAt(cfg, map', st.places[i], act, at);
      if e.Some? {
        ActConserves(cfg, map', st.places[i], act, at);
        ApplyKeeps(cfg, st, i, e.value, EndOfAct(act, at), multiset{});
      }
    }
  }

  lemma DoneIsEmpty()
    ensures PlaceIds(Done) == multiset{}
  {
  }

  lemma HandingKeeps(cfg: Config, st: State, j: nat, i: nat, at: real)
    requires Inv(cfg, st)
    ensures Inv(cfg, Exec(cfg, st, Handing(j, i, at)))
    ensures Exec(cfg, st, Handing(j, i, at)).ledger == st.ledger
  {
    hide PlaceIds, LedgerInv, HandTo, EffectIds;
    if i < |st.places| && j < |st.places| && at >= st.now
       && Destination(st.places[j]).Some? && Destination(st.places[j]) == KeyOf(st.places[i]) {
      var e := HandTo(cfg, st.places[j], st.places[i], at);
      if e.Some? {
        assert i != j;
        HandConserves(cfg, st.places[j], st.places[i], at);
        TotalUpdate(PlaceIds, st.places, j, Done);
        DoneIsEmpty();
        var st' := st.(places := st.places[j := Done]);
        Swap(PlaceIds(st.places[j]), PlaceIds(st.places[i]));
        ApplyKeeps(cfg, st', i, e.value, at, PlaceIds(st.places[j]));
      }
    }
  }

  lemma Swap(a: multiset<Ticket>, b: multiset<Ticket>)
    ensures a + b == b + a
  {
  }

  lemma RegisterKeepsIds(l: Ledger, stream: string, b: Buffered)
    requires IdsInv(l) && b.id == l.nextId
    ensures IdsInv(Register(l, stream, b)) && Ticket(stream, l.nextId) !in l.accepted
  {
  }

  lemma RegisterKeeps(max: int, l: Ledger, stream: string, b: Buffered)
    requires LedgerInv(max, l) && l.starting > 0 && b.id == l.nextId
    ensures LedgerInv(max, Register(l, stream, b))
    ensures multiset(Register(l, stream, b).pending) == multiset(l.pending) + multiset{Ticket(stream, b.id)}
  {
    RegisterKeepsIds(l, stream, b);
    assert Ticket(stream, b.id) !in l.pending;
    hide IdsInv;
    assert |Register(l, stream, b).pending| == |l.pending| + 1;
  }

  lemma AbortKeeps(max: int, l: Ledger)
    requires LedgerInv(max, l) && l.starting > 0
    ensures LedgerInv(max, Abort(l)) && Abort(l).pending == l.pending
  {
  }

  lemma RegisteringKeeps(cfg: Config, st: State, step: Step)
    requires Inv(cfg, st) && step.Registering?
    ensures Inv(cfg, Exec(cfg, st, step))
  {
    hide Total, LedgerInv, Register, Abort;
    var l := st.ledger;
    if l.starting > 0 {
      AbortKeeps(cfg.maxOutstanding, l);
      var b := BuildBuffered(cfg.codec, l.nextId, step.record, step.at, cfg.bufferedTime);
      if b.Ok? {
        RegisterKeeps(cfg.maxOutstanding, l, step.stream, b.value);
        TotalConcat(PlaceIds, st.places, [Registered(step.stream, b.value)]);
        TotalOne(PlaceIds, Registered(step.stream, b.value));
      }
    }
  }

  lemma OpeningKeeps(cfg: Config, st: State, key: Key, at: real)
    requires Inv(cfg, st)
    ensures Inv(cfg, Exec(cfg, st, Opening(key, at)))
  {
    hide LedgerInv;
    var p := NewStage(cfg, key, at);
    TotalConcat(PlaceIds, st.places, [p]);
    TotalOne(PlaceIds, p);
    assert PlaceIds(p) == multiset{};
  }

  lemma ReportingKeeps(cfg: Config, st: State, i: nat, at: real)
    requires Inv(cfg, st)
    ensures Inv(cfg, Exec(cfg, st, Reporting(i, at))) && Exec(cfg, st, Reporting(i, at)).ledger == st.ledger
  {
    hide Total, LedgerInv;
    if i < |st.places| && st.places[i].Handling? && st.places[i].reports != [] {
      var p := st.places[i];
      var q := p.(reports := p.reports[1..]);
      TotalUpdate(PlaceIds, st.places, i, q);
      assert PlaceIds(q) == PlaceIds(p);
      Cancel(Total(PlaceIds, st.places[i := q]), Total(PlaceIds, st.places), PlaceIds(p));
    }
  }

  lemma StepKeeps(cfg: Config, st: State, step: Step)
    requires Inv(cfg, st)
    ensures Inv(cfg, Exec(cfg, st, step))
  {
    hide Total, Apply, ActAt, HandTo;
    match step
    case Acquiring =>
    case Registering(_, _, _) => RegisteringKeeps(cfg, st, step);
    case Opening(key, at) => OpeningKeeps(cfg, st, key, at);
    case Acting(i, act, at) => ActingKeeps(cfg, st, i, act, at);
    case Handing(j, i, at) => HandingKeeps(cfg, st, j, i, at);
    case Reporting(i, at) => ReportingKeeps(cfg, st, i, at);
    case Mapping(_, _) =>
  }

  /** One more step. */
  lemma Extend(cfg: Config, start: real, steps: seq<Step>, step: Step) returns (more: seq<Step>, st: State)
    ensures more == steps + [step] && st == Exec(cfg, Run(cfg, Initial(cfg, start), steps), step)
    ensures Run(cfg, Initial(cfg, start), more) == st
  {
    more := steps + [step];
    assert Front(more) == steps && Last(more) == step;
    st := Exec(cfg, Run(cfg, Initial(cfg, start), steps), step);
  }

  /** In every run, whatever the interleaving and whatever the service answers:
      accepted = pending + finished, the records in the places are exactly the
      pending ones, outstanding = pending + starting, and permits + outstanding
      = max_outstanding_records. */
  lemma {:induction false} RunConserves(cfg: Config, start: real, steps: seq<Step>)
    ensures Inv(cfg, Run(cfg, Initial(cfg, start), steps))
  {
    hide Inv, Exec;
    if steps == [] {
      InitialInv(cfg, start);
    } else {
      RunConserves(cfg, start, Front(steps));
      StepKeeps(cfg, Run(cfg, Initial(cfg, start), Front(steps)), Last(steps));
    }
  }

  lemma InitialInv(cfg: Config, start: real)
    ensures Inv(cfg, Initial(cfg, start))
  {
  }

  /** Each pending record is at exactly one place, and there once; a finished
      record is nowhere. */
  lemma EachPendingRecordIsSomewhere(cfg: Config, start: real, steps: seq<Step>, t: Ticket)
    ensures var st := Run(cfg, Initial(cfg, start), steps);
            && (t in st.ledger.pending ==>
                  exists i :: && 0 <= i < |st.places| && PlaceIds(st.places[i])[t] == 1
                              && forall j :: 0 <= j < |st.places| && j != i ==> t !in PlaceIds(st.places[j]))
            && (t !in st.ledger.pending ==> forall j :: 0 <= j < |st.places| ==> t !in PlaceIds(st.places[j]))
  {
    hide PlaceIds, Run, Total;
    RunConserves(cfg, start, steps);
    var st := Run(cfg, Initial(cfg, start), steps);
    if t in st.ledger.pending {
      var i := TotalUnique(PlaceIds, st.places, t);
    } else {
      forall j | 0 <= j < |st.places|
        ensures t !in PlaceIds(st.places[j])
      {
        TotalContains(PlaceIds, st.places, j);
      }
    }
  }

  /** A call that got a permit has its record accepted exactly if it names a
      partition key, the stream's shard map has been ready and the hash key is well
      formed; if only that fails, the permit is given back. */
  lemma AcceptedIff(cfg: Config, st: State, stream: string, record: UserRecord, at: real)
    requires Inv(cfg, st) && st.ledger.starting > 0 && st.now <= at
    ensures var l, l' := st.ledger, Exec(cfg, st, Registering(stream, record, at)).ledger;
            var t, h := Ticket(stream, l.nextId), HashKey(cfg.codec, record.partitionKey, record.explicitHashKey);
            && t !in l.accepted
            && (t in l'.accepted <==> record.partitionKey != "" && Started(cfg, st, stream) && h.Ok?)
            && (t in l'.accepted ==>
                  && l'.accepted == l.accepted[t := Buffered(t.id, record, at + cfg.bufferedTime, h.value, at, [])]
                  && l'.pending == l.pending + {t} && l'.permits == l.permits)
            && (record.partitionKey != "" && Started(cfg, st, stream) && h.Err? ==>
                  l'.permits == l.permits + 1 && l'.accepted == l.accepted && l'.pending == l.pending)
  {
    hide HashKey, Placed, CountsInv, Started;
  }

  /** When nothing is pending and no call is starting, every permit is free
      again. */
  lemma PermitsComeBack(cfg: Config, start: real, steps: seq<Step>)
    ensures var l := Run(cfg, Initial(cfg, start), steps).ledger;
            && 0 <= l.outstanding <= cfg.maxOutstanding
            && (l.permits == cfg.maxOutstanding <==> l.pending == {} && l.starting == 0)
  {
    hide Run;
    RunConserves(cfg, start, steps);
  }

  // ---- Outcomes ----

  /** One step sets at most the outcome of one record, which was pending, and
      changes none that is set; and once registered, a record is counted down
      only when its outcome is set. */
  lemma StepSetsOne(cfg: Config, st: State, step: Step)
    requires Inv(cfg, st)
    ensures var l, l' := st.ledger, Exec(cfg, st, step).ledger;
            && (l'.results == l.results
                || exists t :: t in l.pending && t !in l.results && t in l'.results &&
                    l'.results == l.results[t := l'.results[t]])
            && (!step.Acquiring? && !step.Registering? ==> l'.outstanding + |l'.results| == l.outstanding + |l.results|)
  {
    hide Placed, ActAt, HandTo, EffectIds, BuildBuffered, IdsInv, CountsInv, PlaceIds, Total, Settled, NewStage,
        KeyOf, Destination;
    match step
    case Acting(i, act, at) =>
      if i < |st.places| && at >= st.now {
        var map' := MapFor(cfg, st, StreamOf(st.places[i]));
        var e := ActAt(cfg, map', st.places[i], act, at);
        if e.Some? {
          FinishesPending(cfg, st, i, act, at);
          SettledSetsOne(st.ledger, e.value.finished);
        }
      }
    case Handing(j, i, at) => HandingKeeps(cfg, st, j, i, at);
    case _ =>
  }

  /** Only a pending record can finish. */
  lemma FinishesPending(cfg: Config, st: State, i: nat, act: Act, at: real)
    requires Inv(cfg, st) && i < |st.places|
    requires ActAt(cfg, MapFor(cfg, st, StreamOf(st.places[i])), st.places[i], act, at).Some?
    ensures var e := ActAt(cfg, MapFor(cfg, st, StreamOf(st.places[i])), st.places[i], act, at).value;
            e.finished.Some? ==> e.finished.value.0 in st.ledger.pending && e.finished.value.0 !in st.ledger.results
  {
    hide LedgerInv, ActAt, EffectIds, PlaceIds, Total;
    var map' := MapFor(cfg, st, StreamOf(st.places[i]));
    var e := ActAt(cfg, map', st.places[i], act, at).value;
    ActConserves(cfg, map', st.places[i], act, at);
    ApplyKeeps(cfg, st, i, e, at, multiset{});
    if e.finished.Some? {
      PendingIsUnset(cfg.maxOutstanding, st.ledger, e.finished.value.0);
    }
  }

  lemma PendingIsUnset(max: int, l: Ledger, t: Ticket)
    requires LedgerInv(max, l) && t in l.pending
    ensures t !in l.results
  {
  }

  lemma OneMoreKey(m: map<Ticket, RecordResult>, t: Ticket, r: RecordResult)
    requires t !in m
    ensures |m[t := r]| == |m| + 1
  {
    assert m[t := r].Keys == m.Keys + {t};
    assert |m[t := r].Keys| == |m.Keys| + 1;
  }

  lemma SettledSetsOne(l: Ledger, finished: Option<(Ticket, RecordResult)>)
    requires finished.Some? ==> finished.value.0 in l.pending && finished.value.0 !in l.results
    ensures var l' := Settled(l, finished);
            && (finished.None? ==> l' == l)
            && (finished.Some? ==>
                  var t := finished.value.0; l'.results == l.results[t := l'.results[t]] && t in l'.results)
            && l'.outstanding + |l'.results| == l.outstanding + |l.results|
  {
    if finished.Some? {
      OneMoreKey(l.results, finished.value.0, finished.value.1);
    }
  }

  /** Once set, an outcome keeps its value for the rest of the run. */
  lemma {:induction false} OutcomesAreFinal(cfg: Config, start: real, steps: seq<Step>, more: seq<Step>, t: Ticket)
    requires t in Run(cfg, Initial(cfg, start), steps).ledger.results
    ensures var before, after := Run(cfg, Initial(cfg, start), steps), Run(cfg, Initial(cfg, start), steps + more);
            t in after.ledger.results && after.ledger.results[t] == before.ledger.results[t]
  {
    hide Exec, Inv;
    if more == [] {
      assert steps + more == steps;
    } else {
      OutcomesAreFinal(cfg, start, steps, Front(more), t);
      assert Front(steps + more) == steps + Front(more) && Last(steps + more) == Last(more);
      RunConserves(cfg, start, steps + Front(more));
      StepSetsOne(cfg, Run(cfg, Initial(cfg, start), steps + Front(more)), Last(more));
    }
  }
}
