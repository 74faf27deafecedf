/** The accounting of `Producer` (aiokpl/producer.py) and the one-shot
    `Outcome` (aiokpl/outcome.py), as the steps of the ledger. */
module ProducerCode {
  import opened Common
  import opened Aggregation
  import opened Records
  import opened Hashing
  import opened Pipeline

  class Outcome {
    var value: Option<RecordResult>

    constructor ()
      ensures value == None
    {
      value := None;
    }

    /** Resolves the outcome once; the second time is an error and changes
        nothing. */
    method SetValue(result: RecordResult) returns (ok: bool)
      modifies this
      ensures ok <==> old(value) == None
      ensures value == if ok then Some(result) else old(value)
    {
      if value.Some? {
        return false;
      }
      value := Some(result);
      ok := true;
    }
  }

  /** How far a call of `put_record` got. */
  datatype Put = Waiting | Refused | Accepted(record: Buffered, outcome: Outcome)

  type Dictionaries = map<string, map<nat, Outcome>>

  predicate IsPending(pipelines: Dictionaries, t: Ticket) {
    t.stream in pipelines && t.id in pipelines[t.stream]
  }

  /** The dictionaries hold the pending outcomes, and no two records share one. */
  ghost predicate TablesAgree(pipelines: Dictionaries, pending: set<Ticket>, finished: set<Ticket>,
                              outcomes: map<Ticket, Outcome>, nextId: nat)
  {
    && pending + finished <= outcomes.Keys
    && pending !! finished
    && (forall t :: t in pending <==> IsPending(pipelines, t))
    && (forall t :: t in outcomes ==> t.id < nextId)
    && (forall t :: t in pending ==> pipelines[t.stream][t.id] == outcomes[t])
    && (forall t, u :: t in outcomes && u in outcomes && t != u ==> outcomes[t] != outcomes[u])
  }

  /** One more entry in the dictionary of `stream`. */
  lemma EntryAdded(pipelines: Dictionaries, mine: map<nat, Outcome>, pending: set<Ticket>, finished: set<Ticket>,
                   outcomes: map<Ticket, Outcome>, nextId: nat, stream: string, o: Outcome)
    requires TablesAgree(pipelines, pending, finished, outcomes, nextId)
    requires stream in pipelines && mine == pipelines[stream] && o !in outcomes.Values
    ensures var t := Ticket(stream, nextId);
            && t !in outcomes
            && TablesAgree(pipelines[stream := mine[nextId := o]], pending + {t}, finished, outcomes[t := o],
                           nextId + 1)
  {
    var t, more := Ticket(stream, nextId), pipelines[stream := mine[nextId := o]];
    forall u
      ensures u in pending + {t} <==> IsPending(more, u)
    {
      assert u in pending <==> IsPending(pipelines, u);
      assert u == t <==> u.stream == stream && u.id == nextId;
    }
  }

  lemma EntryFound(pipelines: Dictionaries, pending: set<Ticket>, finished: set<Ticket>,
                   outcomes: map<Ticket, Outcome>, nextId: nat, t: Ticket)
    requires TablesAgree(pipelines, pending, finished, outcomes, nextId)
    ensures t in pending <==> IsPending(pipelines, t)
  {
  }

  /** One entry less. */
  lemma EntryRemoved(pipelines: Dictionaries, pending: set<Ticket>, finished: set<Ticket>,
                     outcomes: map<Ticket, Outcome>, nextId: nat, stream: string, id: nat)
    requires TablesAgree(pipelines, pending, finished, outcomes, nextId)
    requires IsPending(pipelines, Ticket(stream, id))
    ensures var t := Ticket(stream, id);
            && t in pending
            && TablesAgree(pipelines[stream := pipelines[stream] - {id}], pending - {t}, finished + {t}, outcomes,
                           nextId)
  {
    var t, less := Ticket(stream, id), pipelines[stream := pipelines[stream] - {id}];
    forall u
      ensures u in pending - {t} <==> IsPending(less, u)
    {
      assert u in pending <==> IsPending(pipelines, u);
      assert u == t <==> u.stream == stream && u.id == id;
    }
  }

  class Producer {
    var outstanding: int
    var permits: int
    var pipelines: Dictionaries                     // per stream, its pending outcomes
    var nextId: nat
    ghost var accepted: map<Ticket, Buffered>
    ghost var starting: int
    ghost var results: map<Ticket, RecordResult>
    ghost var pending: set<Ticket>                  // the entries of all the dictionaries
    ghost var outcomes: map<Ticket, Outcome>        // every outcome handed to a caller

    ghost predicate Tables()
      reads this
    {
      TablesAgree(pipelines, pending, results.Keys, outcomes, nextId)
    }

    /** A pending outcome is unset, a finished one holds its result. */
    ghost predicate Values()
      reads this, outcomes.Values
    {
      && pending + results.Keys <= outcomes.Keys
      && (forall t :: t in pending ==> outcomes[t].value == None)
      && (forall t :: t in results ==> outcomes[t].value == Some(results[t]))
    }

    ghost predicate Valid()
      reads this, outcomes.Values
    {
      Tables() && Values()
    }

    ghost function View(): Ledger
      reads this
    {
      Ledger(accepted, pending, results, outstanding, permits, starting, nextId)
    }

    constructor (maxOutstanding: nat)
      ensures Valid() && View() == Ledger(map[], {}, map[], 0, maxOutstanding, 0, 0) && outcomes == map[]
    {
      outstanding, permits, pipelines, nextId := 0, maxOutstanding, map[], 0;
      accepted, starting, results, pending, outcomes := map[], 0, map[], {}, map[];
    }

    /** The semaphore: without a free permit the call waits. */
    method Acquire() returns (acquired: bool)
      requires Valid()
      modifies this
      ensures Valid() && outcomes == old(outcomes)
      ensures acquired <==> old(permits) > 0
      ensures View() == if acquired then Begin(old(View())) else old(View())
    {
      acquired := permits > 0;
      if acquired {
        permits, outstanding := permits - 1, outstanding + 1;
        starting := starting + 1;
      }
    }

    /** A stream gets its own pipeline, with nothing pending, on first use; the
        call waits until the shard map of a new pipeline has been ready once. */
    method GetOrCreatePipeline(stream: string, mapReady: bool) returns (got: bool)
      requires Valid()
      modifies this`pipelines
      ensures Valid() && (got <==> stream in old(pipelines) || mapReady)
      ensures got ==> stream in pipelines
      ensures forall s :: s in old(pipelines) ==> s in pipelines && pipelines[s] == old(pipelines)[s]
      ensures forall s :: s in pipelines && s !in old(pipelines) ==> s == stream && mapReady && pipelines[s] == map[]
    {
      if stream in pipelines {
        return true;
      }
      if !mapReady {
        return false;
      }
      pipelines := pipelines[stream := map[]];
      return true;
    }

    /** A new outcome for a new record, known to its stream's pipeline. */
    method RegisterOutcome(stream: string, b: Buffered) returns (o: Outcome)
      requires Valid() && stream in pipelines && b.id == nextId
      modifies this
      ensures Valid() && View() == Register(old(View()), stream, b)
      ensures fresh(o) && o.value == None
      ensures outcomes == old(outcomes)[Ticket(stream, b.id) := o]
    {
      hide TablesAgree;
      ghost var t := Ticket(stream, nextId);
      o := new Outcome();
      var mine: map<nat, Outcome> := pipelines[stream];
      EntryAdded(pipelines, mine, pending, results.Keys, outcomes, nextId, stream, o);
      pipelines := pipelines[stream := mine[nextId := o]];
      pending, accepted, outcomes := pending + {t}, accepted[t := b], outcomes[t := o];
      nextId, starting := nextId + 1, starting - 1;
    }

    /** The way out of a failed `put_record`. */
    method GiveBack()
      requires Valid()
      modifies this
      ensures Valid() && View() == Abort(old(View())) && outcomes == old(outcomes)
    {
      outstanding, permits, starting := outstanding - 1, permits + 1, starting - 1;
    }

    /** The rest of `put_record`: it waits for the pipeline; the outcome is
        registered before the record is routed; a malformed hash key gives the
        permit back. */
    method PutRecord(c: Codec, stream: string, mapReady: bool, record: UserRecord, now: real, bufferedTime: real)
        returns (r: Put)
      requires Valid()
      modifies this
      ensures Valid()
      ensures r.Waiting? <==> stream !in old(pipelines) && !mapReady
      ensures r.Accepted? <==> !r.Waiting? && HashKey(c, record.partitionKey, record.explicitHashKey).Ok?
      ensures View() == match r
                        case Waiting => old(View())
                        case Refused => Abort(old(View()))
                        case Accepted(b, _) => Register(old(View()), stream, b)
      ensures r.Accepted? ==>
                && Ok(r.record) == BuildBuffered(c, old(nextId), record, now, bufferedTime)
                && fresh(r.outcome) && r.outcome.value == None
                && outcomes == old(outcomes)[Ticket(stream, r.record.id) := r.outcome]
      ensures !r.Accepted? ==> outcomes == old(outcomes)
    {
      hide HashKey, Valid;
      var got := GetOrCreatePipeline(stream, mapReady);
      if !got {
        return Waiting;
      }
      var b := BuildBuffered(c, nextId, record, now, bufferedTime);
      if b.Err? {
        GiveBack();
        return Refused;
      }
      var o := RegisterOutcome(stream, b.value);
      r := Accepted(b.value, o);
    }

    /** Takes a pending outcome out of its stream's dictionary. */
    method PopOutcome(stream: string, id: nat, ghost result: RecordResult) returns (o: Outcome)
      requires Tables() && stream in pipelines && id in pipelines[stream]
      modifies this
      ensures Tables() && outcomes == old(outcomes)
      ensures Ticket(stream, id) in old(pending) && o == outcomes[Ticket(stream, id)]
      ensures forall t :: t in outcomes && t != Ticket(stream, id) ==> outcomes[t] != o
      ensures pending == old(pending) - {Ticket(stream, id)} && results == old(results)[Ticket(stream, id) := result]
      ensures View() == old(View()).(pending := pending, results := results)
    {
      ghost var t := Ticket(stream, id);
      EntryRemoved(pipelines, pending, results.Keys, outcomes, nextId, stream, id);
      assert results[t := result].Keys == results.Keys + {t};
      o := pipelines[stream][id];
      pipelines := pipelines[stream := pipelines[stream] - {id}];
      pending, results := pending - {t}, results[t := result];
    }

    /** Called by the pipeline of `stream` with every terminal result: the
        caller's outcome gets exactly this result and no other outcome changes. */
    method OnRetrierFinish(stream: string, id: nat, result: RecordResult)
      requires Valid() && stream in pipelines
      modifies this, outcomes.Values
      ensures Valid() && outcomes == old(outcomes)
      ensures View() == Finish(old(View()), Ticket(stream, id), result)
      ensures forall t :: t in outcomes ==>
                outcomes[t].value
                == if t == Ticket(stream, id) && t in old(pending) then Some(result) else old(outcomes[t].value)
    {
      hide TablesAgree;
      EntryFound(pipelines, pending, results.Keys, outcomes, nextId, Ticket(stream, id));
      outstanding, permits := outstanding - 1, permits + 1;
      if id in pipelines[stream] {
        var o := PopOutcome(stream, id, result);
        if o.value.None? {
          var _ := o.SetValue(result);
        }
      }
    }
  }
}
