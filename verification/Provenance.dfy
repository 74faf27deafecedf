/** Every attempt in a record's history, and every result, says what the service
    said about that record, over every run. */
module Provenance {
  import opened Common
  import opened Aggregation
  import opened Records
  import opened Hashing
  import opened Retrier
  import opened Pipeline
  import opened Routing
  import opened RoutingRuns
  import R = ReducerSpec
  import Runs = ReducerRuns
  import L = Limiter
  import M = ShardMap
  import S = Sorting
  import C = Conservation
  import PR = PipelineRuns

  // ---- What the service said ----

  /** What one call of PutRecords says about one batch of its request. */
  datatype Word =
    | Success(startedAt: real, endedAt: real, shardId: Option<string>, sequenceNumber: Option<string>)
    | Failure(startedAt: real, endedAt: real, code: string, message: string)

  function Text(s: Option<string>, missing: string): string {
    if s.Some? && s.value != "" then s.value else missing
  }

  /** About the k-th batch of a request of `count`: a slot with a sequence number
      is a success; any other slot is a failure with its error code and message;
      if the call raises, or the slots do not match, all have failed. */
  function WordOf(response: Response, count: nat, k: nat, startedAt: real, endedAt: real): Word
    requires k < count
  {
    match response
    case Raised(code, message) => Failure(startedAt, endedAt, code, message)
    case Replied(slots) =>
      if |slots| != count then Failure(startedAt, endedAt, "RecordCountMismatch", MismatchMessage(|slots|, count))
      else if Text(slots[k].sequenceNumber, "") != "" then
        Success(startedAt, endedAt, slots[k].shardId, slots[k].sequenceNumber)
      else Failure(startedAt, endedAt, Text(slots[k].errorCode, "Unknown"), Text(slots[k].errorMessage, ""))
  }

  /** This act at place `p` is an answer to a request whose k-th batch holds the
      record, and `w` is what it says about that batch. */
  ghost predicate Tells(p: Place, act: Act, at: real, k: nat, stream: string, id: nat, w: Word) {
    && act.Answering? && act.startedAt <= at && p.Sending? && p.stream == stream && k < |p.batches|
    && (exists r :: r in p.batches[k].items && r.id == id)
    && w == WordOf(act.response, |p.batches|, k, act.startedAt, at)
  }

  /** The n-th step of the run is that act. */
  ghost predicate ToldAt(cfg: Config, start: real, steps: seq<Step>, n: nat, k: nat, stream: string, id: nat, w: Word) {
    && n < |steps| && steps[n].Acting?
    && var st := Run(cfg, Initial(cfg, start), steps[..n]);
       && steps[n].i < |st.places| && st.now <= steps[n].at
       && Tells(st.places[steps[n].i], steps[n].act, steps[n].at, k, stream, id, w)
  }

  ghost predicate Told(cfg: Config, start: real, steps: seq<Step>, stream: string, id: nat, w: Word) {
    exists n, k :: ToldAt(cfg, start, steps, n, k, stream, id, w)
  }

  type Telling = (string, nat, Word) -> bool

  /** What was said in the run so far. */
  ghost function Said(cfg: Config, start: real, steps: seq<Step>): Telling {
    (stream: string, id: nat, w: Word) => Told(cfg, start, steps, stream, id, w)
  }

  // ---- What a history may hold ----

  /** A success was said, with this shard and sequence number; a failure was said,
      with this code and message, or is a success of a wrong shard, or comes once
      the record is as old as its TTL. */
  ghost predicate Explained(policy: Policy, told: Telling, stream: string, id: nat, arrival: real, a: Attempt) {
    && (a.success ==>
          && a.errorCode == None && a.errorMessage == None
          && told(stream, id, Success(a.startedAt, a.endedAt, a.shardId, a.sequenceNumber)))
    && (!a.success ==>
          && a.shardId == None && a.sequenceNumber == None && a.errorCode.Some? && a.errorMessage.Some?
          && Blamed(policy, told, stream, id, arrival, a.startedAt, a.endedAt, a.errorCode.value, a.errorMessage.value))
  }

  ghost predicate Blamed(policy: Policy, told: Telling, stream: string, id: nat, arrival: real, s: real, e: real,
                         code: string, message: string) {
    || told(stream, id, Failure(s, e, code, message))
    || (code == WRONG_SHARD && message == WRONG_SHARD_MESSAGE && Elsewhere(told, stream, id, s, e))
    || (code == EXPIRED && arrival + policy.ttl <= s && s == e)
  }

  /** A success was said. */
  ghost predicate Elsewhere(told: Telling, stream: string, id: nat, s: real, e: real) {
    exists shardId, sequenceNumber :: told(stream, id, Success(s, e, shardId, sequenceNumber))
  }

  ghost predicate ExplainedRecord(policy: Policy, told: Telling, stream: string, r: Buffered) {
    forall i :: 0 <= i < |r.attempts| ==> Explained(policy, told, stream, r.id, r.arrivalTime, r.attempts[i])
  }

  /** Throttled records are given up exactly if they are to be. */
  ghost predicate ExplainedRuling(policy: Policy, told: Telling, stream: string, r: Buffered, s: real, e: real,
                                  ruling: Ruling) {
    match ruling
    case Accept(shardId, sequenceNumber) => told(stream, r.id, Success(s, e, shardId, sequenceNumber))
    case Reject(code, message) =>
      told(stream, r.id, Failure(s, e, code, message)) && code == THROTTLED && policy.failIfThrottled
    case TryAgain(code, message) =>
      && Blamed(policy, told, stream, r.id, r.arrivalTime, s, e, code, message)
      && !(code == THROTTLED && policy.failIfThrottled)
  }

  function WordFrom(pr: PerRecord<Buffered>, s: real, e: real): Word {
    if pr.success then Success(s, e, pr.shardId, pr.sequenceNumber)
    else Failure(s, e, Text(pr.errorCode, "Unknown"), if pr.errorMessage.Some? then pr.errorMessage.value else "")
  }

  ghost predicate ExplainedAnswer(told: Telling, stream: string, s: real, e: real, pr: PerRecord<Buffered>) {
    forall r :: r in pr.batch.items ==> told(stream, r.id, WordFrom(pr, s, e))
  }

  ghost predicate ExplainedRecords(policy: Policy, told: Telling, p: Place) {
    forall r :: Holds(p, r) ==> ExplainedRecord(policy, told, StreamOf(p), r)
  }

  ghost predicate ExplainedAnswers(policy: Policy, told: Telling, p: Place) {
    p.Handling? ==>
      && (forall w :: w in p.ruled ==> ExplainedRuling(policy, told, p.stream, w.0, p.startedAt, p.endedAt, w.1))
      && (forall pr :: pr in p.waiting ==> ExplainedAnswer(told, p.stream, p.startedAt, p.endedAt, pr))
  }

  ghost predicate ExplainedPlace(policy: Policy, told: Telling, p: Place) {
    ExplainedRecords(policy, told, p) && ExplainedAnswers(policy, told, p)
  }

  /** The result carries its whole history, and what the last attempt says. */
  ghost predicate ExplainedResult(policy: Policy, told: Telling, t: Ticket, arrival: real, r: RecordResult) {
    && r.attempts != []
    && (forall i :: 0 <= i < |r.attempts| ==> Explained(policy, told, t.stream, t.id, arrival, r.attempts[i]))
    && r.success == Last(r.attempts).success
    && r.shardId == Last(r.attempts).shardId && r.sequenceNumber == Last(r.attempts).sequenceNumber
  }

  /** What `e` leaves at the place, sends off and finishes. */
  ghost predicate ExplainedEffect(policy: Policy, told: Telling, origin: map<Ticket, Buffered>, e: Effect) {
    && ExplainedPlace(policy, told, e.place)
    && (forall i :: 0 <= i < |e.more| ==> ExplainedPlace(policy, told, e.more[i]))
    && (e.finished.Some? ==> ExplainedOutcome(policy, told, origin, e.finished.value.0, e.finished.value.1))
  }

  ghost predicate ExplainedOutcome(policy: Policy, told: Telling, origin: map<Ticket, Buffered>, t: Ticket,
                                   r: RecordResult) {
    t in origin && ExplainedResult(policy, told, t, origin[t].arrivalTime, r)
  }

  ghost predicate More(told: Telling, told': Telling) {
    forall stream, id, w :: told(stream, id, w) ==> told'(stream, id, w)
  }

  // ---- More is said ----

  lemma ExplainedLater(policy: Policy, told: Telling, told': Telling, stream: string, id: nat, arrival: real,
                       a: Attempt)
    requires Explained(policy, told, stream, id, arrival, a) && More(told, told')
    ensures Explained(policy, told', stream, id, arrival, a)
  {
  }

  lemma RecordLater(policy: Policy, told: Telling, told': Telling, stream: string, r: Buffered)
    requires ExplainedRecord(policy, told, stream, r) && More(told, told')
    ensures ExplainedRecord(policy, told', stream, r)
  {
    hide Explained, More;
    forall i | 0 <= i < |r.attempts|
      ensures Explained(policy, told', stream, r.id, r.arrivalTime, r.attempts[i])
    {
      ExplainedLater(policy, told, told', stream, r.id, r.arrivalTime, r.attempts[i]);
    }
  }

  lemma PlaceToldLater(policy: Policy, told: Telling, told': Telling, p: Place)
    requires ExplainedPlace(policy, told, p) && More(told, told')
    ensures ExplainedPlace(policy, told', p)
  {
    hide Holds, ExplainedRecord;
    forall r | Holds(p, r)
      ensures ExplainedRecord(policy, told', StreamOf(p), r)
    {
      RecordLater(policy, told, told', StreamOf(p), r);
    }
  }

  lemma OutcomeLater(policy: Policy, told: Telling, told': Telling, origin: map<Ticket, Buffered>, t: Ticket,
                     r: RecordResult)
    requires ExplainedOutcome(policy, told, origin, t, r) && More(told, told')
    ensures ExplainedOutcome(policy, told', origin, t, r)
  {
    hide Explained, More;
    forall i | 0 <= i < |r.attempts|
      ensures Explained(policy, told', t.stream, t.id, origin[t].arrivalTime, r.attempts[i])
    {
      ExplainedLater(policy, told, told', t.stream, t.id, origin[t].arrivalTime, r.attempts[i]);
    }
  }

  // ---- Records that move ----

  /** All that the effect leaves anywhere was at `p` or in `extra`, and no answer
      is handled there. */
  ghost predicate Moves(p: Place, extra: seq<Buffered>, e: Effect) {
    && !e.place.Handling? && StreamOf(e.place) == StreamOf(p) && e.finished.None?
    && (forall r :: Holds(e.place, r) ==> Holds(p, r) || r in extra)
    && (forall i :: 0 <= i < |e.more| ==>
          && !e.more[i].Handling? && StreamOf(e.more[i]) == StreamOf(p)
          && forall r :: Holds(e.more[i], r) ==> Holds(p, r) || r in extra)
  }

  lemma MovedIsExplained(policy: Policy, told: Telling, origin: map<Ticket, Buffered>, p: Place, extra: seq<Buffered>,
                         e: Effect)
    requires ExplainedPlace(policy, told, p) && Moves(p, extra, e)
    requires forall r :: r in extra ==> ExplainedRecord(policy, told, StreamOf(p), r)
    ensures ExplainedEffect(policy, told, origin, e)
  {
    hide Holds, ExplainedRecord;
  }

  lemma Members<I(!new)>(cfg: R.Config<I>, st: R.State<I>, e: Runs.Event<I>)
    requires R.Monotone(cfg)
    ensures var (st', closed) := Runs.Step(cfg, st, e);
            forall x :: x in st'.active || (closed.Some? && x in closed.value) ==>
              x in st.active || (e.Adding? && x == e.item)
  {
    hide Runs.Step, R.Monotone;
    Runs.StepConserves(cfg, st, e);
    var (st', closed) := Runs.Step(cfg, st, e);
    var out := if closed.Some? then multiset(closed.value) else multiset{};
    var into := if e.Adding? then multiset{e.item} else multiset{};
    forall x | x in st'.active || (closed.Some? && x in closed.value)
      ensures x in st.active || (e.Adding? && x == e.item)
    {
      assert x in multiset(st'.active) + out;
      assert x in multiset(st.active) + into;
    }
  }

  lemma BufferingMoves(cfg: Config, p: Place, e: Runs.Event<Buffered>)
    requires p.Buffering?
    ensures var (b, closed) := Runs.Step(AggregatorOf(cfg), p.buffer, e);
            Moves(p, if e.Adding? then [e.item] else [],
                  Effect(p.(buffer := b), ClosedParcel(p.stream, p.shard, closed), None))
  {
    hide Runs.Step, R.Monotone, AggregatorOf;
    C.Monotonicity(cfg);
    Members(AggregatorOf(cfg), p.buffer, e);
    var (b, closed) := Runs.Step(AggregatorOf(cfg), p.buffer, e);
    assert forall x :: x in b.active ==> x in p.buffer.active || (e.Adding? && x == e.item);
    assert closed.Some? ==> forall x :: x in closed.value ==> x in p.buffer.active || (e.Adding? && x == e.item);
  }

  lemma CollectingMoves(cfg: Config, p: Place, e: Runs.Event<Batch<Buffered>>)
    requires p.Collecting?
    ensures var (b, closed) := Runs.Step(CollectorOf(cfg), p.open, e);
            Moves(p, if e.Adding? then e.item.items else [],
                  Effect(p.(open := b), SendingParcel(p.stream, closed), None))
  {
    hide Runs.Step, R.Monotone, CollectorOf;
    C.Monotonicity(cfg);
    Members(CollectorOf(cfg), p.open, e);
    var (b, closed) := Runs.Step(CollectorOf(cfg), p.open, e);
    assert forall x :: x in b.active ==> x in p.open.active || (e.Adding? && x == e.item);
    assert closed.Some? ==> forall x :: x in closed.value ==> x in p.open.active || (e.Adding? && x == e.item);
  }

  lemma QueueingMoves(cfg: Config, p: Place, act: Act, at: real)
    requires p.Queueing? && ActQueueing(cfg, p, act, at).Some?
    ensures Moves(p, [], ActQueueing(cfg, p, act, at).value)
  {
    hide L.AdmitFrom, L.Live, L.Expired, LimiterOf;
    var q := p.limiter.queue;
    L.ExpiredAndLive(q, at);
    var live, expired := L.Live(q, at), L.Expired(q, at);
    forall i | 0 <= i < |expired|
      ensures expired[i] in q
    {
      assert expired[i] in expired;
    }
    forall i | 0 <= i < |live|
      ensures live[i] in q
    {
      assert live[i] in live;
    }
  }

  lemma EnqueuingMoves(cfg: Config, p: Place, b: Batch<Buffered>, at: real)
    requires p.Queueing?
    ensures var l := L.Enqueue(LimiterOf(cfg), p.limiter, b, at + cfg.policy.ttl);
            Moves(p, b.items, Effect(p.(limiter := l, history := p.history + [L.Enqueuing(b, at + cfg.policy.ttl, at)]),
                                     [], None))
  {
    hide S.InsertRight, LimiterOf;
    InsertedMembers(L.ByDeadline(LimiterOf(cfg)), p.limiter.queue, L.Pending(b, at + cfg.policy.ttl));
  }

  // ---- Answers ----

  lemma {:induction false} FlattenMember(bs: seq<Batch<Buffered>>, r: Buffered) returns (k: nat)
    requires r in Flatten(bs)
    ensures k < |bs| && r in bs[k].items
  {
    if r in Last(bs).items {
      k := |bs| - 1;
    } else {
      k := FlattenMember(Front(bs), r);
    }
  }

  /** The answer says this much of every record of the request. */
  ghost predicate Heard(told: Telling, stream: string, batches: seq<Batch<Buffered>>, response: Response, s: real,
                        e: real) {
    forall k, r :: 0 <= k < |batches| && r in batches[k].items ==>
      told(stream, r.id, WordOf(response, |batches|, k, s, e))
  }

  lemma ErrorIsHeard(cfg: Config, told: Telling, stream: string, o: SendOutcome<Buffered>)
    requires o.requestError.Some?
    requires forall k, r :: 0 <= k < |o.batchItems| && r in o.batchItems[k].items ==>
               && ExplainedRecord(cfg.policy, told, stream, r)
               && ExplainedRuling(cfg.policy, told, stream, r, o.startedAt, o.endedAt,
                                  RuleError(cfg.policy, o.requestError.value.0, o.requestError.value.1))
    ensures ExplainedPlace(cfg.policy, told, Received(cfg, stream, o))
  {
    hide ExplainedRecord, ExplainedRuling, RuleError, Flatten;
    var p := Received(cfg, stream, o);
    forall w | w in p.ruled
      ensures ExplainedRecord(cfg.policy, told, stream, w.0)
      ensures ExplainedRuling(cfg.policy, told, stream, w.0, o.startedAt, o.endedAt, w.1)
    {
      assert w.0 in Flatten(o.batchItems);
      var k := FlattenMember(o.batchItems, w.0);
    }
  }

  lemma RepliesAreHeard(cfg: Config, told: Telling, stream: string, batches: seq<Batch<Buffered>>, slots: seq<Slot>,
                        s: real, e: real)
    requires batches != [] && |slots| == |batches| && Heard(told, stream, batches, Replied(slots), s, e)
    requires forall k, r :: 0 <= k < |batches| && r in batches[k].items ==>
               ExplainedRecord(cfg.policy, told, stream, r)
    ensures ExplainedPlace(cfg.policy, told, Received(cfg, stream, Send(batches, Replied(slots), s, e).value))
  {
    hide ExplainedRecord, WordOf, WordFrom, BuildPerRecord;
    var o := Send(batches, Replied(slots), s, e).value;
    forall k | 0 <= k < |batches|
      ensures o.perRecord[k].batch == batches[k] && ExplainedAnswer(told, stream, s, e, o.perRecord[k])
    {
      SlotWord(batches[k], slots, k, s, e);
    }
  }

  /** A slot is read as it says. */
  lemma SlotWord(b: Batch<Buffered>, slots: seq<Slot>, k: nat, s: real, e: real)
    requires k < |slots|
    ensures var pr := BuildPerRecord(b, slots[k]);
            pr.batch == b && WordFrom(pr, s, e) == WordOf(Replied(slots), |slots|, k, s, e)
  {
  }

  lemma AnsweringExplained(cfg: Config, told: Telling, p: Place, response: Response, s: real, e: real)
    requires p.Sending? && p.batches != [] && ExplainedPlace(cfg.policy, told, p)
    requires Heard(told, p.stream, p.batches, response, s, e)
    ensures ExplainedPlace(cfg.policy, told, Received(cfg, p.stream, Send(p.batches, response, s, e).value))
  {
    hide ExplainedRecord, Received;
    forall k, r | 0 <= k < |p.batches| && r in p.batches[k].items
      ensures ExplainedRecord(cfg.policy, told, p.stream, r)
    {
      assert p.batches[k] in p.batches;
      assert Holds(p, r);
    }
    if response.Replied? && |response.slots| == |p.batches| {
      RepliesAreHeard(cfg, told, p.stream, p.batches, response.slots, s, e);
    } else {
      ErrorIsHeard(cfg, told, p.stream, Send(p.batches, response, s, e).value);
    }
  }

  lemma GivingExplained(cfg: Config, world: World, told: Telling, p: Place, at: real)
    requires p.Expired? && ExplainedPlace(cfg.policy, told, p) && GoodPlace(cfg, world, at, p)
    ensures ExplainedPlace(cfg.policy, told,
                           Received(cfg, p.stream,
                                    SendOutcome(at, at, Some((EXPIRED, EXPIRED_IN_QUEUE)), [], [p.batch])))
  {
    hide ExplainedRecord, Received, GoodBatch;
    assert |EXPIRED| != |THROTTLED|;
    forall r | r in p.batch.items
      ensures ExplainedRecord(cfg.policy, told, p.stream, r)
    {
      assert Holds(p, r);
    }
    ErrorIsHeard(cfg, told, p.stream, SendOutcome(at, at, Some((EXPIRED, EXPIRED_IN_QUEUE)), [], [p.batch]));
  }

  // ---- Rulings ----

  /** A ruling on an answer that is explained, is explained. */
  lemma RuleExplained(policy: Policy, told: Telling, stream: string, pr: PerRecord<Buffered>, r: Buffered, s: real,
                      e: real, lookup: int -> Option<(int, int)>)
    requires told(stream, r.id, WordFrom(pr, s, e))
    ensures ExplainedRuling(policy, told, stream, r, s, e, Rule(policy, pr, r.hashKey, lookup))
  {
    hide ParseShardId;
    assert |WRONG_SHARD| != |THROTTLED|;
  }

  lemma ClassifyingExplained(cfg: Config, told: Telling, map': M.State, p: Place, at: real)
    requires p.Handling? && ExplainedPlace(cfg.policy, told, p) && ActHandling(cfg, map', p, Classifying, at).Some?
    ensures ExplainedPlace(cfg.policy, told, ActHandling(cfg, map', p, Classifying, at).value.place)
  {
    hide ExplainedRecord, ExplainedRuling, Rule, WordFrom, Sighting;
    var pr := p.waiting[0];
    assert pr in p.waiting;
    var p' := ActHandling(cfg, map', p, Classifying, at).value.place;
    forall w | w in p'.ruled
      ensures ExplainedRecord(cfg.policy, told, p.stream, w.0)
      ensures ExplainedRuling(cfg.policy, told, p.stream, w.0, p.startedAt, p.endedAt, w.1)
    {
      assert w.0 in pr.batch.items;
      assert Holds(p, w.0);
      RuleExplained(cfg.policy, told, p.stream, pr, w.0, p.startedAt, p.endedAt, Lookup(map'));
    }
    forall r | Holds(p', r)
      ensures ExplainedRecord(cfg.policy, told, p.stream, r)
    {
      if !exists w :: w in p'.ruled && r == w.0 {
        assert Holds(p, r);
      }
    }
  }

  // ---- Settling ----

  lemma Appended(policy: Policy, told: Telling, stream: string, r: Buffered, a: Attempt, history: seq<Attempt>)
    requires ExplainedRecord(policy, told, stream, r) && history == r.attempts + [a]
    requires Explained(policy, told, stream, r.id, r.arrivalTime, a)
    ensures ExplainedRecord(policy, told, stream, r.(attempts := history))
  {
    hide Explained;
  }

  lemma SettleExplained(policy: Policy, told: Telling, stream: string, r: Buffered, s: real, e: real, ruling: Ruling,
                        at: real)
    requires ExplainedRecord(policy, told, stream, r) && ExplainedRuling(policy, told, stream, r, s, e, ruling)
    ensures var (r', v) := Settle(policy, r, s, e, ruling, at);
            && ExplainedRecord(policy, told, stream, r') && r'.id == r.id && r'.arrivalTime == r.arrivalTime
            && (v.Finished? ==> ExplainedResult(policy, told, Ticket(stream, r.id), r.arrivalTime, v.result))
  {
    hide ExplainedRecord;
    var (r', v) := Settle(policy, r, s, e, ruling, at);
    var a := r'.attempts[|r.attempts|];
    var mid := r.(attempts := r.attempts + [a]);
    Appended(policy, told, stream, r, a, mid.attempts);
    if |r'.attempts| > |mid.attempts| {
      Appended(policy, told, stream, mid, r'.attempts[|mid.attempts|], r'.attempts);
    }
    OnlyHistory(policy, told, stream, r', r.(attempts := r'.attempts));
    if v.Finished? {
      HistoryOf(policy, told, stream, r', v.result);
    }
  }

  lemma OnlyHistory(policy: Policy, told: Telling, stream: string, r: Buffered, q: Buffered)
    requires r.id == q.id && r.arrivalTime == q.arrivalTime && r.attempts == q.attempts
    ensures ExplainedRecord(policy, told, stream, r) == ExplainedRecord(policy, told, stream, q)
  {
  }

  lemma HistoryOf(policy: Policy, told: Telling, stream: string, r: Buffered, result: RecordResult)
    requires ExplainedRecord(policy, told, stream, r) && result.attempts == r.attempts != []
    requires result.success == Last(r.attempts).success && result.shardId == Last(r.attempts).shardId
    requires result.sequenceNumber == Last(r.attempts).sequenceNumber
    ensures ExplainedResult(policy, told, Ticket(stream, r.id), r.arrivalTime, result)
  {
    hide Explained;
  }

  lemma SettlingExplained(cfg: Config, world: World, told: Telling, map': M.State, p: Place, at: real)
    requires p.Handling? && ExplainedPlace(cfg.policy, told, p) && GoodPlace(cfg, world, at, p)
    requires ActHandling(cfg, map', p, Settling, at).Some?
    ensures ExplainedEffect(cfg.policy, told, world.origin, ActHandling(cfg, map', p, Settling, at).value)
  {
    hide ExplainedRecord, ExplainedRuling, ExplainedAnswer, Settle, ExplainedResult, GoodBatch, InTime, AllFailed,
      WellHashed;
    var w := p.ruled[0];
    assert w in p.ruled && Holds(p, w.0);
    SettleExplained(cfg.policy, told, p.stream, w.0, p.startedAt, p.endedAt, w.1, at);
    var rest := p.(ruled := p.ruled[1..]);
    assert ExplainedPlace(cfg.policy, told, rest) by {
      forall r | Holds(rest, r)
        ensures ExplainedRecord(cfg.policy, told, p.stream, r)
      {
        assert Holds(p, r);
      }
    }
  }

  // ---- Every act and every hand-over ----

  lemma ActExplained(cfg: Config, world: World, told: Telling, map': M.State, p: Place, act: Act, at: real)
    requires ExplainedPlace(cfg.policy, told, p) && GoodPlace(cfg, world, at, p)
    requires p.Sending? && act.Answering? ==> Heard(told, p.stream, p.batches, act.response, act.startedAt, at)
    requires ActAt(cfg, map', p, act, at).Some?
    ensures ExplainedEffect(cfg.policy, told, world.origin, ActAt(cfg, map', p, act, at).value)
  {
    hide R.Flush, R.Fire, AggregatorOf, CollectorOf, ActHandling, ActQueueing, GoodPlace, ExplainedPlace, Received,
      M.Predict, Heard, Moves;
    var e := ActAt(cfg, map', p, act, at).value;
    match p
    case Buffering(_, _, _) =>
      BufferingMoves(cfg, p, if act.Flushing? then Runs.Flushing(at) else Runs.Firing(act.id, at));
      MovedIsExplained(cfg.policy, told, world.origin, p, [], e);
    case Collecting(_, _) =>
      CollectingMoves(cfg, p, if act.Flushing? then Runs.Flushing(at) else Runs.Firing(act.id, at));
      MovedIsExplained(cfg.policy, told, world.origin, p, [], e);
    case Queueing(_, _, _, _, _) =>
      QueueingMoves(cfg, p, act, at);
      MovedIsExplained(cfg.policy, told, world.origin, p, [], e);
    case Handling(_, _, _, _, _, _) => HandlingExplained(cfg, world, told, map', p, act, at);
    case Registered(_, _) =>
      PredictingMoves(cfg, map', p, at);
      MovedIsExplained(cfg.policy, told, world.origin, p, [], e);
    case Sending(_, _) => AnsweringExplained(cfg, told, p, act.response, act.startedAt, at);
    case Expired(_, _) => GivingExplained(cfg, world, told, p, at);
  }

  lemma HandlingExplained(cfg: Config, world: World, told: Telling, map': M.State, p: Place, act: Act, at: real)
    requires p.Handling? && ExplainedPlace(cfg.policy, told, p) && GoodPlace(cfg, world, at, p)
    requires ActHandling(cfg, map', p, act, at).Some?
    ensures ExplainedEffect(cfg.policy, told, world.origin, ActHandling(cfg, map', p, act, at).value)
  {
    hide GoodPlace, ExplainedPlace, RuleItems, Settle;
    if act.Classifying? {
      ClassifyingExplained(cfg, told, map', p, at);
    } else {
      SettlingExplained(cfg, world, told, map', p, at);
    }
  }

  lemma PredictingMoves(cfg: Config, map': M.State, p: Place, at: real)
    requires p.Registered?
    ensures Moves(p, [], ActAt(cfg, map', p, Predicting, at).value)
  {
    hide M.Predict;
  }

  lemma HandExplained(cfg: Config, told: Telling, origin: map<Ticket, Buffered>, parcel: Place, stage: Place, at: real)
    requires ExplainedPlace(cfg.policy, told, parcel) && ExplainedPlace(cfg.policy, told, stage)
    requires HandTo(cfg, parcel, stage, at).Some? && Destination(parcel) == KeyOf(stage)
    ensures ExplainedEffect(cfg.policy, told, origin, HandTo(cfg, parcel, stage, at).value)
  {
    hide R.Add, AggregatorOf, CollectorOf, LimiterOf, L.Enqueue, Moves, ExplainedRecord;
    var e := HandTo(cfg, parcel, stage, at).value;
    assert forall r :: Holds(parcel, r) ==> ExplainedRecord(cfg.policy, told, StreamOf(stage), r);
    match parcel
    case Predicted(_, _, record) =>
      assert Holds(parcel, record);
      BufferingMoves(cfg, stage, Runs.Adding(record, at));
      MovedIsExplained(cfg.policy, told, origin, stage, [record], e);
    case Closed(_, batch) =>
      assert forall r :: r in batch.items ==> Holds(parcel, r);
      EnqueuingMoves(cfg, stage, batch, at);
      MovedIsExplained(cfg.policy, told, origin, stage, batch.items, e);
    case Admitted(_, batch) =>
      assert forall r :: r in batch.items ==> Holds(parcel, r);
      CollectingMoves(cfg, stage, Runs.Adding(batch, at));
      MovedIsExplained(cfg.policy, told, origin, stage, batch.items, e);
  }

  // ---- Every run ----

  ghost predicate ExplainedState(policy: Policy, told: Telling, st: State) {
    && (forall i :: 0 <= i < |st.places| ==> ExplainedPlace(policy, told, st.places[i]))
    && (forall t :: t in st.ledger.results ==>
          ExplainedOutcome(policy, told, st.ledger.accepted, t, st.ledger.results[t]))
  }

  lemma StateToldLater(policy: Policy, told: Telling, told': Telling, st: State)
    requires ExplainedState(policy, told, st) && More(told, told')
    ensures ExplainedState(policy, told', st)
  {
    hide ExplainedPlace, ExplainedOutcome, More;
    forall i | 0 <= i < |st.places|
      ensures ExplainedPlace(policy, told', st.places[i])
    {
      PlaceToldLater(policy, told, told', st.places[i]);
    }
    forall t | t in st.ledger.results
      ensures ExplainedOutcome(policy, told', st.ledger.accepted, t, st.ledger.results[t])
    {
      OutcomeLater(policy, told, told', st.ledger.accepted, t, st.ledger.results[t]);
    }
  }

  lemma ApplyExplained(policy: Policy, told: Telling, st: State, i: nat, e: Effect, at: real)
    requires ExplainedState(policy, told, st) && i < |st.places|
    requires ExplainedEffect(policy, told, st.ledger.accepted, e)
    ensures ExplainedState(policy, told, Apply(st, i, e, at))
  {
    hide ExplainedPlace, ExplainedOutcome;
  }

  lemma ActingExplained(cfg: Config, told: Telling, st: State, i: nat, act: Act, at: real)
    requires GoodState(cfg, WorldOf(None, 0.0, st), st) && ExplainedState(cfg.policy, told, st)
    requires i < |st.places| && st.now <= at ==> HeardAt(told, st.places[i], act, at)
    ensures ExplainedState(cfg.policy, told, Exec(cfg, st, Acting(i, act, at)))
  {
    hide ExplainedPlace, ExplainedOutcome, ExplainedEffect, GoodPlace, GoodMap, GoodResult, ActAt, Heard,
      StagesDistinct, Apply;
    if i < |st.places| && at >= st.now && EndOfAct(act, at) >= at {
      var world, map' := WorldOf(None, 0.0, st), MapFor(cfg, st, StreamOf(st.places[i]));
      if ActAt(cfg, map', st.places[i], act, at).Some? {
        OnlyInTime(cfg, map', st.places[i], act, at);
        PlaceLater(cfg, world, st.now, at, st.places[i]);
        ActExplained(cfg, world, told, map', st.places[i], act, at);
        ApplyExplained(cfg.policy, told, st, i, ActAt(cfg, map', st.places[i], act, at).value, EndOfAct(act, at));
      }
    }
  }

  /** What this act says was said. */
  ghost predicate HeardAt(told: Telling, p: Place, act: Act, at: real) {
    p.Sending? && act.Answering? && act.startedAt <= at ==>
      Heard(told, p.stream, p.batches, act.response, act.startedAt, at)
  }

  lemma OnlyInTime(cfg: Config, map': M.State, p: Place, act: Act, at: real)
    requires ActAt(cfg, map', p, act, at).Some?
    ensures p.Sending? ==> act.Answering? && act.startedAt <= at
  {
    hide R.Flush, R.Fire, L.Drain, Rulings, Send;
  }

  lemma HandingExplained(cfg: Config, told: Telling, st: State, j: nat, i: nat, at: real)
    requires ExplainedState(cfg.policy, told, st)
    ensures ExplainedState(cfg.policy, told, Exec(cfg, st, Handing(j, i, at)))
  {
    hide ExplainedPlace, ExplainedOutcome, ExplainedEffect, HandTo, Apply;
    if i < |st.places| && j < |st.places| && at >= st.now
       && Destination(st.places[j]).Some? && Destination(st.places[j]) == KeyOf(st.places[i])
       && HandTo(cfg, st.places[j], st.places[i], at).Some? {
      assert i != j;
      HandExplained(cfg, told, st.ledger.accepted, st.places[j], st.places[i], at);
      DoneExplained(cfg.policy, told);
      var mid := st.(places := st.places[j := Done]);
      ApplyExplained(cfg.policy, told, mid, i, HandTo(cfg, st.places[j], st.places[i], at).value, at);
    }
  }

  lemma DoneExplained(policy: Policy, told: Telling)
    ensures ExplainedPlace(policy, told, Done)
  {
  }

  lemma NewStageExplained(cfg: Config, told: Telling, key: Key, at: real)
    ensures ExplainedPlace(cfg.policy, told, NewStage(cfg, key, at))
  {
  }

  lemma NewRecordExplained(cfg: Config, told: Telling, stream: string, id: nat, record: UserRecord, at: real)
    ensures var b := BuildBuffered(cfg.codec, id, record, at, cfg.bufferedTime);
            b.Ok? ==> ExplainedPlace(cfg.policy, told, Registered(stream, b.value))
  {
  }

  lemma ReportedExplained(policy: Policy, told: Telling, p: Place)
    requires p.Handling? && p.reports != [] && ExplainedPlace(policy, told, p)
    ensures ExplainedPlace(policy, told, p.(reports := p.reports[1..]))
  {
    hide ExplainedRecord, ExplainedRuling, ExplainedAnswer;
    var q := p.(reports := p.reports[1..]);
    forall r | Holds(q, r)
      ensures ExplainedRecord(policy, told, p.stream, r)
    {
      assert Holds(p, r);
    }
  }

  /** With more records accepted, outcomes stay explained. */
  lemma GrownExplained(policy: Policy, told: Telling, st: State, st': State)
    requires ExplainedState(policy, told, st) && st'.ledger.results == st.ledger.results
    requires forall t :: t in st.ledger.accepted ==>
               t in st'.ledger.accepted && st'.ledger.accepted[t] == st.ledger.accepted[t]
    requires forall i :: 0 <= i < |st'.places| ==> ExplainedPlace(policy, told, st'.places[i])
    ensures ExplainedState(policy, told, st')
  {
    hide ExplainedPlace, ExplainedResult;
  }

  lemma StepExplained(cfg: Config, told: Telling, st: State, step: Step)
    requires GoodState(cfg, WorldOf(None, 0.0, st), st) && ExplainedState(cfg.policy, told, st)
    requires forall t :: t in st.ledger.accepted ==> t.id < st.ledger.nextId
    requires step.Acting? && step.i < |st.places| && st.now <= step.at ==>
               HeardAt(told, st.places[step.i], step.act, step.at)
    ensures ExplainedState(cfg.policy, told, Exec(cfg, st, step))
  {
    hide GoodState, ExplainedPlace, ExplainedOutcome, ActAt, HandTo, HeardAt, BuildBuffered, NewStage, HasStage,
      Settled, M.Step, M.Invalidate, Spontaneous;
    StepAccepts(cfg, st, step);
    match step
    case Acting(i, act, at) => ActingExplained(cfg, told, st, i, act, at);
    case Handing(j, i, at) => HandingExplained(cfg, told, st, j, i, at);
    case Acquiring =>
    case Registering(stream, record, at) =>
      NewRecordExplained(cfg, told, stream, st.ledger.nextId, record, at);
      GrownExplained(cfg.policy, told, st, Exec(cfg, st, step));
    case Opening(key, at) =>
      NewStageExplained(cfg, told, key, at);
    case Reporting(i, at) =>
      if i < |st.places| && st.places[i].Handling? && st.places[i].reports != [] {
        ReportedExplained(cfg.policy, told, st.places[i]);
      }
    case Mapping(_, _) =>
  }

  lemma SaidMore(cfg: Config, start: real, steps: seq<Step>)
    requires steps != []
    ensures More(Said(cfg, start, Front(steps)), Said(cfg, start, steps))
  {
    hide Run, Tells;
    forall stream, id, w | Told(cfg, start, Front(steps), stream, id, w)
      ensures Told(cfg, start, steps, stream, id, w)
    {
      var n: nat, k: nat :| ToldAt(cfg, start, Front(steps), n, k, stream, id, w);
      assert Front(steps)[..n] == steps[..n];
      assert ToldAt(cfg, start, steps, n, k, stream, id, w);
    }
  }

  lemma SaidNow(cfg: Config, start: real, steps: seq<Step>)
    requires steps != [] && Last(steps).Acting?
    ensures var st, step := Run(cfg, Initial(cfg, start), Front(steps)), Last(steps);
            step.i < |st.places| && st.now <= step.at ==>
              HeardAt(Said(cfg, start, steps), st.places[step.i], step.act, step.at)
  {
    hide Run, WordOf;
    var st, step := Run(cfg, Initial(cfg, start), Front(steps)), Last(steps);
    var n := |steps| - 1;
    assert steps[..n] == Front(steps);
    if step.i < |st.places| && st.now <= step.at && st.places[step.i].Sending? && step.act.Answering?
       && step.act.startedAt <= step.at {
      var p := st.places[step.i];
      forall k, r | 0 <= k < |p.batches| && r in p.batches[k].items
        ensures Said(cfg, start, steps)(p.stream, r.id,
                                        WordOf(step.act.response, |p.batches|, k, step.act.startedAt, step.at))
      {
        assert ToldAt(cfg, start, steps, n, k, p.stream, r.id,
                      WordOf(step.act.response, |p.batches|, k, step.act.startedAt, step.at));
      }
    }
  }

  /** In every run, whatever the interleaving: each attempt of each record in
      flight, and of each result, says what an answer to a request of its stream
      said about a batch that held it. */
  lemma {:induction false} RunIsExplained(cfg: Config, start: real, steps: seq<Step>)
    requires Lawful(cfg.codec)
    ensures ExplainedState(cfg.policy, Said(cfg, start, steps), Run(cfg, Initial(cfg, start), steps))
  {
    hide ExplainedState, Exec, Lawful, GoodState, HeardAt, Said, PR.Placed, More;
    if steps == [] {
      InitialExplained(cfg, start, Said(cfg, start, []));
    } else {
      var st := Run(cfg, Initial(cfg, start), Front(steps));
      RunIsExplained(cfg, start, Front(steps));
      RunIsGood(cfg, None, 0.0, start, Front(steps));
      PR.RunConserves(cfg, start, Front(steps));
      SaidMore(cfg, start, steps);
      StateToldLater(cfg.policy, Said(cfg, start, Front(steps)), Said(cfg, start, steps), st);
      if Last(steps).Acting? {
        SaidNow(cfg, start, steps);
      }
      StepExplained(cfg, Said(cfg, start, steps), st, Last(steps));
    }
  }

  lemma InitialExplained(cfg: Config, start: real, told: Telling)
    ensures ExplainedState(cfg.policy, told, Initial(cfg, start))
  {
  }

  // ---- Consequences ----

  /** At this place the act brings, for the k-th batch, a slot with a sequence
      number, and the result says what the slot says. */
  ghost predicate Confirms(p: Place, act: Act, at: real, k: nat, t: Ticket, r: RecordResult) {
    && p.Sending? && p.stream == t.stream && k < |p.batches| && (exists b :: b in p.batches[k].items && b.id == t.id)
    && act.Answering? && act.startedAt <= at && act.response.Replied? && |act.response.slots| == |p.batches|
    && var slot := act.response.slots[k];
       && slot.sequenceNumber.Some? && slot.sequenceNumber.value != ""
       && r.shardId == slot.shardId && r.sequenceNumber == slot.sequenceNumber
       && r.attempts != []
       && Last(r.attempts) == Attempt(act.startedAt, at, true, slot.shardId, slot.sequenceNumber, None, None)
  }

  /** An answer that says a success confirms it. */
  lemma TellsConfirms(policy: Policy, told: Telling, p: Place, act: Act, at: real, k: nat, t: Ticket, arrival: real,
                      r: RecordResult)
    requires ExplainedResult(policy, told, t, arrival, r) && r.success
    requires var a := Last(r.attempts);
             Tells(p, act, at, k, t.stream, t.id, Success(a.startedAt, a.endedAt, a.shardId, a.sequenceNumber))
    ensures Confirms(p, act, at, k, t, r)
  {
    assert Last(r.attempts) == r.attempts[|r.attempts| - 1];
  }

  lemma SuccessWasTold(policy: Policy, told: Telling, t: Ticket, arrival: real, r: RecordResult) returns (a: Attempt)
    requires ExplainedResult(policy, told, t, arrival, r) && r.success
    ensures r.attempts != [] && a == Last(r.attempts)
    ensures told(t.stream, t.id, Success(a.startedAt, a.endedAt, a.shardId, a.sequenceNumber))
  {
    a := r.attempts[|r.attempts| - 1];
  }

  /** In every run, a record has a successful result only if some step answered a
      request of its stream whose k-th batch held it, with a k-th slot that has a
      sequence number; the result carries that slot's shard and sequence number. */
  lemma SuccessWasConfirmed(cfg: Config, start: real, steps: seq<Step>, t: Ticket)
    requires Lawful(cfg.codec)
    requires var l := Run(cfg, Initial(cfg, start), steps).ledger; t in l.results && l.results[t].success
    ensures var r := Run(cfg, Initial(cfg, start), steps).ledger.results[t];
            exists n, k :: 0 <= n < |steps| && steps[n].Acting? &&
              var st := Run(cfg, Initial(cfg, start), steps[..n]);
              && steps[n].i < |st.places| && st.now <= steps[n].at
              && Confirms(st.places[steps[n].i], steps[n].act, steps[n].at, k, t, r)
  {
    hide Run, Lawful, ExplainedPlace, ExplainedResult, Tells, Confirms;
    RunIsExplained(cfg, start, steps);
    var l := Run(cfg, Initial(cfg, start), steps).ledger;
    var r, told, arrival := l.results[t], Said(cfg, start, steps), l.accepted[t].arrivalTime;
    var a := SuccessWasTold(cfg.policy, told, t, arrival, r);
    var n: nat, k: nat :| ToldAt(cfg, start, steps, n, k, t.stream, t.id,
                                 Success(a.startedAt, a.endedAt, a.shardId, a.sequenceNumber));
    var st := Run(cfg, Initial(cfg, start), steps[..n]);
    TellsConfirms(cfg.policy, told, st.places[steps[n].i], steps[n].act, steps[n].at, k, t, arrival, r);
  }

  predicate Sequenced(slot: Slot) {
    slot.sequenceNumber.Some? && slot.sequenceNumber.value != ""
  }

  /** What a reply does to a record of the k-th batch of the request, whatever the
      shard map says: without a sequence number in the k-th slot it is not accepted,
      and its attempt carries the slot's code and message; with one it is accepted
      with the slot's shard and sequence number, or was sent to the wrong shard. */
  lemma SlotSettles(cfg: Config, map': M.State, p: Place, slots: seq<Slot>, s: real, k: nat, r: Buffered,
                    lookup: int -> Option<(int, int)>, at: real, now: real)
    requires p.Sending? && |slots| == |p.batches| && k < |slots| && r in p.batches[k].items && s <= at
    ensures var e := ActAt(cfg, map', p, Answering(Replied(slots), s), at);
            && e.Some? && e.value.place.Handling? && e.value.more == [] && e.value.finished == None
            && e.value.place.ruled == [] && |e.value.place.waiting| == |slots|
            && e.value.place.waiting[k].batch == p.batches[k]
            && var ruling := Rule(cfg.policy, e.value.place.waiting[k], r.hashKey, lookup);
               var (r', v) := Settle(cfg.policy, r, s, at, ruling, now);
               && r'.attempts[..|r.attempts|] == r.attempts && |r'.attempts| > |r.attempts|
               && (!Sequenced(slots[k]) ==>
                     var code, message := Text(slots[k].errorCode, "Unknown"), Text(slots[k].errorMessage, "");
                     && !ruling.Accept? && (v.Finished? ==> !v.result.success)
                     && (ruling.Reject? <==> code == THROTTLED && cfg.policy.failIfThrottled)
                     && r'.attempts[|r.attempts|] == Attempt(s, at, false, None, None, Some(code), Some(message)))
               && (Sequenced(slots[k]) ==>
                     || (&& v == Finished(RecordResult(true, slots[k].shardId, slots[k].sequenceNumber, r'.attempts))
                         && r'.attempts == r.attempts +
                             [Attempt(s, at, true, slots[k].shardId, slots[k].sequenceNumber, None, None)])
                     || (&& ParseShardId(slots[k].shardId).Some? && p.batches[k].shard.Some?
                         && ParseShardId(slots[k].shardId) != p.batches[k].shard
                         && r'.attempts[|r.attempts|] ==
                             Attempt(s, at, false, None, None, Some(WRONG_SHARD), Some(WRONG_SHARD_MESSAGE))))
  {
    hide ParseShardId;
  }
}
