/** The sender's response alignment (aiokpl/sender.py) and the retrier's
    classification (aiokpl/retrier.py). */
module Retrier {
  import opened Common
  import opened Records
  import opened Hashing

  const THROTTLED := "ProvisionedThroughputExceededException"
  const EXPIRED := "Expired"
  const EXPIRED_MESSAGE := "Record TTL exceeded"
  const EXPIRED_IN_QUEUE := "Record TTL exceeded: Expired"
  const WRONG_SHARD := "Wrong Shard"
  const WRONG_SHARD_MESSAGE := "Record landed on a shard whose hash range does not contain the record's hash key"

  // ---- Sender ----

  /** One entry of the `Records` list of a PutRecords response. */
  datatype Slot = Slot(
    sequenceNumber: Option<string>,
    shardId: Option<string>,
    errorCode: Option<string>,
    errorMessage: Option<string>)

  /** The service answers anything, or the call raises. */
  datatype Response = Raised(code: string, message: string) | Replied(slots: seq<Slot>)

  datatype PerRecord<R> = PerRecord(
    batch: Batch<R>,
    success: bool,
    shardId: Option<string>,
    sequenceNumber: Option<string>,
    errorCode: Option<string>,
    errorMessage: Option<string>)

  datatype SendOutcome<R> = SendOutcome(
    startedAt: real,
    endedAt: real,
    requestError: Option<(string, string)>,
    perRecord: seq<PerRecord<R>>,
    batchItems: seq<Batch<R>>)

  /** `_build_per_record`: a slot succeeded if it has a sequence number. */
  function BuildPerRecord<R>(b: Batch<R>, slot: Slot): PerRecord<R> {
    if slot.sequenceNumber.Some? && slot.sequenceNumber.value != "" then
      PerRecord(b, true, slot.shardId, slot.sequenceNumber, None, None)
    else PerRecord(b, false, None, None, slot.errorCode, slot.errorMessage)
  }

  /** The message when the service returns `got` slots for `sent` batches. */
  function MismatchMessage(got: nat, sent: nat): string {
    "PutRecords returned " + ToDecimal(got) + " records for a batch of " + ToDecimal(sent)
  }

  /** `Sender.send`; an empty batch is refused. */
  function Send<R>(items: seq<Batch<R>>, response: Response, startedAt: real, endedAt: real): Result<SendOutcome<R>> {
    if items == [] then Err
    else match response
         case Raised(code, message) => Ok(SendOutcome(startedAt, endedAt, Some((code, message)), [], items))
         case Replied(slots) =>
           if |slots| != |items| then
             var message := MismatchMessage(|slots|, |items|);
             Ok(SendOutcome(startedAt, endedAt, Some(("RecordCountMismatch", message)), [], items))
           else
             Ok(SendOutcome(startedAt, endedAt, None,
                            seq(|items|, i requires 0 <= i < |items| => BuildPerRecord(items[i], slots[i])), items))
  }

  // ---- Classification ----

  /** What the table says about one record. */
  datatype Ruling =
    | Accept(shardId: Option<string>, sequenceNumber: Option<string>)
    | Reject(code: string, message: string)
    | TryAgain(code: string, message: string)

  datatype Policy = Policy(ttl: real, failIfThrottled: bool, retryDelay: real)

  /** `_parse_actual_shard_id`. */
  function ParseShardId(raw: Option<string>): Option<int> {
    var prefix := "shardId-";
    if raw.None? || |raw.value| <= |prefix| || raw.value[..|prefix|] != prefix then None
    else
      var suffix := raw.value[|prefix|..];
      if exists i :: 0 <= i < |suffix| && !IsDigit(suffix[i]) then None else Some(DecimalValue(suffix))
  }

  predicate InRange(range: Option<(int, int)>, h: int) {
    range.Some? && range.value.0 <= h <= range.value.1
  }

  function RuleError(policy: Policy, code: string, message: string): Ruling {
    if code == THROTTLED && policy.failIfThrottled then Reject(code, message) else TryAgain(code, message)
  }

  /** The ruling on a record with hash key `h` in a batch that was answered by
      `pr`; `lookup` is the shard map's `hashrange`. */
  function Rule<R>(policy: Policy, pr: PerRecord<R>, h: int, lookup: int -> Option<(int, int)>): Ruling {
    if !pr.success then
      RuleError(policy, if pr.errorCode.Some? && pr.errorCode.value != "" then pr.errorCode.value else "Unknown",
                if pr.errorMessage.Some? then pr.errorMessage.value else "")
    else
      var predicted, actual := pr.batch.shard, ParseShardId(pr.shardId);
      if predicted.None? || actual.None? || predicted == actual || InRange(lookup(actual.value), h) then
        Accept(pr.shardId, pr.sequenceNumber)
      else TryAgain(WRONG_SHARD, WRONG_SHARD_MESSAGE)
  }

  function RuleItems<R>(policy: Policy, pr: PerRecord<R>, hash: R -> int,
                        lookup: int -> Option<(int, int)>): (w: seq<(R, Ruling)>)
    ensures |w| == |pr.batch.items|
    ensures forall i :: 0 <= i < |w| ==> w[i] == (pr.batch.items[i], Rule(policy, pr, hash(pr.batch.items[i]), lookup))
  {
    var items := pr.batch.items;
    seq(|items|, i requires 0 <= i < |items| => (items[i], Rule(policy, pr, hash(items[i]), lookup)))
  }

  /** The answers in turn; the k-th is ruled on with the ranges known then. */
  function RuleAll<R>(policy: Policy, prs: seq<PerRecord<R>>, hash: R -> int,
                      lookup: nat -> int -> Option<(int, int)>): seq<(R, Ruling)> {
    if prs == [] then []
    else RuleAll(policy, Front(prs), hash, lookup) + RuleItems(policy, Last(prs), hash, lookup(|prs| - 1))
  }

  /** Every record of the outcome with its ruling, in the order handled. */
  function Rulings<R>(policy: Policy, o: SendOutcome<R>, hash: R -> int,
                      lookup: nat -> int -> Option<(int, int)>): seq<(R, Ruling)> {
    match o.requestError
    case Some((code, message)) =>
      var items := Flatten(o.batchItems);
      seq(|items|, i requires 0 <= i < |items| => (items[i], RuleError(policy, code, message)))
    case None => RuleAll(policy, o.perRecord, hash, lookup)
  }

  /** The answer came from another shard than predicted. */
  predicate Diverted<R>(pr: PerRecord<R>) {
    pr.success && pr.batch.shard.Some? && ParseShardId(pr.shardId).Some? && pr.batch.shard != ParseShardId(pr.shardId)
  }

  /** The shard an answer reports to the shard map: the actual shard, once, if
      it is diverted and holds a record. */
  function Sighting<R>(pr: PerRecord<R>): seq<int> {
    if Diverted(pr) && pr.batch.items != [] then [ParseShardId(pr.shardId).value] else []
  }

  /** The shards reported to the shard map by these answers. */
  function Sightings<R>(prs: seq<PerRecord<R>>): seq<int> {
    if prs == [] then [] else Sightings(Front(prs)) + Sighting(Last(prs))
  }

  function Firsts<R>(w: seq<(R, Ruling)>): (r: seq<R>)
    ensures |r| == |w| && forall i :: 0 <= i < |r| ==> r[i] == w[i].0
  {
    seq(|w|, i requires 0 <= i < |w| => w[i].0)
  }

  lemma {:induction false} RuleAllCovers<R>(policy: Policy, prs: seq<PerRecord<R>>, bs: seq<Batch<R>>, hash: R -> int,
                                            lookup: nat -> int -> Option<(int, int)>)
    requires |prs| == |bs| && forall i :: 0 <= i < |prs| ==> prs[i].batch == bs[i]
    ensures Firsts(RuleAll(policy, prs, hash, lookup)) == Flatten(bs)
  {
    if prs != [] {
      RuleAllCovers(policy, Front(prs), Front(bs), hash, lookup);
      var a, b := RuleAll(policy, Front(prs), hash, lookup), RuleItems(policy, Last(prs), hash, lookup(|prs| - 1));
      assert Firsts(a + b) == Firsts(a) + Firsts(b);
      assert Firsts(b) == Last(bs).items;
    }
  }

  /** Whatever the service answers, or if it answers nothing, every record sent
      gets exactly one ruling, in order: nothing is lost, nothing is ruled on
      twice, and no slot is applied to another batch's records. */
  lemma EveryRecordIsRuledOnce<R>(policy: Policy, items: seq<Batch<R>>, response: Response, s: real, e: real,
                                  hash: R -> int, lookup: nat -> int -> Option<(int, int)>)
    requires items != []
    ensures var o := Send(items, response, s, e);
            && o.Ok? && o.value.batchItems == items
            && Firsts(Rulings(policy, o.value, hash, lookup)) == Flatten(items)
  {
    var o := Send(items, response, s, e).value;
    if o.requestError.None? {
      RuleAllCovers(policy, o.perRecord, items, hash, lookup);
    }
  }

  // ---- What a ruling does to a record ----

  datatype Verdict = Finished(result: RecordResult) | Retried

  function Failure(startedAt: real, endedAt: real, code: string, message: string): Attempt {
    Attempt(startedAt, endedAt, false, None, None, Some(code), Some(message))
  }

  /** `_finish_success`, `_fail` and `_retry_not_expired`. */
  function Settle(policy: Policy, b: Buffered, startedAt: real, endedAt: real, ruling: Ruling,
                  now: real): (Buffered, Verdict) {
    match ruling
    case Accept(shardId, sequenceNumber) =>
      var history := b.attempts + [Attempt(startedAt, endedAt, true, shardId, sequenceNumber, None, None)];
      (b.(attempts := history), Finished(RecordResult(true, shardId, sequenceNumber, history)))
    case Reject(code, message) =>
      var history := b.attempts + [Failure(startedAt, endedAt, code, message)];
      (b.(attempts := history), Finished(RecordResult(false, None, None, history)))
    case TryAgain(code, message) =>
      var history := b.attempts + [Failure(startedAt, endedAt, code, message)];
      if now - b.arrivalTime > policy.ttl then
        var longer := history + [Failure(now, now, EXPIRED, EXPIRED_MESSAGE)];
        (b.(attempts := longer), Finished(RecordResult(false, None, None, longer)))
      else (b.(attempts := history, deadline := now + policy.retryDelay), Retried)
  }

  // ---- The life of one record ----

  /** One trip: the send's times, the ruling, and when it was applied. */
  datatype Trip = Trip(startedAt: real, endedAt: real, ruling: Ruling, now: real)

  /** The record after its trips, and its result once it has one; a finished
      record makes no further trip. */
  function Life(policy: Policy, b: Buffered, trips: seq<Trip>): (Buffered, Verdict) {
    if trips == [] then (b, Retried)
    else
      var (mid, v) := Life(policy, b, Front(trips));
      if v.Finished? then (mid, v)
      else
        var t := Last(trips);
        Settle(policy, mid, t.startedAt, t.endedAt, t.ruling, t.now)
  }

  ghost predicate AllFailed(attempts: seq<Attempt>) {
    forall i :: 0 <= i < |attempts| ==> !attempts[i].success
  }

  /** A terminal history: the result carries all of it, it is not empty, every
      attempt before the last failed, and the last is a success exactly when
      the result is. */
  ghost predicate TerminalHistory(b: Buffered, r: RecordResult) {
    && r.attempts == b.attempts && r.attempts != []
    && AllFailed(Front(r.attempts))
    && (r.success <==> Last(r.attempts).success)
  }

  /** The attempt says when the send was and what the ruling is. */
  ghost predicate Answers(t: Trip, a: Attempt) {
    && a.startedAt == t.startedAt && a.endedAt == t.endedAt
    && match t.ruling
       case Accept(shardId, sequenceNumber) =>
         && a.success && a.shardId == shardId && a.sequenceNumber == sequenceNumber
         && a.errorCode == None && a.errorMessage == None
       case Reject(code, message) => Blames(a, code, message)
       case TryAgain(code, message) => Blames(a, code, message)
  }

  ghost predicate Blames(a: Attempt, code: string, message: string) {
    && !a.success && a.shardId == a.sequenceNumber == None
    && a.errorCode == Some(code) && a.errorMessage == Some(message)
  }

  /** One settling: the history grows by what the ruling says; an acceptance or
      rejection finishes the record, and a retry finishes it exactly when it is
      older than its TTL. */
  lemma SettleHistory(policy: Policy, b: Buffered, t: Trip)
    requires AllFailed(b.attempts)
    ensures var (b', v) := Settle(policy, b, t.startedAt, t.endedAt, t.ruling, t.now);
            && |b.attempts| < |b'.attempts|
            && Answers(t, b'.attempts[|b.attempts|])
            && (t.ruling.Accept? ==> v.Finished? && v.result.success && |b'.attempts| == |b.attempts| + 1)
            && (t.ruling.Reject? ==> v.Finished? && !v.result.success && |b'.attempts| == |b.attempts| + 1)
            && (t.ruling.TryAgain? ==>
                  && (v.Retried? <==> t.now - b.arrivalTime <= policy.ttl)
                  && (v.Finished? ==>
                        !v.result.success && |b'.attempts| == |b.attempts| + 2
                        && Answers(Trip(t.now, t.now, Reject(EXPIRED, EXPIRED_MESSAGE), t.now), Last(b'.attempts))))
    ensures var (b', v) := Settle(policy, b, t.startedAt, t.endedAt, t.ruling, t.now);
            && b' == b.(attempts := b'.attempts, deadline := b'.deadline)
            && b.attempts <= b'.attempts
            && (v.Finished? ==> TerminalHistory(b', v.result))
            && (v.Retried? ==>
                  && AllFailed(b'.attempts) && |b'.attempts| == |b.attempts| + 1
                  && t.now - b.arrivalTime <= policy.ttl && b'.deadline == t.now + policy.retryDelay)
  {
    var first := Settle(policy, b, t.startedAt, t.endedAt, t.ruling, t.now).0.attempts;
    assert t.ruling.TryAgain? && |first| == |b.attempts| + 2 ==>
      Front(first) == b.attempts + [Failure(t.startedAt, t.endedAt, t.ruling.code, t.ruling.message)];
    assert |first| == |b.attempts| + 1 ==> Front(first) == b.attempts;
  }

  /** Over every life: the record keeps its identity, arrival time and hash
      key; its history only grows; it re-enters the pipeline only while its age
      is within the TTL; and a terminal result is as above. */
  lemma {:induction false} LifeHistory(policy: Policy, b: Buffered, trips: seq<Trip>)
    requires b.attempts == []
    ensures var (b', v) := Life(policy, b, trips);
            && b' == b.(attempts := b'.attempts, deadline := b'.deadline)
            && (trips != [] ==> Life(policy, b, Front(trips)).0.attempts <= b'.attempts)
            && (v.Finished? ==> TerminalHistory(b', v.result))
            && (v.Retried? ==> AllFailed(b'.attempts) && |b'.attempts| == |trips|)
            && (v.Retried? && trips != [] ==>
                  Last(trips).now - b.arrivalTime <= policy.ttl && b'.deadline == Last(trips).now + policy.retryDelay)
  {
    hide Settle, TerminalHistory;
    if trips != [] {
      LifeHistory(policy, b, Front(trips));
      var (mid, v) := Life(policy, b, Front(trips));
      if v.Retried? {
        SettleHistory(policy, mid, Last(trips));
      }
    }
  }

  /** The first classification is not before the arrival, and consecutive ones
      are at least `gap` apart. */
  ghost predicate Spaced(b: Buffered, trips: seq<Trip>, gap: real) {
    && (trips != [] ==> b.arrivalTime <= trips[0].now)
    && (forall i :: 0 <= i < |trips| - 1 ==> trips[i].now + gap <= trips[i + 1].now)
  }

  lemma {:induction false} SpacedReaches(b: Buffered, trips: seq<Trip>, gap: real)
    requires Spaced(b, trips, gap) && trips != []
    ensures b.arrivalTime + (|trips| - 1) as real * gap <= Last(trips).now
  {
    if |trips| > 1 {
      SpacedReaches(b, Front(trips), gap);
      assert trips[|trips| - 2].now + gap <= trips[|trips| - 1].now;
      assert (|trips| - 1) as real * gap == (|trips| - 2) as real * gap + gap;
    }
  }

  /** Retrying is bounded: if trips are at least `gap` apart, the record is
      terminal after floor(ttl / gap) + 2 classifications. */
  lemma {:induction false} RetryingEnds(policy: Policy, b: Buffered, trips: seq<Trip>, gap: real)
    requires b.attempts == [] && gap > 0.0 && policy.ttl >= 0.0 && Spaced(b, trips, gap)
    requires |trips| >= (policy.ttl / gap).Floor + 2
    ensures Life(policy, b, trips).1.Finished?
  {
    hide Life, Spaced, TerminalHistory, AllFailed;
    BeyondTtl(policy.ttl, gap, |trips| - 1);
    LifeHistory(policy, b, trips);
    SpacedReaches(b, trips, gap);
  }

  lemma BeyondTtl(ttl: real, gap: real, n: int)
    requires gap > 0.0 && ttl >= 0.0 && n >= (ttl / gap).Floor + 1
    ensures n as real * gap > ttl && n >= 1
  {
    var q := ttl / gap;
    assert q >= 0.0;
    assert q.Floor as real + 1.0 > q;
    MulMonotone(q, n as real, gap);
    assert q * gap == ttl;
  }

  lemma MulMonotone(x: real, y: real, g: real)
    requires x < y && g > 0.0
    ensures x * g < y * g
  {
  }
}
