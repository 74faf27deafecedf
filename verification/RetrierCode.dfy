/** The handlers of aiokpl/retrier.py on the mutable `_BufferedRecord`. */
module RetrierCode {
  import opened Common
  import opened Aggregation
  import opened Records
  import opened Retrier

  class BufferedRecord {
    const id: nat
    const userRecord: UserRecord
    const hashKey: nat
    const arrivalTime: real
    var deadline: real
    var attempts: seq<Attempt>

    ghost function View(): Buffered
      reads this
    {
      Buffered(id, userRecord, deadline, hashKey, arrivalTime, attempts)
    }

    constructor (b: Buffered)
      ensures View() == b
    {
      id, userRecord, hashKey, arrivalTime := b.id, b.userRecord, b.hashKey, b.arrivalTime;
      deadline, attempts := b.deadline, b.attempts;
    }
  }

  function HashOf(): BufferedRecord -> int {
    (b: BufferedRecord) => b.hashKey
  }

  class Handler {
    const policy: Policy

    constructor (policy: Policy)
      ensures this.policy == policy
    {
      this.policy := policy;
    }

    method FinishSuccess(b: BufferedRecord, startedAt: real, endedAt: real, ruling: Ruling, ghost now: real)
        returns (result: RecordResult)
      requires ruling.Accept?
      modifies b
      ensures (b.View(), Finished(result)) == Settle(policy, old(b.View()), startedAt, endedAt, ruling, now)
    {
      b.attempts := b.attempts + [Attempt(startedAt, endedAt, true, ruling.shardId, ruling.sequenceNumber, None, None)];
      result := RecordResult(true, ruling.shardId, ruling.sequenceNumber, b.attempts);
    }

    method Fail(b: BufferedRecord, startedAt: real, endedAt: real, ruling: Ruling, ghost now: real)
        returns (result: RecordResult)
      requires ruling.Reject?
      modifies b
      ensures (b.View(), Finished(result)) == Settle(policy, old(b.View()), startedAt, endedAt, ruling, now)
    {
      b.attempts := b.attempts + [Failure(startedAt, endedAt, ruling.code, ruling.message)];
      result := RecordResult(false, None, None, b.attempts);
    }

    method RetryNotExpired(b: BufferedRecord, startedAt: real, endedAt: real, ruling: Ruling, now: real)
        returns (v: Verdict)
      requires ruling.TryAgain?
      modifies b
      ensures (b.View(), v) == Settle(policy, old(b.View()), startedAt, endedAt, ruling, now)
    {
      b.attempts := b.attempts + [Failure(startedAt, endedAt, ruling.code, ruling.message)];
      if now - b.arrivalTime > policy.ttl {
        b.attempts := b.attempts + [Failure(now, now, EXPIRED, EXPIRED_MESSAGE)];
        return Finished(RecordResult(false, None, None, b.attempts));
      }
      b.deadline := now + policy.retryDelay;
      return Retried;
    }

    /** The first records of `work` are settled, the others still as `before`. */
    ghost predicate Settled(work: seq<(BufferedRecord, Ruling)>, before: seq<Buffered>, verdicts: seq<Verdict>,
                            startedAt: real, endedAt: real, clock: nat -> real)
      reads Firsts(work)
    {
      && |verdicts| <= |work| == |before|
      && (forall j :: |verdicts| <= j < |work| ==> Firsts(work)[j].View() == before[j])
      && (forall j :: 0 <= j < |verdicts| ==>
            (Firsts(work)[j].View(), verdicts[j]) == Settle(policy, before[j], startedAt, endedAt, work[j].1, clock(j)))
    }

    /** Settles the next record of `work` and leaves the others alone. */
    method SettleNext(ghost work: seq<(BufferedRecord, Ruling)>, ghost before: seq<Buffered>, verdicts: seq<Verdict>,
                      b: BufferedRecord, ruling: Ruling, startedAt: real, endedAt: real, clock: nat -> real)
        returns (v: Verdict)
      requires Apart(work) && Settled(work, before, verdicts, startedAt, endedAt, clock)
      requires |verdicts| < |work| && work[|verdicts|] == (b, ruling)
      modifies b
      ensures Settled(work, before, verdicts + [v], startedAt, endedAt, clock)
    {
      hide Settle;
      var n := |verdicts|;
      assert forall j :: 0 <= j < |work| && j != n ==> Firsts(work)[j] != b;
      assert Firsts(work)[n] == b;
      match ruling {
        case Accept(_, _) =>
          var r := FinishSuccess(b, startedAt, endedAt, ruling, clock(n));
          v := Finished(r);
        case Reject(_, _) =>
          var r := Fail(b, startedAt, endedAt, ruling, clock(n));
          v := Finished(r);
        case TryAgain(_, _) =>
          v := RetryNotExpired(b, startedAt, endedAt, ruling, clock(n));
      }
    }

    /** Settles records that all get the same ruling, and come next, in order. */
    method SettleAlike(ghost work: seq<(BufferedRecord, Ruling)>, ghost before: seq<Buffered>, verdicts: seq<Verdict>,
                       items: seq<BufferedRecord>, ruling: Ruling, startedAt: real, endedAt: real, clock: nat -> real)
        returns (all: seq<Verdict>)
      requires Apart(work) && Settled(work, before, verdicts, startedAt, endedAt, clock)
      requires |verdicts| + |items| <= |work|
      requires forall i :: 0 <= i < |items| ==> work[|verdicts| + i] == (items[i], ruling)
      modifies Firsts(work)
      ensures |all| == |verdicts| + |items| && Settled(work, before, all, startedAt, endedAt, clock)
    {
      hide Settle, Settled, Apart;
      all := verdicts;
      for i := 0 to |items|
        invariant |all| == |verdicts| + i && Settled(work, before, all, startedAt, endedAt, clock)
      {
        assert items[i] == Firsts(work)[|verdicts| + i];
        var v := SettleNext(work, before, all, items[i], ruling, startedAt, endedAt, clock);
        all := all + [v];
      }
    }

    /** An answer from another shard than predicted: records inside that shard's
        range succeed, the others are retried, and the shard map hears of the
        shard once. */
    method HandleDiverted(ghost work: seq<(BufferedRecord, Ruling)>, ghost before: seq<Buffered>,
                          verdicts: seq<Verdict>,
                          pr: PerRecord<BufferedRecord>, actual: int, range: Option<(int, int)>,
                          startedAt: real, endedAt: real, clock: nat -> real)
        returns (all: seq<Verdict>, sightings: seq<int>)
      requires Apart(work) && Settled(work, before, verdicts, startedAt, endedAt, clock)
      requires |verdicts| + |pr.batch.items| <= |work|
      requires forall i :: 0 <= i < |pr.batch.items| ==>
                 work[|verdicts| + i] == (pr.batch.items[i],
                   if InRange(range, pr.batch.items[i].hashKey) then Accept(pr.shardId, pr.sequenceNumber)
                   else TryAgain(WRONG_SHARD, WRONG_SHARD_MESSAGE))
      modifies Firsts(work)
      ensures |all| == |verdicts| + |pr.batch.items| && Settled(work, before, all, startedAt, endedAt, clock)
      ensures sightings == if pr.batch.items != [] then [actual] else []
    {
      hide Settle, Settled, Apart;
      var items := pr.batch.items;
      all, sightings := verdicts, [];
      var invalidated := false;
      for i := 0 to |items|
        invariant |all| == |verdicts| + i && Settled(work, before, all, startedAt, endedAt, clock)
        invariant invalidated <==> i > 0
        invariant sightings == if invalidated then [actual] else []
      {
        assert items[i] == Firsts(work)[|verdicts| + i];
        var v;
        if range.Some? && range.value.0 <= items[i].hashKey <= range.value.1 {
          v := SettleNext(work, before, all, items[i], Accept(pr.shardId, pr.sequenceNumber), startedAt, endedAt,
                          clock);
        } else {
          v := SettleNext(work, before, all, items[i], TryAgain(WRONG_SHARD, WRONG_SHARD_MESSAGE), startedAt, endedAt,
                          clock);
        }
        all := all + [v];
        if !invalidated {
          sightings, invalidated := sightings + [actual], true;
        }
      }
    }

    /** One answer: the branches of the classification. */
    method HandlePerRecord(ghost work: seq<(BufferedRecord, Ruling)>, ghost before: seq<Buffered>,
                           verdicts: seq<Verdict>,
                           pr: PerRecord<BufferedRecord>, hashrange: int -> Option<(int, int)>,
                           startedAt: real, endedAt: real, clock: nat -> real)
        returns (all: seq<Verdict>, sightings: seq<int>)
      requires Apart(work) && Settled(work, before, verdicts, startedAt, endedAt, clock)
      requires |verdicts| + |pr.batch.items| <= |work|
      requires forall i :: 0 <= i < |pr.batch.items| ==>
                 work[|verdicts| + i] == (pr.batch.items[i], Rule(policy, pr, pr.batch.items[i].hashKey, hashrange))
      modifies Firsts(work)
      ensures |all| == |verdicts| + |pr.batch.items| && Settled(work, before, all, startedAt, endedAt, clock)
      ensures sightings == Sighting(pr)
    {
      hide Settle, Settled, Apart, ParseShardId;
      var items := pr.batch.items;
      if !pr.success {
        var code := if pr.errorCode.Some? && pr.errorCode.value != "" then pr.errorCode.value else "Unknown";
        var message := if pr.errorMessage.Some? then pr.errorMessage.value else "";
        var ruling := if code == THROTTLED && policy.failIfThrottled then Reject(code, message)
            else TryAgain(code, message);
        all := SettleAlike(work, before, verdicts, items, ruling, startedAt, endedAt, clock);
        return all, [];
      }
      var predicted, actual := pr.batch.shard, ParseShardId(pr.shardId);
      if predicted.None? || actual.None? || predicted == actual {
        var ruling := Accept(pr.shardId, pr.sequenceNumber);
        all := SettleAlike(work, before, verdicts, items, ruling, startedAt, endedAt, clock);
        return all, [];
      }
      var range := hashrange(actual.value);
      all, sightings := HandleDiverted(work, before, verdicts, pr, actual.value, range, startedAt, endedAt, clock);
    }

    /** Walks the answers in turn: every record is settled by its own ruling, and
        every diverted answer reports its shard to the shard map exactly once. */
    method HandleAnswers(prs: seq<PerRecord<BufferedRecord>>, startedAt: real, endedAt: real,
                         lookup: nat -> int -> Option<(int, int)>, clock: nat -> real)
        returns (verdicts: seq<Verdict>, sightings: seq<int>)
      requires Apart(RuleAll(policy, prs, HashOf(), lookup))
      modifies Firsts(RuleAll(policy, prs, HashOf(), lookup))
      ensures var work := RuleAll(policy, prs, HashOf(), lookup);
              && |verdicts| == |work|
              && forall i :: 0 <= i < |work| ==>
                   (work[i].0.View(), verdicts[i]) == Settle(policy, old(work[i].0.View()), startedAt, endedAt,
                                                             work[i].1, clock(i))
      ensures sightings == Sightings(prs)
    {
      hide Settle, RuleItems, Rule, Apart, Sightings, Sighting, RuleAll, BufferedRecord.View;
      ghost var work := RuleAll(policy, prs, HashOf(), lookup);
      ghost var before := Views(work);
      NoAnswers(policy, lookup);
      assert prs[..0] == [];
      verdicts, sightings := [], [];
      for k := 0 to |prs|
        invariant |verdicts| == |RuleAll(policy, prs[..k], HashOf(), lookup)|
        invariant Settled(work, before, verdicts, startedAt, endedAt, clock)
        invariant sightings == Sightings(prs[..k])
      {
        hide Settled;
        NextAnswer(policy, prs, k, lookup);
        var seen;
        verdicts, seen := HandlePerRecord(work, before, verdicts, prs[k], lookup(k), startedAt, endedAt, clock);
        sightings := sightings + seen;
      }
      assert prs[..|prs|] == prs;
    }

    /** A request error: every record of every batch gets the same ruling. */
    method HandleRequestError(batches: seq<Batch<BufferedRecord>>, code: string, message: string,
                              startedAt: real, endedAt: real, ghost work: seq<(BufferedRecord, Ruling)>,
                                  clock: nat -> real)
        returns (verdicts: seq<Verdict>)
      requires Apart(work) && Firsts(work) == Flatten(batches)
      requires forall i :: 0 <= i < |work| ==> work[i].1 == RuleError(policy, code, message)
      modifies Firsts(work)
      ensures Settled(work, old(Views(work)), verdicts, startedAt, endedAt, clock) && |verdicts| == |work|
    {
      hide Settle, Apart, BufferedRecord.View, Flatten;
      ghost var before := Views(work);
      NoBatches();
      var ruling := if code == THROTTLED && policy.failIfThrottled then Reject(code, message)
          else TryAgain(code, message);
      verdicts := [];
      assert batches[..0] == [];
      for k := 0 to |batches|
        invariant |verdicts| == |Flatten(batches[..k])|
        invariant Settled(work, before, verdicts, startedAt, endedAt, clock)
      {
        hide Settled;
        NextBatch(batches, k);
        assert forall j :: 0 <= j < |work| ==> work[j].0 == Firsts(work)[j];
        verdicts := SettleAlike(work, before, verdicts, batches[k].items, ruling, startedAt, endedAt, clock);
      }
      assert batches[..|batches|] == batches;
    }

    method Handle(o: SendOutcome<BufferedRecord>, lookup: nat -> int -> Option<(int, int)>, clock: nat -> real)
        returns (verdicts: seq<Verdict>, sightings: seq<int>)
      requires Apart(Rulings(policy, o, HashOf(), lookup))
      modifies Firsts(Rulings(policy, o, HashOf(), lookup))
      ensures var work := Rulings(policy, o, HashOf(), lookup);
              && |verdicts| == |work|
              && forall i :: 0 <= i < |work| ==>
                   (work[i].0.View(), verdicts[i])
                   == Settle(policy, old(work[i].0.View()), o.startedAt, o.endedAt, work[i].1, clock(i))
      ensures sightings == if o.requestError.Some? then [] else Sightings(o.perRecord)
    {
      hide Settle, RuleAll, Sightings, RuleError;
      if o.requestError.Some? {
        var (code, message) := o.requestError.value;
        ghost var work := Rulings(policy, o, HashOf(), lookup);
        assert Firsts(work) == Flatten(o.batchItems);
        verdicts := HandleRequestError(o.batchItems, code, message, o.startedAt, o.endedAt, work, clock);
        sightings := [];
      } else {
        verdicts, sightings := HandleAnswers(o.perRecord, o.startedAt, o.endedAt, lookup, clock);
      }
    }
  }

  /** The records of `work` as they are now. */
  ghost function Views(work: seq<(BufferedRecord, Ruling)>): (v: seq<Buffered>)
    reads Firsts(work)
    ensures |v| == |work| && forall i :: 0 <= i < |work| ==> v[i] == work[i].0.View()
  {
    if work == [] then []
    else
      assert forall i :: 0 <= i < |Front(work)| ==> Firsts(Front(work))[i] == Firsts(work)[i];
      assert Last(work).0 == Firsts(work)[|work| - 1];
      Views(Front(work)) + [Last(work).0.View()]
  }

  /** No record occurs twice. */
  ghost predicate Apart(work: seq<(BufferedRecord, Ruling)>) {
    forall i, j :: 0 <= i < j < |work| ==> work[i].0 != work[j].0
  }

  lemma NoAnswers(policy: Policy, lookup: nat -> int -> Option<(int, int)>)
    ensures RuleAll(policy, [], HashOf(), lookup) == [] && Sightings<BufferedRecord>([]) == []
  {
  }

  lemma {:induction false} RuleAllPrefix(policy: Policy, prs: seq<PerRecord<BufferedRecord>>, k: nat,
                                         lookup: nat -> int -> Option<(int, int)>)
    requires k <= |prs|
    ensures RuleAll(policy, prs[..k], HashOf(), lookup) <= RuleAll(policy, prs, HashOf(), lookup)
    decreases |prs|
  {
    if k == |prs| {
      assert prs[..k] == prs;
    } else {
      assert Front(prs)[..k] == prs[..k];
      RuleAllPrefix(policy, Front(prs), k, lookup);
    }
  }

  /** The k-th answer's records come next. */
  lemma NextAnswer(policy: Policy, prs: seq<PerRecord<BufferedRecord>>, k: nat,
                   lookup: nat -> int -> Option<(int, int)>)
    requires k < |prs|
    ensures var all, n := RuleAll(policy, prs, HashOf(), lookup), |RuleAll(policy, prs[..k], HashOf(), lookup)|;
            var items := prs[k].batch.items;
            && |RuleAll(policy, prs[..k + 1], HashOf(), lookup)| == n + |items| <= |all|
            && (Diverted(prs[k]) ==> ParseShardId(prs[k].shardId).Some?)
            && forall i :: 0 <= i < |items| ==>
                 all[n + i] == (items[i], Rule(policy, prs[k], items[i].hashKey, lookup(k)))
    ensures Sightings(prs[..k + 1]) == Sightings(prs[..k]) + Sighting(prs[k])
  {
    NextRulings(policy, prs, k, lookup);
    hide RuleAll, Rule, ParseShardId;
    assert Front(prs[..k + 1]) == prs[..k] && Last(prs[..k + 1]) == prs[k];
  }

  lemma NextRulings(policy: Policy, prs: seq<PerRecord<BufferedRecord>>, k: nat,
                    lookup: nat -> int -> Option<(int, int)>)
    requires k < |prs|
    ensures var all, n := RuleAll(policy, prs, HashOf(), lookup), |RuleAll(policy, prs[..k], HashOf(), lookup)|;
            var items := prs[k].batch.items;
            && |RuleAll(policy, prs[..k + 1], HashOf(), lookup)| == n + |items| <= |all|
            && forall i :: 0 <= i < |items| ==>
                 all[n + i] == (items[i], Rule(policy, prs[k], items[i].hashKey, lookup(k)))
  {
    hide RuleItems, Rule, RuleAll;
    RuleAllSnoc(policy, prs, k, lookup);
    RuleAllPrefix(policy, prs, k + 1, lookup);
    var part := RuleItems(policy, prs[k], HashOf(), lookup(k));
    PartOfPrefix(RuleAll(policy, prs, HashOf(), lookup), RuleAll(policy, prs[..k], HashOf(), lookup), part);
    assert forall i :: 0 <= i < |part| ==>
      part[i] == (prs[k].batch.items[i], Rule(policy, prs[k], HashOf()(prs[k].batch.items[i]), lookup(k)));
  }

  lemma PartOfPrefix<T>(all: seq<T>, before: seq<T>, part: seq<T>)
    requires before + part <= all
    ensures |before| + |part| <= |all| && forall i :: 0 <= i < |part| ==> all[|before| + i] == part[i]
  {
    assert forall i :: 0 <= i < |part| ==> (before + part)[|before| + i] == part[i];
  }

  lemma RuleAllSnoc(policy: Policy, prs: seq<PerRecord<BufferedRecord>>, k: nat,
                    lookup: nat -> int -> Option<(int, int)>)
    requires k < |prs|
    ensures RuleAll(policy, prs[..k + 1], HashOf(), lookup)
         == RuleAll(policy, prs[..k], HashOf(), lookup) + RuleItems(policy, prs[k], HashOf(), lookup(k))
  {
    hide RuleItems;
    assert Front(prs[..k + 1]) == prs[..k] && Last(prs[..k + 1]) == prs[k];
  }

  lemma NoBatches()
    ensures Flatten<BufferedRecord>([]) == []
  {
  }

  /** The k-th batch's records come next. */
  lemma NextBatch(batches: seq<Batch<BufferedRecord>>, k: nat)
    requires k < |batches|
    ensures var n, items := |Flatten(batches[..k])|, batches[k].items;
            && |Flatten(batches[..k + 1])| == n + |items| <= |Flatten(batches)|
            && forall i :: 0 <= i < |items| ==> Flatten(batches)[n + i] == items[i]
  {
    assert Front(batches[..k + 1]) == batches[..k] && Last(batches[..k + 1]) == batches[k];
    assert batches == batches[..k + 1] + batches[k + 1..];
    FlattenConcat(batches[..k + 1], batches[k + 1..]);
    PartOfPrefix(Flatten(batches), Flatten(batches[..k]), batches[k].items);
  }
}
