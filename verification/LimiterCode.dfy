/** The `ShardLimiter` class of aiokpl/limiter.py, proved to be the steps of
    `Limiter`. */
module LimiterCode {
  import opened Common
  import opened Sorting
  import opened TokenBucket
  import opened Limiter
  import Spec = Limiter

  class ShardLimiter<B(!new)> {
    const cfg: Config<B>
    const bucket: Bucket
    var queue: seq<Pending<B>>

    ghost predicate Valid()
      reads this, bucket
    {
      bucket.Valid() && |bucket.streams| == 2 && Sorted(ByDeadline(cfg), queue)
    }

    ghost function View(): State<B>
      reads this, bucket
    {
      State(queue, bucket.streams)
    }

    constructor (cfg: Config<B>, rps: real, bps: real, now: real)
      requires rps >= 0.0 && bps >= 0.0
      ensures Valid() && fresh(bucket) && this.cfg == cfg
      ensures View() == State([], FreshStreams(rps, bps, now))
    {
      this.cfg := cfg;
      var b := new Bucket([(rps, rps), (bps, bps)], now, true);
      bucket := b;
      queue := [];
      new;
      assert bucket.streams == FreshStreams(rps, bps, now);
    }

    method Put(batch: B, expiresAt: real)
      requires Valid()
      modifies this
      ensures Valid() && View() == Enqueue(cfg, old(View()), batch, expiresAt)
    {
      ByKeyIsTotal((p: Pending<B>) => cfg.deadline(p.batch));
      InsertRightKeeps(ByDeadline(cfg), queue, Pending(batch, expiresAt));
      queue := InsertRight(ByDeadline(cfg), queue, Pending(batch, expiresAt));
    }

    /** Splits the queue into what is expired at `now` and what is not. */
    method Sweep(now: real) returns (expired: seq<B>, keep: seq<Pending<B>>)
      ensures expired == Batches(Expired(queue, now)) && keep == Live(queue, now)
    {
      expired, keep := [], [];
      for i := 0 to |queue|
        invariant expired == Batches(Expired(queue[..i], now)) && keep == Live(queue[..i], now)
      {
        assert Front(queue[..i + 1]) == queue[..i];
        if queue[i].expiresAt <= now {
          expired := expired + [queue[i].batch];
        } else {
          keep := keep + [queue[i]];
        }
      }
      assert queue[..|queue|] == queue;
    }

    method Drain(now: real, clock: nat -> real, until: real) returns (admitted: seq<B>, expired: seq<B>)
      requires Valid() && Ticks(clock, until) && now <= clock(0)
      requires forall i :: 0 <= i < 2 ==> bucket.streams[i].last <= now
      modifies this, bucket
      ensures Valid()
      ensures (View(), admitted, expired) == Spec.Drain(cfg, old(View()), now, clock)
    {
      var keep;
      expired, keep := Sweep(now);
      ByKeyIsTotal((p: Pending<B>) => cfg.deadline(p.batch));
      LiveSorted(ByDeadline(cfg), queue, now);
      if expired != [] {
        SortedIsFixed(ByDeadline(cfg), keep);
        queue := StableSort(ByDeadline(cfg), keep);
      } else {
        NothingExpired(queue, now);
      }
      admitted := Admit(clock, until, now);
    }

    /** The k-th token request of a drain. */
    method RequestTokens(batch: B, clock: nat -> real, k: nat) returns (ok: bool)
      requires Valid() && clock(2 * k) <= clock(2 * k + 1)
      requires forall i :: 0 <= i < 2 ==> bucket.streams[i].last <= clock(2 * k)
      modifies bucket
      ensures Valid()
      ensures (bucket.streams, ok) == Request(cfg, old(bucket.streams), batch, clock, k)
      ensures forall i :: 0 <= i < 2 ==> bucket.streams[i].last <= clock(2 * k + 1)
    {
      var amounts, readings := [1.0, cfg.size(batch) as real], [clock(2 * k), clock(2 * k + 1)];
      AtomicDebitMeaning(bucket.streams, amounts, readings, 0, readings[0]);
      AtomicDebitMeaning(bucket.streams, amounts, readings, 1, readings[1]);
      var r := bucket.TryTake(amounts, readings);
      ok := r.value;
    }

    /** The admission loop: pop the front while the bucket allows it. */
    method Admit(clock: nat -> real, until: real, ghost now: real) returns (admitted: seq<B>)
      requires Valid() && Ticks(clock, until) && now <= clock(0)
      requires forall i :: 0 <= i < 2 ==> bucket.streams[i].last <= now
      modifies this, bucket
      ensures Valid()
      ensures var (n, ss) := AdmitFrom(cfg, old(queue), old(bucket.streams), clock, 0);
              admitted == Batches(old(queue)[..n]) && queue == old(queue)[n..] && bucket.streams == ss
    {
      hide Request, Bucket.Valid, Sorted;
      ghost var q, total := queue, AdmitFrom(cfg, queue, bucket.streams, clock, 0);
      admitted := [];
      var k, go := 0, true;
      while queue != [] && go
        invariant Valid() && k + |queue| == |q| && queue == q[k..]
        invariant admitted == Batches(q[..k])
        invariant go ==> forall i :: 0 <= i < 2 ==> bucket.streams[i].last <= clock(2 * k)
        invariant go ==> total.0 == AdmitFrom(cfg, queue, bucket.streams, clock, k).0 + k
        invariant go ==> total.1 == AdmitFrom(cfg, queue, bucket.streams, clock, k).1
        invariant !go ==> total == (k, bucket.streams)
        decreases |queue|, go
      {
        var head := queue[0];
        assert clock(2 * k) <= clock(2 * k + 1) <= clock(2 * (k + 1));
        var ok := RequestTokens(head.batch, clock, k);
        if ok {
          PopFront(q, k);
          SortedTail(ByDeadline(cfg), queue);
          queue := queue[1..];
          admitted := admitted + [head.batch];
          k := k + 1;
        } else {
          go := false;
        }
      }
    }

    method DrainForce(now: real) returns (admitted: seq<B>, expired: seq<B>)
      requires Valid()
      modifies this
      ensures Valid() && (View(), admitted, expired) == Spec.DrainForce(old(View()), now)
    {
      var keep;
      expired, keep := Sweep(now);
      admitted := Batches(keep);
      queue := [];
    }
  }

  lemma SortedTail<T>(leq: (T, T) -> bool, s: seq<T>)
    requires Sorted(leq, s) && s != []
    ensures Sorted(leq, s[1..])
  {
  }

  lemma PopFront<B>(q: seq<Pending<B>>, k: nat)
    requires k < |q|
    ensures q[k..][1..] == q[k + 1..] && Batches(q[..k + 1]) == Batches(q[..k]) + [q[k].batch]
  {
  }

  lemma {:induction false} NothingExpired<B>(q: seq<Pending<B>>, now: real)
    requires Expired(q, now) == []
    ensures Live(q, now) == q
  {
    LiveLength(q, now);
  }

  /** What is not expired is live, and nothing else is. */
  lemma {:induction false} LiveLength<B>(q: seq<Pending<B>>, now: real)
    ensures |Live(q, now)| + |Expired(q, now)| == |q|
    ensures |Live(q, now)| == |q| ==> Live(q, now) == q
  {
    if q != [] {
      LiveLength(Front(q), now);
      FrontLast(q);
      LiveUnfold(q, now);
      hide *;
    }
  }
}
