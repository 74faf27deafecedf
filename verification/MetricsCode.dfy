/** The `_Accumulator` class of aiokpl/metrics.py. */
module MetricsCode {
  import opened Common
  import opened Metrics
  import Spec = Metrics

  lemma KeepOne(kept: seq<Entry>, log: seq<Entry>, e: Entry, cutoff: int)
    requires InOrder(kept) && forall x :: x in kept ==> x.sec <= e.sec
    requires forall c :: c >= cutoff ==> Recent(kept, c) == Recent(log, c)
    ensures InOrder(kept + [e]) && Group(kept + [e]) == Put(Group(kept), e)
    ensures forall c :: c >= cutoff ==> Recent(kept + [e], c) == Recent(log + [e], c)
  {
    hide Put, Recent;
    assert Front(kept + [e]) == kept;
    forall c | c >= cutoff
      ensures Recent(kept + [e], c) == Recent(log + [e], c)
    {
      RecentSnoc(kept, e, c);
      RecentSnoc(log, e, c);
    }
  }

  class Accumulator {
    const window: int
    var buckets: seq<(int, Bucket)>
    ghost var log: seq<Entry>    // every observation
    ghost var kept: seq<Entry>   // those the buckets still hold
    ghost var clock: real        // the last clock reading

    ghost function Cutoff(): int
      reads this
    {
      Truncate(clock) - window + 1
    }

    /** The buckets are those of the entries kept, and nothing recent was
        dropped. */
    ghost predicate Valid()
      reads this
    {
      && buckets == Group(kept)
      && InOrder(kept) && (forall e :: e in kept ==>
                           e.sec <= Truncate(clock) && (Cutoff() <= e.sec || e.sec == Truncate(clock)))
      && (forall c :: c >= Cutoff() ==> Recent(kept, c) == Recent(log, c))
    }

    constructor (window: int, ghost now: real)
      ensures Valid() && this.window == window && log == [] && clock == now
    {
      this.window := window;
      buckets := [];
      log, kept, clock := [], [], now;
    }

    method EvictOld(nowSec: int, ghost now: real)
      requires Valid() && clock <= now && nowSec == Truncate(now)
      modifies this
      ensures Valid() && log == old(log) && clock == now
      ensures kept == Recent(log, Cutoff())
    {
      hide Group, Recent, Truncate;
      TruncateMonotone(clock, now);
      var cutoff := nowSec - window + 1;
      EvictGroup(kept, cutoff);
      RecentMeaning(kept, cutoff);
      while buckets != [] && buckets[0].0 < cutoff
        invariant Spec.Evict(buckets, cutoff) == Spec.Evict(old(buckets), cutoff)
        invariant kept == old(kept) && log == old(log) && clock == old(clock)
        decreases |buckets|
      {
        buckets := buckets[1..];
      }
      kept, clock := Recent(kept, cutoff), now;
      forall c | c >= cutoff
        ensures Recent(kept, c) == Recent(log, c)
      {
        RecentTwice(old(kept), cutoff, c);
      }
    }

    /** Records one observation in the bucket of the current second. */
    method PutValue(value: real, now: real)
      requires Valid() && clock <= now
      modifies this
      ensures Valid() && log == old(log) + [Entry(Truncate(now), value)] && clock == now
    {
      hide Recent, Group, InOrder, Put, Truncate;
      var nowSec := Truncate(now);
      EvictOld(nowSec, now);
      ghost var e := Entry(nowSec, value);
      KeepOne(kept, log, e, Cutoff());
      AddToLast(nowSec, value);
      kept, log := kept + [e], log + [e];
    }

    /** The current second's bucket, made if need be, takes the value. */
    method AddToLast(nowSec: int, value: real)
      modifies this`buckets
      ensures buckets == Put(old(buckets), Entry(nowSec, value))
    {
      if buckets == [] || buckets[|buckets| - 1].0 != nowSec {
        buckets := buckets + [(nowSec, EMPTY)];
      }
      var b := buckets[|buckets| - 1].1;
      b := Bucket(b.count + 1, b.sum + value,
                  if b.min.None? || value < b.min.value then Some(value) else b.min,
                  if b.max.None? || value > b.max.value then Some(value) else b.max);
      buckets := buckets[..|buckets| - 1] + [(nowSec, b)];
    }

    /** The summary of the log restricted to the last `window` integer seconds,
        or nothing exactly when that is empty. */
    method Stats(now: real) returns (r: Option<Bucket>)
      requires Valid() && clock <= now
      modifies this
      ensures Valid() && log == old(log) && clock == now
      ensures var recent := Recent(log, Truncate(now) - window + 1);
              r == if recent == [] then None else Some(Summary(recent))
    {
      hide Recent, Summary, Group, Truncate;
      EvictOld(Truncate(now), now);
      GroupShape(kept);
      GroupSummary(kept);
      if buckets == [] {
        return None;
      }
      var count: nat, total: real, mn: Option<real>, mx: Option<real> := 0, 0.0, None, None;
      for i := 0 to |buckets|
        invariant Valid() && log == old(log) && clock == now && kept == Recent(log, Cutoff()) && buckets != []
        invariant Bucket(count, total, mn, mx) == MergeAll(buckets[..i])
      {
        assert Front(buckets[..i + 1]) == buckets[..i];
        var b := buckets[i].1;
        count, total := count + b.count, total + b.sum;
        if b.min.Some? && (mn.None? || b.min.value < mn.value) {
          mn := b.min;
        }
        if b.max.Some? && (mx.None? || b.max.value > mx.value) {
          mx := b.max;
        }
      }
      assert buckets[..|buckets|] == buckets;
      r := Some(Bucket(count, total, mn, mx));
    }

    /** The first second held and the second after the last; zeros when empty. */
    method WindowBounds() returns (r: (real, real))
      requires Valid()
      ensures kept == [] ==> r == (0.0, 0.0)
      ensures kept != [] ==> r == (kept[0].sec as real, (Last(kept).sec + 1) as real)
      ensures forall e :: e in kept ==> r.0 <= e.sec as real < r.1
    {
      hide Group;
      GroupShape(kept);
      if buckets == [] {
        return (0.0, 0.0);
      }
      return (buckets[0].0 as real, (buckets[|buckets| - 1].0 + 1) as real);
    }

    /** At most `window` buckets exist, or one if the window is empty, and their
        seconds strictly increase. */
    lemma FewBuckets()
      requires Valid()
      ensures Increasing(buckets)
      ensures |buckets| <= if window >= 1 then window else 1
    {
      hide Group, Recent;
      GroupShape(kept);
      if buckets != [] {
        IncreasingSpan(buckets);
        assert kept[0] in kept && Last(kept) in kept;
      }
    }
  }
}
