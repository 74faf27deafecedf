/** The rolling window of aiokpl/metrics.py: per-second buckets that must agree
    with the raw log of observations. */
module Metrics {
  import opened Common

  /** A summary of some observations; `None` stands for the infinities of the
      empty one. */
  datatype Bucket = Bucket(count: nat, sum: real, min: Option<real>, max: Option<real>)

  const EMPTY := Bucket(0, 0.0, None, None)

  datatype Entry = Entry(sec: int, value: real)

  /** `int(t)`: towards zero. */
  function Truncate(t: real): (n: int)
    ensures t >= 0.0 ==> n as real <= t < n as real + 1.0
    ensures t <= 0.0 ==> n as real - 1.0 < t <= n as real
  {
    if t >= 0.0 then t.Floor else -((-t).Floor)
  }

  lemma TruncateMonotone(s: real, t: real)
    requires s <= t
    ensures Truncate(s) <= Truncate(t)
  {
  }

  function Lower(x: Option<real>, y: Option<real>): Option<real> {
    if x.None? || (y.Some? && y.value < x.value) then y else x
  }

  function Higher(x: Option<real>, y: Option<real>): Option<real> {
    if x.None? || (y.Some? && y.value > x.value) then y else x
  }

  function Observe(b: Bucket, v: real): Bucket {
    Bucket(b.count + 1, b.sum + v, Lower(b.min, Some(v)), Higher(b.max, Some(v)))
  }

  function Merge(a: Bucket, b: Bucket): Bucket {
    Bucket(a.count + b.count, a.sum + b.sum, Lower(a.min, b.min), Higher(a.max, b.max))
  }

  // ---- The log ----

  /** The summary of a log. */
  function Summary(log: seq<Entry>): Bucket {
    if log == [] then EMPTY else Observe(Summary(Front(log)), Last(log).value)
  }

  function SumOf(log: seq<Entry>): real {
    if log == [] then 0.0 else SumOf(Front(log)) + Last(log).value
  }

  /** The summary is the count, the sum, the least and the greatest. */
  lemma {:induction false} SummaryMeaning(log: seq<Entry>)
    ensures var s := Summary(log);
            && s.count == |log| && s.sum == SumOf(log)
            && (s.min.None? <==> log == []) && (s.max.None? <==> log == [])
            && (forall e :: e in log ==> s.min.value <= e.value <= s.max.value)
            && (log != [] ==> exists e :: e in log && e.value == s.min.value)
            && (log != [] ==> exists e :: e in log && e.value == s.max.value)
  {
    if log != [] {
      SummaryMeaning(Front(log));
      assert log == Front(log) + [Last(log)];
      assert Last(log) in log;
      var s := Summary(Front(log));
      if |log| > 1 {
        var a :| a in Front(log) && a.value == s.min.value;
        var b :| b in Front(log) && b.value == s.max.value;
        assert a in log && b in log;
      }
    }
  }

  /** The entries from second `cutoff` on. */
  function Recent(log: seq<Entry>, cutoff: int): seq<Entry> {
    if log == [] then []
    else if Last(log).sec >= cutoff then Recent(Front(log), cutoff) + [Last(log)]
    else Recent(Front(log), cutoff)
  }

  ghost predicate InOrder(log: seq<Entry>) {
    forall i, j :: 0 <= i < j < |log| ==> log[i].sec <= log[j].sec
  }

  lemma {:induction false} RecentMeaning(log: seq<Entry>, cutoff: int)
    ensures forall e :: e in Recent(log, cutoff) <==> e in log && e.sec >= cutoff
    ensures InOrder(log) ==> InOrder(Recent(log, cutoff))
  {
    if log != [] {
      RecentMeaning(Front(log), cutoff);
      assert log == Front(log) + [Last(log)];
      if InOrder(log) && Last(log).sec >= cutoff {
        var r := Recent(Front(log), cutoff);
        forall i | 0 <= i < |r|
          ensures r[i].sec <= Last(log).sec
        {
          assert r[i] in r;
        }
      }
    }
  }

  /** In an ordered log they are a suffix. */
  lemma {:induction false} RecentIsSuffix(log: seq<Entry>, cutoff: int) returns (k: nat)
    requires InOrder(log)
    ensures k <= |log| && Recent(log, cutoff) == log[k..]
    ensures forall i :: 0 <= i < |log| ==> (log[i].sec >= cutoff <==> i >= k)
  {
    if log == [] || Last(log).sec < cutoff {
      k := |log|;
      NoneRecent(log, cutoff);
    } else {
      k := RecentIsSuffix(Front(log), cutoff);
      assert log[k..] == Front(log)[k..] + [Last(log)];
    }
  }

  lemma {:induction false} NoneRecent(log: seq<Entry>, cutoff: int)
    requires forall i :: 0 <= i < |log| ==> log[i].sec < cutoff
    ensures Recent(log, cutoff) == []
  {
    if log != [] {
      NoneRecent(Front(log), cutoff);
    }
  }

  lemma {:induction false} RecentTwice(log: seq<Entry>, c: int, d: int)
    requires c <= d
    ensures Recent(Recent(log, c), d) == Recent(log, d)
  {
    if log != [] {
      RecentTwice(Front(log), c, d);
      var r := Recent(Front(log), c);
      assert Front(r + [Last(log)]) == r;
    }
  }

  lemma RecentSnoc(log: seq<Entry>, e: Entry, c: int)
    ensures Recent(log + [e], c) == if e.sec >= c then Recent(log, c) + [e] else Recent(log, c)
  {
    assert Front(log + [e]) == log;
  }

  // ---- Buckets ----

  /** One bucket per second, in order. */
  function Group(log: seq<Entry>): seq<(int, Bucket)> {
    if log == [] then [] else Put(Group(Front(log)), Last(log))
  }

  function Put(buckets: seq<(int, Bucket)>, e: Entry): seq<(int, Bucket)> {
    if buckets != [] && Last(buckets).0 == e.sec
    then Front(buckets) + [(e.sec, Observe(Last(buckets).1, e.value))]
    else buckets + [(e.sec, Observe(EMPTY, e.value))]
  }

  function MergeAll(buckets: seq<(int, Bucket)>): Bucket {
    if buckets == [] then EMPTY else Merge(MergeAll(Front(buckets)), Last(buckets).1)
  }

  lemma MergeObserve(a: Bucket, b: Bucket, v: real)
    ensures Merge(a, Observe(b, v)) == Observe(Merge(a, b), v)
  {
  }

  /** Merging the buckets gives the summary of the log. */
  lemma {:induction false} GroupSummary(log: seq<Entry>)
    ensures MergeAll(Group(log)) == Summary(log)
  {
    if log != [] {
      GroupSummary(Front(log));
      var g, e := Group(Front(log)), Last(log);
      if g != [] && Last(g).0 == e.sec {
        assert Front(Front(g) + [(e.sec, Observe(Last(g).1, e.value))]) == Front(g);
        MergeObserve(MergeAll(Front(g)), Last(g).1, e.value);
      } else {
        assert Front(g + [(e.sec, Observe(EMPTY, e.value))]) == g;
        MergeObserve(MergeAll(g), EMPTY, e.value);
      }
    }
  }

  ghost predicate Increasing(buckets: seq<(int, Bucket)>) {
    forall i, j :: 0 <= i < j < |buckets| ==> buckets[i].0 < buckets[j].0
  }

  lemma PutShape(buckets: seq<(int, Bucket)>, e: Entry)
    requires Increasing(buckets) && (buckets != [] ==> Last(buckets).0 <= e.sec)
    ensures var p := Put(buckets, e);
            && Increasing(p) && p != [] && Last(p).0 == e.sec
            && p[0].0 == if buckets == [] then e.sec else buckets[0].0
  {
    hide Observe;
  }

  /** The buckets of an ordered log: strictly increasing seconds, from the first
      entry's to the last entry's. */
  lemma {:induction false} GroupShape(log: seq<Entry>)
    requires InOrder(log)
    ensures var g := Group(log);
            && Increasing(g) && (g == [] <==> log == [])
            && (log != [] ==> g[0].0 == log[0].sec && Last(g).0 == Last(log).sec)
  {
    hide Put;
    if log != [] {
      var f := Front(log);
      assert forall i :: 0 <= i < |f| ==> f[i] == log[i];
      GroupShape(f);
      assert f != [] ==> Last(f) == log[|f| - 1] && f[0] == log[0];
      PutShape(Group(f), Last(log));
    }
  }

  /** Popping old buckets from the front is forgetting old entries. */
  function Evict(buckets: seq<(int, Bucket)>, cutoff: int): seq<(int, Bucket)> {
    if buckets != [] && buckets[0].0 < cutoff then Evict(buckets[1..], cutoff) else buckets
  }

  lemma EvictOne(x: (int, Bucket), cutoff: int)
    ensures Evict([], cutoff) == []
    ensures Evict([x], cutoff) == if x.0 < cutoff then [] else [x]
  {
    assert [x][1..] == [];
  }

  lemma PutHead(buckets: seq<(int, Bucket)>, e: Entry)
    requires |buckets| > 1 || (|buckets| == 1 && buckets[0].0 != e.sec)
    ensures var p := Put(buckets, e); |p| > 1 && p[0] == buckets[0] && p[1..] == Put(buckets[1..], e)
  {
    hide Observe;
    if |buckets| > 1 {
      assert Last(buckets[1..]) == Last(buckets) && Front(buckets[1..]) == Front(buckets)[1..];
    }
  }

  lemma {:induction false} EvictPut(buckets: seq<(int, Bucket)>, e: Entry, cutoff: int)
    requires Increasing(buckets) && (buckets != [] ==> Last(buckets).0 <= e.sec)
    ensures Evict(Put(buckets, e), cutoff) == if e.sec >= cutoff then Put(Evict(buckets, cutoff), e) else []
    decreases |buckets|
  {
    hide Observe;
    if buckets == [] || (|buckets| == 1 && buckets[0].0 == e.sec) {
      assert |Put(buckets, e)| == 1 && Put(buckets, e) == [Put(buckets, e)[0]];
      EvictOne(Put(buckets, e)[0], cutoff);
      if buckets != [] {
        assert buckets == [buckets[0]];
        EvictOne(buckets[0], cutoff);
      }
    } else {
      PutHead(buckets, e);
      EvictPut(buckets[1..], e, cutoff);
      assert buckets[0].0 < e.sec;
    }
  }

  lemma {:induction false} AllOld(log: seq<Entry>, sec: int, cutoff: int)
    requires sec < cutoff && forall i :: 0 <= i < |log| ==> log[i].sec <= sec
    ensures Recent(log, cutoff) == []
  {
    if log != [] {
      assert Last(log) == log[|log| - 1];
      AllOld(Front(log), sec, cutoff);
    }
  }

  lemma {:induction false} EvictGroup(log: seq<Entry>, cutoff: int)
    requires InOrder(log)
    ensures Evict(Group(log), cutoff) == Group(Recent(log, cutoff))
  {
    hide Put, Evict;
    if log == [] {
      EvictOne((0, EMPTY), cutoff);
    } else {
      var f, e := Front(log), Last(log);
      assert forall i :: 0 <= i < |f| ==> f[i] == log[i];
      GroupShape(f);
      EvictGroup(f, cutoff);
      EvictPut(Group(f), e, cutoff);
      if e.sec >= cutoff {
        assert Front(Recent(f, cutoff) + [e]) == Recent(f, cutoff);
      } else {
        AllOld(f, e.sec, cutoff);
      }
    }
  }

  lemma {:induction false} IncreasingSpan(buckets: seq<(int, Bucket)>)
    requires Increasing(buckets) && buckets != []
    ensures |buckets| <= Last(buckets).0 - buckets[0].0 + 1
  {
    if |buckets| > 1 {
      IncreasingSpan(Front(buckets));
      assert Last(Front(buckets)).0 < Last(buckets).0;
    }
  }
}
