/** The per-shard limiter of aiokpl/limiter.py: a deadline-ordered queue in
    front of a two-stream token bucket.

    `clock(k)` is what the clock shows at its k-th reading inside one drain:
    the k-th token request reads it at 2k for the record stream and at 2k + 1
    for the byte stream. */
module Limiter {
  import opened Common
  import opened Sorting
  import opened TokenBucket

  datatype Config<!B(!new)> = Config(deadline: B -> real, size: B -> nat)

  datatype Pending<B> = Pending(batch: B, expiresAt: real)

  datatype State<B> = State(queue: seq<Pending<B>>, streams: seq<Stream>)

  function ByDeadline<B(!new)>(cfg: Config<B>): (Pending<B>, Pending<B>) -> bool {
    ByKey((p: Pending<B>) => cfg.deadline(p.batch))
  }

  function Batches<B>(ps: seq<Pending<B>>): (r: seq<B>)
    ensures |r| == |ps| && forall i :: 0 <= i < |r| ==> r[i] == ps[i].batch
  {
    seq(|ps|, i requires 0 <= i < |ps| => ps[i].batch)
  }

  function Expired<B>(q: seq<Pending<B>>, now: real): seq<Pending<B>> {
    if q == [] then []
    else if Last(q).expiresAt <= now then Expired(Front(q), now) + [Last(q)]
    else Expired(Front(q), now)
  }

  function Live<B>(q: seq<Pending<B>>, now: real): seq<Pending<B>> {
    if q == [] then []
    else if Last(q).expiresAt <= now then Live(Front(q), now)
    else Live(Front(q), now) + [Last(q)]
  }

  // ---- Specification ----

  function Enqueue<B(!new)>(cfg: Config<B>, st: State<B>, batch: B, expiresAt: real): State<B> {
    st.(queue := InsertRight(ByDeadline(cfg), st.queue, Pending(batch, expiresAt)))
  }

  /** The k-th token request: one record token whatever the batch holds, and
      its size in bytes. */
  function Request<B(!new)>(cfg: Config<B>, ss: seq<Stream>, batch: B, clock: nat -> real,
                            k: nat): (r: (seq<Stream>, bool))
    requires |ss| == 2
    ensures |r.0| == 2
  {
    AtomicDebit(ss, [1.0, cfg.size(batch) as real], [clock(2 * k), clock(2 * k + 1)])
  }

  /** How many of `q` are admitted, and the streams afterwards. */
  function AdmitFrom<B(!new)>(cfg: Config<B>, q: seq<Pending<B>>, ss: seq<Stream>, clock: nat -> real,
                              k: nat): (r: (nat, seq<Stream>))
    requires |ss| == 2
    ensures r.0 <= |q| && |r.1| == 2
    decreases |q|
  {
    if q == [] then (0, ss)
    else
      var (after, ok) := Request(cfg, ss, q[0].batch, clock, k);
      if !ok then (0, after)
      else
        var (n, end) := AdmitFrom(cfg, q[1..], after, clock, k + 1);
        (n + 1, end)
  }

  function Drain<B(!new)>(cfg: Config<B>, st: State<B>, now: real, clock: nat -> real): (State<B>, seq<B>, seq<B>)
    requires |st.streams| == 2
  {
    var live := Live(st.queue, now);
    var (n, ss) := AdmitFrom(cfg, live, st.streams, clock, 0);
    (State(live[n..], ss), Batches(live[..n]), Batches(Expired(st.queue, now)))
  }

  function DrainForce<B>(st: State<B>, now: real): (State<B>, seq<B>, seq<B>) {
    (State([], st.streams), Batches(Live(st.queue, now)), Batches(Expired(st.queue, now)))
  }

  // ---- What one drain does ----

  lemma LiveUnfold<B>(q: seq<Pending<B>>, now: real)
    requires q != []
    ensures Expired(q, now)
         == if Last(q).expiresAt <= now then Expired(Front(q), now) + [Last(q)] else Expired(Front(q), now)
    ensures Live(q, now) == if Last(q).expiresAt <= now then Live(Front(q), now) else Live(Front(q), now) + [Last(q)]
  {
  }

  lemma BagSnoc<T>(s: seq<T>, x: T)
    ensures multiset(s + [x]) == multiset(s) + multiset{x}
  {
  }

  lemma BagJoin<T>(a: multiset<T>, b: multiset<T>, c: multiset<T>)
    ensures a + b + c == (a + c) + b == a + (b + c)
  {
  }

  lemma {:induction false} QueueSplits<B>(q: seq<Pending<B>>, now: real)
    ensures multiset(Expired(q, now)) + multiset(Live(q, now)) == multiset(q)
  {
    if q != [] {
      QueueSplits(Front(q), now);
      FrontLast(q);
      LiveUnfold(q, now);
      hide *;
      var f, x := Front(q), Last(q);
      var expired, live := Expired(f, now), Live(f, now);
      BagSnoc(f, x);
      BagJoin(multiset(expired), multiset(live), multiset{x});
      if x.expiresAt <= now {
        BagSnoc(expired, x);
      } else {
        BagSnoc(live, x);
      }
    }
  }

  lemma {:induction false} ExpiredMember<B>(q: seq<Pending<B>>, now: real, p: Pending<B>)
    ensures p in Expired(q, now) <==> p in q && p.expiresAt <= now
    ensures p in Live(q, now) <==> p in q && p.expiresAt > now
  {
    if q != [] {
      ExpiredMember(Front(q), now, p);
      LiveUnfold(q, now);
      hide Live, Expired;
      assert p in q <==> p in Front(q) || p == Last(q) by {
        assert q == Front(q) + [Last(q)];
      }
    }
  }

  lemma ExpiredAndLive<B(!new)>(q: seq<Pending<B>>, now: real)
    ensures multiset(Expired(q, now)) + multiset(Live(q, now)) == multiset(q)
    ensures forall p :: p in Expired(q, now) <==> p in q && p.expiresAt <= now
    ensures forall p :: p in Live(q, now) <==> p in q && p.expiresAt > now
  {
    hide Live, Expired;
    QueueSplits(q, now);
    forall p
      ensures p in Expired(q, now) <==> p in q && p.expiresAt <= now
      ensures p in Live(q, now) <==> p in q && p.expiresAt > now
    {
      ExpiredMember(q, now, p);
    }
  }

  lemma {:induction false} LiveSorted<B(!new)>(leq: (Pending<B>, Pending<B>) -> bool, q: seq<Pending<B>>, now: real)
    requires Sorted(leq, q)
    ensures Sorted(leq, Live(q, now)) && Sorted(leq, Expired(q, now))
  {
    if q != [] {
      LiveSorted(leq, Front(q), now);
      ExpiredAndLive(Front(q), now);
      forall p | p in Live(Front(q), now) || p in Expired(Front(q), now)
        ensures leq(p, Last(q))
      {
        assert p in Front(q);
        var i :| 0 <= i < |Front(q)| && Front(q)[i] == p;
        assert q[i] == p;
      }
      SortedSnoc(leq, Live(Front(q), now), Last(q));
      SortedSnoc(leq, Expired(Front(q), now), Last(q));
    }
  }

  lemma SortedSnoc<B(!new)>(leq: (Pending<B>, Pending<B>) -> bool, s: seq<Pending<B>>, x: Pending<B>)
    requires Sorted(leq, s) && forall e :: e in s ==> leq(e, x)
    ensures Sorted(leq, s + [x])
  {
  }

  lemma BatchesSplit<B>(ps: seq<Pending<B>>, qs: seq<Pending<B>>)
    ensures Batches(ps + qs) == Batches(ps) + Batches(qs)
  {
  }

  /** The queue splits into expired, admitted and kept, nothing else. Expired
      are exactly the timed-out entries, in deadline order; admitted and kept
      are the live entries in deadline order, cut at the first that the bucket
      refuses. */
  lemma DrainPartitions<B(!new)>(cfg: Config<B>, st: State<B>, now: real, clock: nat -> real)
    requires |st.streams| == 2 && Sorted(ByDeadline(cfg), st.queue)
    ensures var (st', admitted, expired) := Drain(cfg, st, now, clock);
            && admitted + Batches(st'.queue) == Batches(Live(st.queue, now))
            && expired == Batches(Expired(st.queue, now))
            && multiset(Expired(st.queue, now)) + multiset(Live(st.queue, now)) == multiset(st.queue)
            && (forall p :: p in Expired(st.queue, now) <==> p in st.queue && p.expiresAt <= now)
            && (forall p :: p in Live(st.queue, now) <==> p in st.queue && p.expiresAt > now)
            && Sorted(ByDeadline(cfg), Live(st.queue, now)) && Sorted(ByDeadline(cfg), Expired(st.queue, now))
            && Sorted(ByDeadline(cfg), st'.queue)
            && StopsAt(cfg, st'.queue, st'.streams, clock, |admitted|)
  {
    hide Live, Expired, AdmitFrom, ByDeadline, Request, StopsAt;
    ExpiredAndLive(st.queue, now);
    LiveSorted(ByDeadline(cfg), st.queue, now);
    var live := Live(st.queue, now);
    var n := AdmitFrom(cfg, live, st.streams, clock, 0).0;
    assert live == live[..n] + live[n..];
    BatchesSplit(live[..n], live[n..]);
    DrainStops(cfg, live, st.streams, clock);
  }

  /** A flush leaves nothing: what has timed out is expired, what has not is
      admitted, both in deadline order, and no token is taken. */
  lemma DrainForcePartitions<B(!new)>(cfg: Config<B>, st: State<B>, now: real)
    requires Sorted(ByDeadline(cfg), st.queue)
    ensures var (st', admitted, expired) := DrainForce(st, now);
            && st'.queue == [] && st'.streams == st.streams
            && exists late, live ::
                 Batches(late) == expired && Batches(live) == admitted && Parts(cfg, st, now, late, live)
  {
    hide Live, Expired, ByDeadline;
    ExpiredAndLive(st.queue, now);
    LiveSorted(ByDeadline(cfg), st.queue, now);
    assert Parts(cfg, st, now, Expired(st.queue, now), Live(st.queue, now));
  }

  /** `late` are the entries of the queue that have timed out, `live` the others. */
  ghost predicate Parts<B(!new)>(cfg: Config<B>, st: State<B>, now: real, late: seq<Pending<B>>,
                                 live: seq<Pending<B>>) {
    && multiset(late) + multiset(live) == multiset(st.queue)
    && (forall p :: p in late ==> p.expiresAt <= now) && (forall p :: p in live ==> p.expiresAt > now)
    && Sorted(ByDeadline(cfg), late) && Sorted(ByDeadline(cfg), live)
  }

  /** The first entry of `q`, if there is one, was refused in the k-th request. */
  ghost predicate StopsAt<B(!new)>(cfg: Config<B>, q: seq<Pending<B>>, ss: seq<Stream>, clock: nat -> real, k: nat) {
    q != [] ==> exists mid :: |mid| == 2 && Request(cfg, mid, q[0].batch, clock, k) == (ss, false)
  }

  lemma DrainStops<B(!new)>(cfg: Config<B>, live: seq<Pending<B>>, ss: seq<Stream>, clock: nat -> real)
    requires |ss| == 2
    ensures var (n, end) := AdmitFrom(cfg, live, ss, clock, 0); StopsAt(cfg, live[n..], end, clock, n)
  {
    hide AdmitFrom, Request;
    var n := AdmitFrom(cfg, live, ss, clock, 0).0;
    if n < |live| {
      var mid := HeadRefused(cfg, live, ss, clock, 0);
      assert live[n..][0] == live[n];
    }
  }

  /** The first entry not admitted was asked for, and refused. */
  lemma {:induction false} HeadRefused<B(!new)>(cfg: Config<B>, q: seq<Pending<B>>, ss: seq<Stream>, clock: nat -> real,
                                                k: nat) returns (mid: seq<Stream>)
    requires |ss| == 2 && AdmitFrom(cfg, q, ss, clock, k).0 < |q|
    ensures var (n, end) := AdmitFrom(cfg, q, ss, clock, k);
            |mid| == 2 && Request(cfg, mid, q[n].batch, clock, k + n) == (end, false)
    decreases |q|
  {
    hide Request;
    var (after, ok) := Request(cfg, ss, q[0].batch, clock, k);
    if ok {
      mid := HeadRefused(cfg, q[1..], after, clock, k + 1);
    } else {
      mid := ss;
    }
  }

  /** Timed-out entries cost no tokens: without them the drain leaves the same
      streams, the same queue and the same admissions. */
  lemma ExpiredCostNothing<B(!new)>(cfg: Config<B>, st: State<B>, now: real, clock: nat -> real)
    requires |st.streams| == 2
    ensures var (st', admitted, _) := Drain(cfg, st, now, clock);
            var (rest, admitted', none) := Drain(cfg, st.(queue := Live(st.queue, now)), now, clock);
            rest == st' && admitted' == admitted && none == []
  {
    LiveStaysLive(st.queue, now);
  }

  lemma {:induction false} LiveStaysLive<B(!new)>(q: seq<Pending<B>>, now: real)
    ensures Live(Live(q, now), now) == Live(q, now) && Expired(Live(q, now), now) == []
  {
    if q != [] {
      LiveStaysLive(Front(q), now);
      var live := Live(Front(q), now);
      assert Front(live + [Last(q)]) == live;
    }
  }

  /** A fully refilled bucket admits the first live entry: one second after the
      streams were last brought up to date is enough. */
  lemma RefilledAdmitsHead<B(!new)>(cfg: Config<B>, st: State<B>, now: real, clock: nat -> real, rps: real, bps: real)
    requires |st.streams| == 2 && Good(st.streams[0]) && Good(st.streams[1])
    requires st.streams[0].rate == st.streams[0].maxTokens == rps && rps >= 1.0
    requires st.streams[1].rate == st.streams[1].maxTokens == bps
    requires now >= st.streams[0].last + 1.0 && now >= st.streams[1].last + 1.0
    requires now <= clock(0) && now <= clock(1)
    requires Live(st.queue, now) != [] && cfg.size(Live(st.queue, now)[0].batch) as real <= bps
    ensures var (_, admitted, _) := Drain(cfg, st, now, clock);
            admitted != [] && admitted[0] == Live(st.queue, now)[0].batch
  {
    var ss, q := st.streams, Live(st.queue, now);
    var amounts, readings := [1.0, cfg.size(q[0].batch) as real], [clock(0), clock(1)];
    FullAfterASecond(ss[0], clock(0));
    FullAfterASecond(ss[1], clock(1));
    AtomicDebitMeaning(ss, amounts, readings, 0, clock(0));
    assert Request(cfg, ss, q[0].batch, clock, 0).1;
  }

  lemma FullAfterASecond(s: Stream, t: real)
    requires Good(s) && s.rate == s.maxTokens && t >= s.last + 1.0
    ensures Level(s, t) == s.maxTokens
  {
    hide Refill;
    OneSecond(s.rate, s.last);
    Nonnegative(s.rate, s.last + 1.0, t);
    Distribute(s.rate, s.last, s.last + 1.0, t);
  }

  // ---- The rate bound over whole runs ----

  /** The readings of one drain: monotone, and none after `until`. */
  ghost predicate Ticks(clock: nat -> real, until: real) {
    && (forall k :: clock(k) <= until)
    && (forall k, l :: k <= l ==> clock(k) <= clock(l))
  }

  /** A put enqueues and then drains its shard; the background task drains; a
      flush forces everything out. */
  datatype Event<!B> =
    | Enqueuing(batch: B, expiresAt: real, now: real)
    | Draining(now: real, clock: nat -> real, until: real)
    | Forcing(now: real)

  ghost predicate WellTimed<B(!new)>(es: seq<Event<B>>, start: real) {
    es == [] ||
    (&& WellTimed(Front(es), start)
     && EndOf(Front(es), start) <= Last(es).now
     && (Last(es).Draining? ==> Last(es).now <= Last(es).clock(0) && Ticks(Last(es).clock, Last(es).until)))
  }

  ghost function EndOf<B>(es: seq<Event<B>>, start: real): real {
    if es == [] then start else if Last(es).Draining? then Last(es).until else Last(es).now
  }

  /** An admitted batch and the readings at which its tokens were taken. */
  datatype Admission<B> = Admission(batch: B, recordAt: real, byteAt: real)

  function Admissions<B>(ps: seq<Pending<B>>, clock: nat -> real, k: nat): (r: seq<Admission<B>>)
    ensures |r| == |ps|
  {
    seq(|ps|, i requires 0 <= i < |ps| => Admission(ps[i].batch, clock(2 * (k + i)), clock(2 * (k + i) + 1)))
  }

  /** The state after one event, and the admissions that were paid for. */
  function Step<B(!new)>(cfg: Config<B>, st: State<B>, e: Event<B>): (r: (State<B>, seq<Admission<B>>))
    requires |st.streams| == 2
    ensures |r.0.streams| == 2
  {
    match e
    case Enqueuing(batch, expiresAt, _) => (Enqueue(cfg, st, batch, expiresAt), [])
    case Draining(now, clock, _) =>
      var live := Live(st.queue, now);
      var n := AdmitFrom(cfg, live, st.streams, clock, 0).0;
      (Drain(cfg, st, now, clock).0, Admissions(live[..n], clock, 0))
    case Forcing(now) => (DrainForce(st, now).0, [])
  }

  function Run<B(!new)>(cfg: Config<B>, init: State<B>, es: seq<Event<B>>): (r: (State<B>, seq<Admission<B>>))
    requires |init.streams| == 2
    ensures |r.0.streams| == 2
  {
    if es == [] then (init, [])
    else
      var (st, out) := Run(cfg, init, Front(es));
      var (st', more) := Step(cfg, st, Last(es));
      (st', out + more)
  }

  function RecordTakes<B(!new)>(cfg: Config<B>, out: seq<Admission<B>>): (r: seq<Take>)
    ensures |r| == |out| && forall i :: 0 <= i < |r| ==> r[i] == Take(out[i].recordAt, 1.0)
  {
    seq(|out|, i requires 0 <= i < |out| => Take(out[i].recordAt, 1.0))
  }

  function ByteTakes<B(!new)>(cfg: Config<B>, out: seq<Admission<B>>): (r: seq<Take>)
    ensures |r| == |out| && forall i :: 0 <= i < |r| ==> r[i] == Take(out[i].byteAt, cfg.size(out[i].batch) as real)
  {
    seq(|out|, i requires 0 <= i < |out| => Take(out[i].byteAt, cfg.size(out[i].batch) as real))
  }

  /** Both streams show the continuous buckets after the admissions `out`. */
  ghost predicate BothTrack<B(!new)>(cfg: Config<B>, init: seq<Stream>, out: seq<Admission<B>>, ss: seq<Stream>,
                                     now: real) {
    && |init| == 2 && |ss| == 2
    && Tracks(init[0], RecordTakes(cfg, out), ss[0], now)
    && Tracks(init[1], ByteTakes(cfg, out), ss[1], now)
  }

  lemma LaterTracks(start: Stream, takes: seq<Take>, s: Stream, now: real, later: real)
    requires Tracks(start, takes, s, now) && now <= later
    ensures Tracks(start, takes, s, later)
  {
  }

  /** A request through the two streams, spelled out. */
  lemma RequestUnfold<B(!new)>(cfg: Config<B>, ss: seq<Stream>, batch: B, clock: nat -> real, k: nat)
    requires |ss| == 2
    ensures var g0, g1 := Grow(ss[0], clock(2 * k)), Grow(ss[1], clock(2 * k + 1));
            var size := cfg.size(batch) as real;
            Request(cfg, ss, batch, clock, k) ==
            if 1.0 > g0.tokens then ([g0, ss[1]], false)
            else if size > g1.tokens then ([g0, g1], false)
            else ([Debit(g0, 1.0), Debit(g1, size)], true)
  {
    var amounts, readings := [1.0, cfg.size(batch) as real], [clock(2 * k), clock(2 * k + 1)];
    var g0, g1 := Grow(ss[0], readings[0]), Grow(ss[1], readings[1]);
    assert ss[0 := g0] == [g0, ss[1]] && [g0, ss[1]][1 := g1] == [g0, g1];
    assert CheckFrom([g0, g1], amounts, readings, 2) == ([g0, g1], true);
    assert CheckFrom([g0, ss[1]], amounts, readings, 1) ==
           if amounts[1] > g1.tokens then ([g0, g1], false) else ([g0, g1], true);
    if CheckFrom(ss, amounts, readings, 0).1 {
      assert AtomicDebit(ss, amounts, readings).0 == [Debit(g0, 1.0), Debit(g1, amounts[1])];
    }
  }

  lemma RequestTracks<B(!new)>(cfg: Config<B>, init: seq<Stream>, out: seq<Admission<B>>, ss: seq<Stream>,
                               batch: B, clock: nat -> real, k: nat, now: real, until: real)
    requires BothTrack(cfg, init, out, ss, now)
    requires now <= clock(2 * k) <= clock(2 * k + 1) <= until
    ensures var (after, ok) := Request(cfg, ss, batch, clock, k);
            var out' := if ok then out + [Admission(batch, clock(2 * k), clock(2 * k + 1))] else out;
            BothTrack(cfg, init, out', after, clock(2 * k + 1))
  {
    hide Tracks, Grow;
    RequestUnfold(cfg, ss, batch, clock, k);
    var t0, t1 := clock(2 * k), clock(2 * k + 1);
    var size := cfg.size(batch) as real;
    var recs, bytes := RecordTakes(cfg, out), ByteTakes(cfg, out);
    TracksThroughGrow(init[0], recs, ss[0], now, t0);
    LaterTracks(init[0], recs, Grow(ss[0], t0), t0, t1);
    TracksThroughGrow(init[1], bytes, ss[1], now, t1);
    LaterTracks(init[1], bytes, ss[1], now, t1);
    if 1.0 <= Grow(ss[0], t0).tokens && size <= Grow(ss[1], t1).tokens {
      TracksThroughTake(init[0], recs, ss[0], now, t0, 1.0);
      LaterTracks(init[0], recs + [Take(t0, 1.0)], Debit(Grow(ss[0], t0), 1.0), t0, t1);
      TracksThroughTake(init[1], bytes, ss[1], now, t1, size);
      var out' := out + [Admission(batch, t0, t1)];
      assert RecordTakes(cfg, out') == recs + [Take(t0, 1.0)];
      assert ByteTakes(cfg, out') == bytes + [Take(t1, size)];
    }
  }

  lemma {:induction false} AdmitTracks<B(!new)>(cfg: Config<B>, init: seq<Stream>, out: seq<Admission<B>>,
                                                q: seq<Pending<B>>,
                                                ss: seq<Stream>, clock: nat -> real, k: nat, now: real, until: real)
    requires BothTrack(cfg, init, out, ss, now) && Ticks(clock, until) && now <= clock(2 * k)
    ensures var (n, end) := AdmitFrom(cfg, q, ss, clock, k);
            BothTrack(cfg, init, out + Admissions(q[..n], clock, k), end, until)
    decreases |q|
  {
    hide Tracks, Request, RecordTakes, ByteTakes;
    if q == [] {
      assert out + Admissions(q[..0], clock, k) == out;
      BothLater(cfg, init, out, ss, now, until);
    } else {
      var (after, ok) := Request(cfg, ss, q[0].batch, clock, k);
      RequestTracks(cfg, init, out, ss, q[0].batch, clock, k, now, until);
      if ok {
        var first := Admission(q[0].batch, clock(2 * k), clock(2 * k + 1));
        AdmitTracks(cfg, init, out + [first], q[1..], after, clock, k + 1, clock(2 * k + 1), until);
        var n := AdmitFrom(cfg, q[1..], after, clock, k + 1).0;
        AdmissionsCons(q, clock, k, n);
        Assoc(out, [first], Admissions(q[1..][..n], clock, k + 1));
      } else {
        assert out + Admissions(q[..0], clock, k) == out;
        BothLater(cfg, init, out, after, clock(2 * k + 1), until);
      }
    }
  }

  lemma AdmissionsCons<B>(q: seq<Pending<B>>, clock: nat -> real, k: nat, n: nat)
    requires n < |q|
    ensures Admissions(q[..n + 1], clock, k)
         == [Admission(q[0].batch, clock(2 * k), clock(2 * k + 1))] + Admissions(q[1..][..n], clock, k + 1)
  {
    var a, b := Admissions(q[..n + 1], clock, k), Admissions(q[1..][..n], clock, k + 1);
    forall i | 0 <= i < n
      ensures a[i + 1] == b[i]
    {
      assert q[..n + 1][i + 1] == q[1..][..n][i];
    }
  }

  lemma BothLater<B(!new)>(cfg: Config<B>, init: seq<Stream>, out: seq<Admission<B>>, ss: seq<Stream>, now: real,
                           later: real)
    requires BothTrack(cfg, init, out, ss, now) && now <= later
    ensures BothTrack(cfg, init, out, ss, later)
  {
    LaterTracks(init[0], RecordTakes(cfg, out), ss[0], now, later);
    LaterTracks(init[1], ByteTakes(cfg, out), ss[1], now, later);
  }

  lemma {:induction false} RunTracks<B(!new)>(cfg: Config<B>, init: State<B>, es: seq<Event<B>>, start: real)
    requires |init.streams| == 2 && WellTimed(es, start)
    requires forall i :: 0 <= i < 2 ==> Good(init.streams[i]) && init.streams[i].last <= start
    ensures var (st, out) := Run(cfg, init, es);
            BothTrack(cfg, init.streams, out, st.streams, EndOf(es, start))
  {
    hide Tracks, AdmitFrom, Live, Admissions, Good;
    if es == [] {
      TracksFromStart(init.streams[0], start);
      TracksFromStart(init.streams[1], start);
    } else {
      var (st, out) := Run(cfg, init, Front(es));
      var e := Last(es);
      RunTracks(cfg, init, Front(es), start);
      BothLater(cfg, init.streams, out, st.streams, EndOf(Front(es), start), e.now);
      if e.Draining? {
        AdmitTracks(cfg, init.streams, out, Live(st.queue, e.now), st.streams, e.clock, 0, e.now, e.until);
      } else {
        assert out + [] == out;
      }
    }
  }

  /** The continuous buckets do not cover a batch of `size` bytes at these
      readings, after the admissions `out`. */
  ghost predicate RanOut<B(!new)>(cfg: Config<B>, init: seq<Stream>, out: seq<Admission<B>>, size: nat, t0: real,
                                  t1: real)
    requires |init| == 2
  {
    || Reference(init[0], RecordTakes(cfg, out), t0) < 1.0
    || Reference(init[1], ByteTakes(cfg, out), t1) < size as real
  }

  lemma RefusedRanOut<B(!new)>(cfg: Config<B>, init: seq<Stream>, out: seq<Admission<B>>, ss: seq<Stream>,
                               batch: B, clock: nat -> real, k: nat, now: real)
    requires BothTrack(cfg, init, out, ss, now)
    requires now <= clock(2 * k) <= clock(2 * k + 1) && !Request(cfg, ss, batch, clock, k).1
    ensures RanOut(cfg, init, out, cfg.size(batch), clock(2 * k), clock(2 * k + 1))
  {
    hide Tracks, Grow, Reference;
    RequestUnfold(cfg, ss, batch, clock, k);
    TracksThroughGrow(init[0], RecordTakes(cfg, out), ss[0], now, clock(2 * k));
    TracksThroughGrow(init[1], ByteTakes(cfg, out), ss[1], now, clock(2 * k + 1));
  }

  lemma {:induction false} AdmitStops<B(!new)>(cfg: Config<B>, init: seq<Stream>, out: seq<Admission<B>>,
                                               q: seq<Pending<B>>, ss: seq<Stream>, clock: nat -> real, k: nat,
                                               now: real, until: real)
    requires BothTrack(cfg, init, out, ss, now) && Ticks(clock, until) && now <= clock(2 * k)
    requires AdmitFrom(cfg, q, ss, clock, k).0 < |q|
    ensures var n := AdmitFrom(cfg, q, ss, clock, k).0;
            RanOut(cfg, init, out + Admissions(q[..n], clock, k), cfg.size(q[n].batch),
                   clock(2 * (k + n)), clock(2 * (k + n) + 1))
    decreases |q|
  {
    hide Tracks, Request, RecordTakes, ByteTakes, RanOut, Admissions, AdmitFrom;
    var (after, ok) := Request(cfg, ss, q[0].batch, clock, k);
    AdmitUnfold(cfg, q, ss, clock, k);
    if ok {
      RequestTracks(cfg, init, out, ss, q[0].batch, clock, k, now, until);
      var first := Admission(q[0].batch, clock(2 * k), clock(2 * k + 1));
      AdmitStops(cfg, init, out + [first], q[1..], after, clock, k + 1, clock(2 * k + 1), until);
      var n := AdmitFrom(cfg, q[1..], after, clock, k + 1).0;
      AdmissionsCons(q, clock, k, n);
      Assoc(out, [first], Admissions(q[1..][..n], clock, k + 1));
      assert q[1..][n] == q[n + 1];
    } else {
      assert out + Admissions(q[..0], clock, k) == out;
      RefusedRanOut(cfg, init, out, ss, q[0].batch, clock, k, now);
    }
  }

  lemma AdmitUnfold<B(!new)>(cfg: Config<B>, q: seq<Pending<B>>, ss: seq<Stream>, clock: nat -> real, k: nat)
    requires |ss| == 2 && q != []
    ensures var (after, ok) := Request(cfg, ss, q[0].batch, clock, k);
            AdmitFrom(cfg, q, ss, clock, k).0 == if ok then AdmitFrom(cfg, q[1..], after, clock, k + 1).0 + 1 else 0
  {
  }

  /** Over every run that ends with a drain: what the drain leaves in the queue
      it leaves because the continuous buckets, after all admissions so far, do
      not cover the first entry kept. */
  lemma DrainStopsWhereTokensRunOut<B(!new)>(cfg: Config<B>, init: State<B>, es: seq<Event<B>>, start: real)
    requires |init.streams| == 2 && WellTimed(es, start) && es != [] && Last(es).Draining?
    requires forall i :: 0 <= i < 2 ==> Good(init.streams[i]) && init.streams[i].last <= start
    ensures var (st, out) := Run(cfg, init, es);
            st.queue != [] ==>
              exists t0, t1 :: Last(es).now <= t0 <= t1 <= Last(es).until &&
                RanOut(cfg, init.streams, out, cfg.size(st.queue[0].batch), t0, t1)
  {
    hide Tracks, AdmitFrom, Live, Admissions, Good, RanOut;
    var (st, out) := Run(cfg, init, Front(es));
    var e := Last(es);
    RunTracks(cfg, init, Front(es), start);
    BothLater(cfg, init.streams, out, st.streams, EndOf(Front(es), start), e.now);
    var live := Live(st.queue, e.now);
    var n := AdmitFrom(cfg, live, st.streams, e.clock, 0).0;
    if n < |live| {
      AdmitStops(cfg, init.streams, out, live, st.streams, e.clock, 0, e.now, e.until);
      assert e.clock(0) <= e.clock(2 * n) <= e.clock(2 * n + 1) <= e.until;
    }
  }

  /** The bytes of the admissions from the `i`-th on. */
  function BytesFrom<B(!new)>(cfg: Config<B>, out: seq<Admission<B>>, i: nat): nat {
    if i >= |out| then 0 else BytesFrom(cfg, Front(out), i) + cfg.size(Last(out).batch)
  }

  lemma {:induction false} TakesTotal<B(!new)>(cfg: Config<B>, out: seq<Admission<B>>, i: nat)
    requires i <= |out|
    ensures TotalFrom(RecordTakes(cfg, out), i) == (|out| - i) as real
    ensures TotalFrom(ByteTakes(cfg, out), i) == BytesFrom(cfg, out, i) as real
  {
    if i < |out| {
      TakesTotal(cfg, Front(out), i);
      assert Front(RecordTakes(cfg, out)) == RecordTakes(cfg, Front(out));
      assert Front(ByteTakes(cfg, out)) == ByteTakes(cfg, Front(out));
    }
  }

  /** A fresh shard limiter at time `t`: both streams full. */
  function FreshStreams(rps: real, bps: real, t: real): (ss: seq<Stream>)
    ensures |ss| == 2
  {
    [Stream(rps, rps, rps, t), Stream(bps, bps, bps, t)]
  }

  /** Over every run the queue is in deadline order. */
  lemma {:induction false} QueueStaysSorted<B(!new)>(cfg: Config<B>, init: State<B>, es: seq<Event<B>>)
    requires |init.streams| == 2 && Sorted(ByDeadline(cfg), init.queue)
    ensures Sorted(ByDeadline(cfg), Run(cfg, init, es).0.queue)
  {
    hide Sorted, ByDeadline, Step;
    if es != [] {
      QueueStaysSorted(cfg, init, Front(es));
      StepStaysSorted(cfg, Run(cfg, init, Front(es)).0, Last(es));
    }
  }

  lemma StepStaysSorted<B(!new)>(cfg: Config<B>, st: State<B>, e: Event<B>)
    requires |st.streams| == 2 && Sorted(ByDeadline(cfg), st.queue)
    ensures Sorted(ByDeadline(cfg), Step(cfg, st, e).0.queue)
  {
    hide *;
    StepQueue(cfg, st, e);
    match e
    case Enqueuing(batch, expiresAt, _) =>
      ByDeadlineIsTotal(cfg);
      InsertRightKeeps(ByDeadline(cfg), st.queue, Pending(batch, expiresAt));
    case Draining(now, clock, _) => DrainPartitions(cfg, st, now, clock);
    case Forcing(_) => EmptySorted(ByDeadline(cfg));
  }

  lemma StepQueue<B(!new)>(cfg: Config<B>, st: State<B>, e: Event<B>)
    requires |st.streams| == 2
    ensures Step(cfg, st, e).0.queue ==
            match e
            case Enqueuing(batch, expiresAt, _) => InsertRight(ByDeadline(cfg), st.queue, Pending(batch, expiresAt))
            case Draining(now, clock, _) => Drain(cfg, st, now, clock).0.queue
            case Forcing(_) => []
  {
    hide InsertRight, AdmitFrom, Live, Expired, ByDeadline;
  }

  lemma ByDeadlineIsTotal<B(!new)>(cfg: Config<B>)
    ensures TotalPreorder(ByDeadline(cfg))
  {
    ByKeyIsTotal((p: Pending<B>) => cfg.deadline(p.batch));
  }

  /** A new limiter admits its first live entry at once, however early it drains,
      if one record and the entry fit the rates. */
  lemma FreshAdmitsHead<B(!new)>(cfg: Config<B>, q: seq<Pending<B>>, rps: real, bps: real, t: real, now: real,
                                 clock: nat -> real)
    requires rps >= 1.0 && t <= now <= clock(0) && now <= clock(1)
    requires Live(q, now) != [] && cfg.size(Live(q, now)[0].batch) as real <= bps
    ensures var (_, admitted, _) := Drain(cfg, State(q, FreshStreams(rps, bps, t)), now, clock);
            admitted != [] && admitted[0] == Live(q, now)[0].batch
  {
    hide Live, Grow;
    var live := Live(q, now);
    RequestUnfold(cfg, FreshStreams(rps, bps, t), live[0].batch, clock, 0);
    FreshIsFull(rps, t, clock(0));
    FreshIsFull(bps, t, clock(1));
  }

  lemma FreshIsFull(rate: real, t: real, now: real)
    requires rate >= 0.0 && t <= now
    ensures Grow(Stream(rate, rate, rate, t), now).tokens == rate
  {
    hide Refill;
    Nonnegative(rate, t, now);
  }

  /** The Kinesis limit: over every run of puts, drains and flushes, in every
      window of length `w`, draining admits at most rps * (1 + w) batches and at
      most bps * (1 + w) bytes of one shard. What a flush forces out is not
      paid for and not counted. */
  lemma RateBound<B(!new)>(cfg: Config<B>, rps: real, bps: real, start: real, es: seq<Event<B>>,
                           i: nat, j: nat, w: real)
    requires rps >= 0.0 && bps >= 0.0 && WellTimed(es, start)
    requires var out := Run(cfg, State([], FreshStreams(rps, bps, start)), es).1;
             && i < j <= |out|
             && out[j - 1].recordAt - out[i].recordAt <= w
             && out[j - 1].byteAt - out[i].byteAt <= w
    ensures var out := Run(cfg, State([], FreshStreams(rps, bps, start)), es).1;
            && (j - i) as real <= rps * (1.0 + w)
            && BytesFrom(cfg, out[..j], i) as real <= bps * (1.0 + w)
  {
    hide Run, Covered, TotalFrom, BytesFrom, WellTimed, Reference, Level, EndOf;
    var init := State([], FreshStreams(rps, bps, start));
    var out := Run(cfg, init, es).1;
    RunTracks(cfg, init, es, start);
    var recs, bytes := RecordTakes(cfg, out), ByteTakes(cfg, out);
    WindowRate(init.streams[0], recs, i, j, w);
    WindowRate(init.streams[1], bytes, i, j, w);
    assert recs[..j] == RecordTakes(cfg, out[..j]) && bytes[..j] == ByteTakes(cfg, out[..j]);
    TakesTotal(cfg, out[..j], i);
  }
}
