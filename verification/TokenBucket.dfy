/** The multi-stream token bucket of aiokpl/token_bucket.py over the reals.

    Tokens are only brought up to date when a stream is looked at. `Level` is
    the continuously refilling bucket this stands for. */
module TokenBucket {
  import opened Common

  datatype Stream = Stream(rate: real, maxTokens: real, tokens: real, last: real)

  ghost predicate Good(s: Stream) {
    s.rate >= 0.0 && 0.0 <= s.tokens <= s.maxTokens
  }

  /** What flows in at `rate` between two times. */
  function Refill(rate: real, from: real, to: real): real {
    rate * (to - from)
  }

  /** The capped linear reference: tokens at time `t`. */
  function Level(s: Stream, t: real): real {
    MinReal(s.maxTokens, s.tokens + Refill(s.rate, s.last, t))
  }

  /** `_grow` at time `now`. */
  function Grow(s: Stream, now: real): Stream {
    var growth := Refill(s.rate, s.last, now);
    if growth > 0.0 then s.(tokens := MinReal(s.maxTokens, s.tokens + growth), last := now) else s
  }

  lemma Distribute(r: real, a: real, b: real, c: real)
    ensures Refill(r, a, b) + Refill(r, b, c) == Refill(r, a, c)
  {
  }

  lemma Nonnegative(r: real, a: real, b: real)
    requires r >= 0.0 && a <= b
    ensures Refill(r, a, b) >= 0.0 && Refill(r, b, b) == 0.0
  {
  }

  lemma OneSecond(r: real, a: real)
    ensures Refill(r, a, a + 1.0) == r
  {
  }

  lemma RefillIs(r: real, a: real, b: real)
    ensures Refill(r, a, b) == r * (b - a)
  {
  }

  /** Growing shows the reference level, linear up to the cap, and leaves every
      later level alone. */
  lemma GrowIsInvisible(s: Stream, now: real, t: real)
    requires Good(s) && s.last <= now <= t
    ensures Good(Grow(s, now)) && Grow(s, now).last <= now
    ensures Grow(s, now).tokens == Level(s, now)
    ensures Level(Grow(s, now), t) == Level(s, t)
    ensures Grow(s, now).tokens == MinReal(s.maxTokens, s.tokens + s.rate * (now - s.last))
    ensures Grow(s, now).rate == s.rate && Grow(s, now).maxTokens == s.maxTokens
  {
    RefillIs(s.rate, s.last, now);
    hide Refill;
    Distribute(s.rate, s.last, now, t);
    Nonnegative(s.rate, s.last, now);
    Nonnegative(s.rate, now, t);
  }

  // ---- The atomic multi-stream debit ----

  /** Grows the streams from `i` on, up to the first that is short. */
  function CheckFrom(ss: seq<Stream>, amounts: seq<real>, readings: seq<real>, i: nat): (r: (seq<Stream>, bool))
    requires |ss| == |amounts| == |readings| && i <= |ss|
    ensures |r.0| == |ss|
    decreases |ss| - i
  {
    if i == |ss| then (ss, true)
    else
      var grown := ss[i := Grow(ss[i], readings[i])];
      if amounts[i] > grown[i].tokens then (grown, false) else CheckFrom(grown, amounts, readings, i + 1)
  }

  function Debit(s: Stream, amount: real): Stream {
    s.(tokens := s.tokens - amount)
  }

  function AtomicDebit(ss: seq<Stream>, amounts: seq<real>, readings: seq<real>): (r: (seq<Stream>, bool))
    requires |ss| == |amounts| == |readings|
    ensures |r.0| == |ss|
  {
    var (grown, ok) := CheckFrom(ss, amounts, readings, 0);
    (if ok then seq(|ss|, i requires 0 <= i < |ss| => Debit(grown[i], amounts[i])) else grown, ok)
  }

  lemma {:induction false} CheckFromMeaning(ss: seq<Stream>, amounts: seq<real>, readings: seq<real>, i: nat)
    requires |ss| == |amounts| == |readings| && i <= |ss|
    requires forall j :: i <= j < |ss| ==> Good(ss[j]) && ss[j].last <= readings[j]
    ensures var (grown, ok) := CheckFrom(ss, amounts, readings, i);
            && (ok <==> forall j :: i <= j < |ss| ==> amounts[j] <= Level(ss[j], readings[j]))
            && (forall j :: 0 <= j < |ss| ==> grown[j] == ss[j] || (j >= i && grown[j] == Grow(ss[j], readings[j])))
            && (ok ==> forall j :: i <= j < |ss| ==> grown[j] == Grow(ss[j], readings[j]))
    decreases |ss| - i
  {
    if i < |ss| {
      GrowIsInvisible(ss[i], readings[i], readings[i]);
      var grown := ss[i := Grow(ss[i], readings[i])];
      if amounts[i] <= grown[i].tokens {
        CheckFromMeaning(grown, amounts, readings, i + 1);
      }
    }
  }

  /** The debit succeeds exactly when the reference level of every stream, at
      the moment it is read, covers its amount. It then debits every stream;
      otherwise no later reading of any stream can tell it was tried. */
  lemma AtomicDebitMeaning(ss: seq<Stream>, amounts: seq<real>, readings: seq<real>, j: nat, t: real)
    requires |ss| == |amounts| == |readings|
    requires forall i :: 0 <= i < |ss| ==> Good(ss[i]) && ss[i].last <= readings[i] && amounts[i] >= 0.0
    requires j < |ss| && readings[j] <= t
    ensures var (after, ok) := AtomicDebit(ss, amounts, readings);
            && (ok <==> forall i :: 0 <= i < |ss| ==> amounts[i] <= Level(ss[i], readings[i]))
            && Good(after[j]) && after[j].last <= readings[j]
            && (ok ==> after[j].tokens == Level(ss[j], readings[j]) - amounts[j])
            && (!ok ==> Level(after[j], t) == Level(ss[j], t))
  {
    CheckFromMeaning(ss, amounts, readings, 0);
    GrowIsInvisible(ss[j], readings[j], t);
    GrowIsInvisible(ss[j], readings[j], readings[j]);
  }

  // ---- One stream over a whole run ----

  /** A successful debit: when, and how much. */
  datatype Take = Take(at: real, amount: real)

  /** The continuous bucket `s` at time `t`, after the debits `takes` alone. */
  function Reference(s: Stream, takes: seq<Take>, t: real): real {
    if takes == [] then Level(s, t)
    else MinReal(s.maxTokens,
                 Reference(s, Front(takes), Last(takes).at) - Last(takes).amount + Refill(s.rate, Last(takes).at, t))
  }

  function LastTime(s: Stream, takes: seq<Take>): real {
    if takes == [] then s.last else Last(takes).at
  }

  /** The debits happened in time order and each was covered. */
  ghost predicate Covered(s: Stream, takes: seq<Take>) {
    takes == [] ||
    (&& Covered(s, Front(takes))
     && LastTime(s, Front(takes)) <= Last(takes).at
     && 0.0 <= Last(takes).amount <= Reference(s, Front(takes), Last(takes).at))
  }

  /** At and after `now`, `s` shows what the continuous bucket `start` shows
      after `takes`, whatever queries and failed debits came between. */
  ghost predicate Tracks(start: Stream, takes: seq<Take>, s: Stream, now: real) {
    && Good(start) && Good(s) && start.last <= now && s.last <= now
    && s.rate == start.rate && s.maxTokens == start.maxTokens
    && Covered(start, takes) && LastTime(start, takes) <= now
    && (forall t {:trigger Level(s, t)} :: now <= t ==> Level(s, t) == Reference(start, takes, t))
  }

  lemma TracksFromStart(s: Stream, now: real)
    requires Good(s) && s.last <= now
    ensures Tracks(s, [], s, now)
  {
  }

  lemma TracksThroughGrow(start: Stream, takes: seq<Take>, s: Stream, now: real, at: real)
    requires Tracks(start, takes, s, now) && now <= at
    ensures Tracks(start, takes, Grow(s, at), at)
    ensures Grow(s, at).tokens == Reference(start, takes, at)
  {
    hide Refill;
    GrowIsInvisible(s, at, at);
    forall t | at <= t
      ensures Level(Grow(s, at), t) == Reference(start, takes, t)
    {
      GrowIsInvisible(s, at, t);
    }
  }

  lemma DebitLevel(s: Stream, at: real, amount: real, t: real)
    requires Good(s) && s.last <= at <= t
    ensures Level(Debit(Grow(s, at), amount), t)
         == MinReal(s.maxTokens, Grow(s, at).tokens - amount + Refill(s.rate, at, t))
  {
    hide Refill;
    Distribute(s.rate, s.last, at, t);
    Nonnegative(s.rate, s.last, at);
  }

  lemma TracksThroughTake(start: Stream, takes: seq<Take>, s: Stream, now: real, at: real, amount: real)
    requires Tracks(start, takes, s, now) && now <= at && 0.0 <= amount <= Grow(s, at).tokens
    ensures Tracks(start, takes + [Take(at, amount)], Debit(Grow(s, at), amount), at)
  {
    hide Refill;
    hide Level;
    TracksThroughGrow(start, takes, s, now, at);
    GrowIsInvisible(s, at, at);
    var g, more := Grow(s, at), takes + [Take(at, amount)];
    assert Front(more) == takes && Last(more) == Take(at, amount);
    forall t | at <= t
      ensures Level(Debit(g, amount), t) == Reference(start, more, t)
    {
      DebitLevel(s, at, amount, t);
    }
  }

  /** The total of the debits from the `i`-th on. */
  function TotalFrom(takes: seq<Take>, i: nat): real {
    if i >= |takes| then 0.0 else TotalFrom(Front(takes), i) + Last(takes).amount
  }

  lemma {:induction false} ReferenceBounds(s: Stream, takes: seq<Take>, t: real)
    ensures Reference(s, takes, t) <= s.maxTokens
    ensures takes != [] ==>
              Reference(s, takes, t) <= Reference(s, Front(takes), Last(takes).at) - Last(takes).amount
                                        + Refill(s.rate, Last(takes).at, t)
  {
    hide Refill;
  }

  /** The budget left after the debits from `i` on. */
  lemma {:induction false} WindowBudget(s: Stream, takes: seq<Take>, i: nat, t: real)
    requires i < |takes|
    ensures TotalFrom(takes, i) + Reference(s, takes, t) <= s.maxTokens + Refill(s.rate, takes[i].at, t)
    decreases |takes|
  {
    hide Reference, Covered, Refill;
    var f, x := Front(takes), Last(takes);
    ReferenceBounds(s, takes, t);
    if i == |takes| - 1 {
      ReferenceBounds(s, f, x.at);
      assert TotalFrom(f, i) == 0.0;
    } else {
      WindowBudget(s, f, i, x.at);
      Distribute(s.rate, takes[i].at, x.at, t);
    }
  }

  lemma {:induction false} PrefixCovered(s: Stream, takes: seq<Take>, j: nat)
    requires Covered(s, takes) && j <= |takes|
    ensures Covered(s, takes[..j])
    decreases |takes|
  {
    if j == |takes| {
      assert takes[..j] == takes;
    } else {
      PrefixCovered(s, Front(takes), j);
      assert Front(takes)[..j] == takes[..j];
    }
  }

  /** The rate bound of one stream: in every window of a run, whatever happened
      before it, the debits stay within one full bucket plus the refill. */
  lemma WindowBound(s: Stream, takes: seq<Take>, i: nat, j: nat)
    requires Good(s) && Covered(s, takes) && i < j <= |takes|
    ensures TotalFrom(takes[..j], i) <= s.maxTokens + Refill(s.rate, takes[i].at, takes[j - 1].at)
  {
    hide Reference, TotalFrom, Level, Covered, Good, Refill;
    var u := takes[..j];
    PrefixCovered(s, takes, j);
    WindowBudget(s, u, i, takes[j - 1].at);
    NonnegativeReference(s, u, takes[j - 1].at);
  }

  /** With a capacity of one second's refill, a window of length `w` takes at
      most (1 + w) seconds' worth. */
  lemma WindowRate(s: Stream, takes: seq<Take>, i: nat, j: nat, w: real)
    requires Good(s) && Covered(s, takes) && i < j <= |takes| && s.maxTokens == s.rate
    requires takes[j - 1].at - takes[i].at <= w
    ensures TotalFrom(takes[..j], i) <= s.rate * (1.0 + w)
  {
    hide Covered, TotalFrom, Refill;
    WindowBound(s, takes, i, j);
    SecondsWorth(s.rate, takes[i].at, takes[j - 1].at, w);
  }

  lemma SecondsWorth(r: real, a: real, b: real, w: real)
    requires r >= 0.0 && b - a <= w
    ensures r + Refill(r, a, b) <= r * (1.0 + w)
  {
    var rest := w - (b - a);
    assert r * (1.0 + w) == r + r * (b - a) + r * rest;
  }

  lemma NonnegativeReference(s: Stream, takes: seq<Take>, t: real)
    requires Good(s) && takes != [] && Covered(s, takes) && Last(takes).at <= t
    ensures Reference(s, takes, t) >= 0.0
  {
    hide Refill, Level;
    Nonnegative(s.rate, Last(takes).at, t);
  }

  // ---- The class ----

  class Bucket {
    var streams: seq<Stream>

    ghost predicate Valid()
      reads this
    {
      forall i :: 0 <= i < |streams| ==> Good(streams[i])
    }

    /** One stream per (rate, capacity) pair; negative ones make no sense. */
    constructor (specs: seq<(real, real)>, now: real, initialFull: bool)
      requires forall i :: 0 <= i < |specs| ==> specs[i].0 >= 0.0 && specs[i].1 >= 0.0
      ensures Valid() && |streams| == |specs|
      ensures forall i :: 0 <= i < |specs| ==>
                streams[i] == Stream(specs[i].0, specs[i].1, if initialFull then specs[i].1 else 0.0, now)
    {
      streams := seq(|specs|, i requires 0 <= i < |specs| =>
        Stream(specs[i].0, specs[i].1, if initialFull then specs[i].1 else 0.0, now));
    }

    method Available(idx: nat, now: real) returns (tokens: real)
      requires Valid() && idx < |streams| && streams[idx].last <= now
      modifies this
      ensures Valid() && tokens == Level(old(streams)[idx], now)
      ensures streams == old(streams)[idx := Grow(old(streams)[idx], now)]
    {
      GrowIsInvisible(streams[idx], now, now);
      streams := streams[idx := Grow(streams[idx], now)];
      tokens := streams[idx].tokens;
    }

    /** `readings[i]` is what the clock shows when stream `i` is grown. */
    method TryTake(amounts: seq<real>, readings: seq<real>) returns (r: Result<bool>)
      requires Valid() && |readings| == |streams|
      requires forall i :: 0 <= i < |streams| ==> streams[i].last <= readings[i]
      modifies this
      ensures Valid()
      ensures if |amounts| != |old(streams)| || (exists i :: 0 <= i < |amounts| && amounts[i] < 0.0)
              then r == Err && streams == old(streams)
              else r.Ok? && (streams, r.value) == AtomicDebit(old(streams), amounts, readings)
    {
      if |amounts| != |streams| {
        return Err;
      }
      for i := 0 to |amounts|
        invariant forall j :: 0 <= j < i ==> amounts[j] >= 0.0
      {
        if amounts[i] < 0.0 {
          return Err;
        }
      }
      ghost var start := streams;
      forall j | 0 <= j < |streams|
        ensures Good(AtomicDebit(start, amounts, readings).0[j])
      {
        AtomicDebitMeaning(start, amounts, readings, j, readings[j]);
      }
      for i := 0 to |streams|
        invariant |streams| == |start|
        invariant CheckFrom(start, amounts, readings, 0) == CheckFrom(streams, amounts, readings, i)
      {
        ghost var before := streams;
        streams := streams[i := Grow(streams[i], readings[i])];
        if amounts[i] > streams[i].tokens {
          assert CheckFrom(before, amounts, readings, i) == (streams, false);
          assert AtomicDebit(start, amounts, readings) == (streams, false);
          return Ok(false);
        }
      }
      ghost var grown := streams;
      for i := 0 to |streams|
        invariant |streams| == |grown|
        invariant forall j :: 0 <= j < |streams| ==>
                  streams[j] == if j < i then Debit(grown[j], amounts[j]) else grown[j]
      {
        streams := streams[i := Debit(streams[i], amounts[i])];
      }
      assert streams == AtomicDebit(start, amounts, readings).0;
      return Ok(true);
    }
  }
}
