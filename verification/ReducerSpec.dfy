/** The deadline-driven batcher of aiokpl/reducer.py.

    A batch is the sequence of its items together with a size function; the
    containers in `Batches` show that this is all a batch holds. Timers are
    identified tokens, and each lock body is one atomic step whose clock
    reading is a parameter. */
module ReducerSpec {
  import opened Common
  import opened Sorting

  datatype Config<!I(!new)> = Config(
    deadline: I -> real,
    size: seq<I> -> int,
    countLimit: int,
    sizeLimit: int,
    flushPredicate: (I, seq<I>) -> bool)

  /** A sleeping timer task: it wakes at the later of `armedAt` and `target`. */
  datatype Timer = Timer(id: nat, armedAt: real, target: real)

  datatype State<I> = State(
    active: seq<I>,
    timer: Option<Timer>,
    spawned: nat,         // timers started so far; the next identity
    cancelled: set<nat>,  // timers whose scope was cancelled
    fired: set<nat>)      // timers that passed the stale check

  function Initial<I>(): State<I> {
    State([], None, 0, {}, {})
  }

  function ByDeadline<I(!new)>(cfg: Config<I>): (I, I) -> bool {
    ByKey(cfg.deadline)
  }

  predicate Exceeds<I(!new)>(cfg: Config<I>, s: seq<I>) {
    |s| > cfg.countLimit || cfg.size(s) > cfg.sizeLimit
  }

  predicate LimitsHit<I(!new)>(cfg: Config<I>, s: seq<I>) {
    |s| >= cfg.countLimit || cfg.size(s) >= cfg.sizeLimit
  }

  function MinDeadline<I(!new)>(cfg: Config<I>, s: seq<I>): (d: real)
    requires s != []
    ensures forall x :: x in s ==> d <= cfg.deadline(x)
    ensures exists x :: x in s && d == cfg.deadline(x)
  {
    assert s == Front(s) + [Last(s)];
    if |s| == 1 then cfg.deadline(s[0])
    else MinReal(MinDeadline(cfg, Front(s)), cfg.deadline(Last(s)))
  }

  // ---- Specification ----

  /** How many of the sorted candidates the greedy loop keeps, of which the
      first `k` already fit. */
  function PackFrom<I(!new)>(cfg: Config<I>, s: seq<I>, k: nat): (n: nat)
    requires k <= |s|
    ensures k <= n <= |s| && (s != [] ==> n >= 1)
    decreases |s| - k
  {
    if k == |s| then k
    else if Exceeds(cfg, s[..k + 1]) then (if k == 0 then 1 else k)
    else PackFrom(cfg, s, k + 1)
  }

  function Cancel<I>(st: State<I>): State<I> {
    match st.timer
    case None => st
    case Some(t) => st.(timer := None, cancelled := st.cancelled + {t.id})
  }

  function Reschedule<I(!new)>(cfg: Config<I>, st: State<I>, now: real): (r: State<I>)
    ensures r.active == st.active
  {
    var c := Cancel(st);
    if c.active == [] then c
    else c.(timer := Some(Timer(c.spawned, now, MinDeadline(cfg, c.active))), spawned := c.spawned + 1)
  }

  function PackAndSplit<I(!new)>(cfg: Config<I>, st: State<I>, now: real): (State<I>, seq<I>) {
    var s := StableSort(ByDeadline(cfg), st.active);
    var n := PackFrom(cfg, s, 0);
    var c := Cancel(st).(active := s[n..]);
    (if s[n..] == [] then c else Reschedule(cfg, c, now), s[..n])
  }

  function Add<I(!new)>(cfg: Config<I>, st: State<I>, item: I, now: real): (State<I>, Option<seq<I>>) {
    var grown := st.(active := st.active + [item]);
    if cfg.flushPredicate(item, grown.active) || LimitsHit(cfg, grown.active) then
      var (st', closed) := PackAndSplit(cfg, grown, now);
      (st', Some(closed))
    else (Reschedule(cfg, grown, now), None)
  }

  function Flush<I(!new)>(cfg: Config<I>, st: State<I>, now: real): (State<I>, Option<seq<I>>) {
    if st.active == [] then (Cancel(st), None)
    else
      var (st', closed) := PackAndSplit(cfg, st, now);
      (st', Some(closed))
  }

  /** Timer task `id` wakes up; it is stale unless it is the armed one. */
  function Fire<I(!new)>(cfg: Config<I>, st: State<I>, id: nat, now: real): (State<I>, Option<seq<I>>) {
    if st.timer.None? || st.timer.value.id != id then (st, None)
    else
      var mine := st.(timer := None, fired := st.fired + {id});
      if mine.active == [] then (mine, None)
      else
        var (st', closed) := PackAndSplit(cfg, mine, now);
        (st', Some(closed))
  }

  // ---- When a batch closes ----

  /** An add closes a batch exactly if the predicate holds of the grown buffer, or
      its count or its size has reached a limit; a flush exactly if anything is
      buffered; a timer exactly if it is the armed one and anything is buffered. */
  lemma ClosesIff<I(!new)>(cfg: Config<I>, st: State<I>, item: I, id: nat, now: real)
    ensures var grown := st.active + [item];
            Add(cfg, st, item, now).1.Some? <==>
              cfg.flushPredicate(item, grown) || |grown| >= cfg.countLimit || cfg.size(grown) >= cfg.sizeLimit
    ensures Flush(cfg, st, now).1.Some? <==> st.active != []
    ensures Fire(cfg, st, id, now).1.Some? <==> st.timer.Some? && st.timer.value.id == id && st.active != []
    ensures Add(cfg, st, item, now).1.None? ==> Add(cfg, st, item, now).0.active == st.active + [item]
  {
    hide PackAndSplit, Reschedule;
  }

  // ---- What packing does ----

  lemma {:induction false} PackFromMeaning<I(!new)>(cfg: Config<I>, s: seq<I>, k: nat)
    requires k <= |s|
    requires forall j :: 0 < j <= k ==> !Exceeds(cfg, s[..j])
    ensures var n := PackFrom(cfg, s, k);
            && (forall j :: 0 < j < n ==> !Exceeds(cfg, s[..j]))
            && (n > 1 ==> !Exceeds(cfg, s[..n]))
            && (n < |s| ==> Exceeds(cfg, s[..n]) || Exceeds(cfg, s[..n + 1]))
    decreases |s| - k
  {
    if k < |s| && !Exceeds(cfg, s[..k + 1]) {
      PackFromMeaning(cfg, s, k + 1);
    }
  }

  /** Adding an item never shrinks a batch. */
  ghost predicate Monotone<I(!new)>(cfg: Config<I>) {
    forall s: seq<I>, x: I :: cfg.size(s) <= cfg.size(s + [x])
  }

  /** The size of a batch does not depend on the order of its items. */
  ghost predicate OrderFree<I(!new)>(cfg: Config<I>) {
    forall s: seq<I>, t: seq<I> :: multiset(s) == multiset(t) ==> cfg.size(s) == cfg.size(t)
  }

  lemma {:induction false} PrefixSmaller<I(!new)>(cfg: Config<I>, s: seq<I>, j: nat)
    requires Monotone(cfg) && j <= |s|
    ensures cfg.size(s[..j]) <= cfg.size(s)
    decreases |s| - j
  {
    if j == |s| {
      assert s[..j] == s;
    } else {
      PrefixSmaller(cfg, s, j + 1);
      assert s[..j + 1] == s[..j] + [s[j]];
    }
  }

  /** The closed batch and the rest are the stable deadline sort cut in two.
      The closed part is non-empty, within both limits unless it is one item,
      and no longer part of the order would do. */
  lemma PackPartitions<I(!new)>(cfg: Config<I>, st: State<I>, now: real)
    requires st.active != [] && Monotone(cfg)
    ensures var (st', closed) := PackAndSplit(cfg, st, now);
            && closed + st'.active == StableSort(ByDeadline(cfg), st.active)
            && multiset(closed) + multiset(st'.active) == multiset(st.active)
            && closed != []
            && ((|closed| <= cfg.countLimit && cfg.size(closed) <= cfg.sizeLimit) || |closed| == 1)
            && (forall n :: |closed| < n <= |st.active| ==>
                  n > cfg.countLimit || cfg.size(StableSort(ByDeadline(cfg), st.active)[..n]) > cfg.sizeLimit)
  {
    hide StableSort, PackFrom, Monotone, Reschedule;
    var s := StableSort(ByDeadline(cfg), st.active);
    var n := PackFrom(cfg, s, 0);
    StableSortPermutes(ByDeadline(cfg), st.active);
    NothingFits(cfg, s);
    assert s == s[..n] + s[n..];
    assert multiset(s) == multiset(s[..n]) + multiset(s[n..]);
  }

  lemma NothingFits<I(!new)>(cfg: Config<I>, s: seq<I>)
    requires s != [] && Monotone(cfg)
    ensures var n := PackFrom(cfg, s, 0);
            && (!Exceeds(cfg, s[..n]) || n == 1)
            && (forall m :: n < m <= |s| ==> Exceeds(cfg, s[..m]))
  {
    hide PackFrom, Monotone;
    PackFromMeaning(cfg, s, 0);
    var n := PackFrom(cfg, s, 0);
    forall m | n < m <= |s|
      ensures Exceeds(cfg, s[..m])
    {
      assert s[..m][..n] == s[..n] && s[..m][..n + 1] == s[..n + 1];
      PrefixSmaller(cfg, s[..m], n);
      PrefixSmaller(cfg, s[..m], n + 1);
    }
  }
}
