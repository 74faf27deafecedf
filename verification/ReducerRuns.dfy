/** Theorems about every run of the reducer: any interleaving of adds, flushes
    and timer wake-ups, stale ones included. */
module ReducerRuns {
  import opened Common
  import opened Sorting
  import opened ReducerSpec

  datatype Event<I> =
    | Adding(item: I, now: real)
    | Flushing(now: real)
    | Firing(id: nat, now: real)

  function Step<I(!new)>(cfg: Config<I>, st: State<I>, e: Event<I>): (State<I>, Option<seq<I>>) {
    match e
    case Adding(item, now) => Add(cfg, st, item, now)
    case Flushing(now) => Flush(cfg, st, now)
    case Firing(id, now) => Fire(cfg, st, id, now)
  }

  /** The state after `es` and the batches closed on the way, in order. */
  function Run<I(!new)>(cfg: Config<I>, es: seq<Event<I>>): (State<I>, seq<seq<I>>) {
    if es == [] then (Initial(), [])
    else
      var (st, out) := Run(cfg, Front(es));
      var (st', closed) := Step(cfg, st, Last(es));
      (st', if closed.Some? then out + [closed.value] else out)
  }

  function Added<I>(es: seq<Event<I>>): seq<I> {
    if es == [] then []
    else Added(Front(es)) + if Last(es).Adding? then [Last(es).item] else []
  }

  // ---- The timer protocol ----

  /** Identities are never reused, and no timer is both spent and cancelled. */
  ghost predicate ScopesInv<I>(st: State<I>) {
    && (st.timer.Some? ==> st.timer.value.id < st.spawned && st.timer.value.id !in st.fired)
    && (forall i :: i in st.cancelled ==> i < st.spawned)
    && (forall i :: i in st.fired ==> i < st.spawned)
    && st.cancelled !! st.fired
  }

  /** A timer is armed exactly when something is buffered, it waits for the
      earliest deadline buffered, and it is neither cancelled nor spent. A
      timer that went off is never cancelled afterwards, so the dispatch it
      runs is not interrupted. */
  ghost predicate TimerInv<I(!new)>(cfg: Config<I>, st: State<I>) {
    && (st.timer.Some? <==> st.active != [])
    && (st.timer.Some? ==>
          && st.timer.value.target == MinDeadline(cfg, st.active)
          && st.timer.value.id !in st.cancelled)
    && ScopesInv(st)
  }

  lemma RescheduleKeepsTimer<I(!new)>(cfg: Config<I>, st: State<I>, now: real)
    requires ScopesInv(st)
    ensures TimerInv(cfg, Reschedule(cfg, st, now))
  {
  }

  lemma StepKeepsTimer<I(!new)>(cfg: Config<I>, st: State<I>, e: Event<I>)
    requires TimerInv(cfg, st)
    ensures TimerInv(cfg, Step(cfg, st, e).0)
  {
    hide MinDeadline, StableSort, PackFrom;
    match e
    case Adding(item, now) =>
      var grown := st.(active := st.active + [item]);
      RescheduleKeepsTimer(cfg, grown, now);
      PackKeepsTimer(cfg, grown, now);
    case Flushing(now) =>
      PackKeepsTimer(cfg, st, now);
    case Firing(id, now) =>
      if st.timer.Some? && st.timer.value.id == id {
        PackKeepsTimer(cfg, st.(timer := None, fired := st.fired + {id}), now);
      }
  }

  lemma PackKeepsTimer<I(!new)>(cfg: Config<I>, st: State<I>, now: real)
    requires ScopesInv(st)
    ensures TimerInv(cfg, PackAndSplit(cfg, st, now).0)
  {
    hide MinDeadline, StableSort;
    var s := StableSort(ByDeadline(cfg), st.active);
    var c := Cancel(st).(active := s[PackFrom(cfg, s, 0)..]);
    assert ScopesInv(c);
    RescheduleKeepsTimer(cfg, c, now);
  }

  lemma {:induction false} TimerProtocol<I(!new)>(cfg: Config<I>, es: seq<Event<I>>)
    ensures TimerInv(cfg, Run(cfg, es).0)
  {
    if es != [] {
      TimerProtocol(cfg, Front(es));
      StepKeepsTimer(cfg, Run(cfg, Front(es)).0, Last(es));
    }
  }

  /** In no run does a timer that was cancelled, has fired, or was replaced
      close a batch; and the batch that the armed one closes begins with the
      item the timer was set for. */
  lemma OnlyTheArmedTimerCloses<I(!new)>(cfg: Config<I>, es: seq<Event<I>>, id: nat, now: real)
    ensures var st := Run(cfg, es).0;
            var (st', closed) := Fire(cfg, st, id, now);
            && (id in st.cancelled + st.fired || id >= st.spawned ==> st' == st && closed.None?)
            && (closed.Some? ==>
                  && st.timer.Some? && st.timer.value.id == id
                  && closed.value != [] && cfg.deadline(closed.value[0]) == st.timer.value.target
                  && id in st'.fired
                  && Fire(cfg, st', id, now) == (st', None))
  {
    hide StableSort;
    TimerProtocol(cfg, es);
    var st := Run(cfg, es).0;
    var (st', closed) := Fire(cfg, st, id, now);
    if closed.Some? {
      StepKeepsTimer(cfg, st, Firing(id, now));
      FirstIsEarliest(cfg, st.active);
    }
  }

  lemma FirstIsEarliest<I(!new)>(cfg: Config<I>, items: seq<I>)
    requires items != []
    ensures cfg.deadline(StableSort(ByDeadline(cfg), items)[0]) == MinDeadline(cfg, items)
  {
    var leq, s := ByDeadline(cfg), StableSort(ByDeadline(cfg), items);
    ByKeyIsTotal(cfg.deadline);
    StableSortMeaning(leq, items);
    assert s[0] in multiset(s);
    var x :| x in items && cfg.deadline(x) == MinDeadline(cfg, items);
    assert x in multiset(items);
    var i :| 0 <= i < |s| && s[i] == x;
    assert i == 0 || leq(s[0], s[i]);
  }

  // ---- Conservation ----

  lemma StepConserves<I(!new)>(cfg: Config<I>, st: State<I>, e: Event<I>)
    requires Monotone(cfg)
    ensures var (st', closed) := Step(cfg, st, e);
            && multiset(st'.active) + (if closed.Some? then multiset(closed.value) else multiset{})
               == multiset(st.active) + (if e.Adding? then multiset{e.item} else multiset{})
            && (closed.Some? ==>
                  var b := closed.value;
                  b != [] && ((|b| <= cfg.countLimit && cfg.size(b) <= cfg.sizeLimit) || |b| == 1))
  {
    hide PackAndSplit, Reschedule, StableSort, Monotone;
    match e
    case Adding(item, now) =>
      PackPartitions(cfg, st.(active := st.active + [item]), now);
    case Flushing(now) =>
      if st.active != [] {
        PackPartitions(cfg, st, now);
      }
    case Firing(id, now) =>
      if st.active != [] {
        PackPartitions(cfg, st.(timer := None, fired := st.fired + {id}), now);
      }
  }

  lemma ConcatSnoc<T>(ss: seq<seq<T>>, s: seq<T>)
    ensures Concat(ss + [s]) == Concat(ss) + s
  {
    assert Front(ss + [s]) == ss;
  }

  /** Over every run each added item is in exactly one closed batch or still
      buffered. */
  lemma {:induction false} RunConserves<I(!new)>(cfg: Config<I>, es: seq<Event<I>>)
    requires Monotone(cfg)
    ensures var (st, out) := Run(cfg, es);
            multiset(Concat(out)) + multiset(st.active) == multiset(Added(es))
  {
    hide Step, Exceeds, Monotone, Concat;
    if es == [] {
      assert Concat<I>([]) == [] by {
        ConcatNothing<I>();
      }
    } else {
      var (st, out) := Run(cfg, Front(es));
      var (st', closed) := Step(cfg, st, Last(es));
      var batch := if closed.Some? then closed.value else [];
      var tail := if Last(es).Adding? then [Last(es).item] else [];
      RunConserves(cfg, Front(es));
      StepConserves(cfg, st, Last(es));
      if closed.Some? {
        ConcatSnoc(out, closed.value);
      } else {
        assert Concat(out) + batch == Concat(out);
      }
      assert Added(es) == Added(Front(es)) + tail;
      Regroup(Concat(out), batch, st.active, st'.active, Added(Front(es)), tail);
    }
  }

  lemma ConcatNothing<T>()
    ensures Concat<T>([]) == []
  {
  }

  /** Moving `batch` out of the buffer and `tail` into it. */
  lemma Regroup<T>(out: seq<T>, batch: seq<T>, buf: seq<T>, buf': seq<T>, added: seq<T>, tail: seq<T>)
    requires multiset(out) + multiset(buf) == multiset(added)
    requires multiset(buf') + multiset(batch) == multiset(buf) + multiset(tail)
    ensures multiset(out + batch) + multiset(buf') == multiset(added + tail)
  {
    assert multiset(out + batch) == multiset(out) + multiset(batch);
    assert multiset(added + tail) == multiset(added) + multiset(tail);
    forall x
      ensures (multiset(out) + multiset(batch) + multiset(buf'))[x] == (multiset(added) + multiset(tail))[x]
    {
      assert (multiset(buf') + multiset(batch))[x] == (multiset(buf) + multiset(tail))[x];
      assert (multiset(out) + multiset(buf))[x] == multiset(added)[x];
    }
  }

  /** Every batch closed in a run is non-empty, and within both limits unless
      it is a single item. */
  lemma {:induction false} RunRespectsLimits<I(!new)>(cfg: Config<I>, es: seq<Event<I>>)
    requires Monotone(cfg)
    ensures forall i :: 0 <= i < |Run(cfg, es).1| ==>
              var b := Run(cfg, es).1[i];
              b != [] && ((|b| <= cfg.countLimit && cfg.size(b) <= cfg.sizeLimit) || |b| == 1)
  {
    hide Step, Exceeds, Monotone;
    if es != [] {
      RunRespectsLimits(cfg, Front(es));
      StepConserves(cfg, Run(cfg, Front(es)).0, Last(es));
    }
  }

  /** What closes is due no later than what stays. */
  lemma EarliestGoFirst<I(!new)>(cfg: Config<I>, st: State<I>, e: Event<I>)
    requires Monotone(cfg)
    ensures var (st', closed) := Step(cfg, st, e);
            closed.Some? ==> forall x, y :: x in closed.value && y in st'.active ==> cfg.deadline(x) <= cfg.deadline(y)
  {
    hide PackAndSplit, Reschedule, StableSort, Monotone;
    match e
    case Adding(item, now) => PackOrders(cfg, st.(active := st.active + [item]), now);
    case Flushing(now) =>
      if st.active != [] {
        PackOrders(cfg, st, now);
      }
    case Firing(id, now) =>
      if st.active != [] {
        PackOrders(cfg, st.(timer := None, fired := st.fired + {id}), now);
      }
  }

  lemma PackOrders<I(!new)>(cfg: Config<I>, st: State<I>, now: real)
    requires st.active != [] && Monotone(cfg)
    ensures var (st', closed) := PackAndSplit(cfg, st, now);
            forall x, y :: x in closed && y in st'.active ==> cfg.deadline(x) <= cfg.deadline(y)
  {
    hide PackAndSplit, StableSort, Monotone;
    var leq := ByDeadline(cfg);
    PackPartitions(cfg, st, now);
    ByKeyIsTotal(cfg.deadline);
    StableSortSorted(leq, st.active);
    var (st', closed) := PackAndSplit(cfg, st, now);
    var s := closed + st'.active;
    forall i, j | 0 <= i < |closed| && 0 <= j < |st'.active|
      ensures cfg.deadline(closed[i]) <= cfg.deadline(st'.active[j])
    {
      assert leq(s[i], s[|closed| + j]);
    }
  }

  /** Every batch closed in a run was due: the buffer it came from was at the
      count limit or the size limit when an item was added, or the predicate held
      of it, or the caller flushed, or the armed timer went off. */
  ghost predicate Due<I(!new)>(cfg: Config<I>, st: State<I>, e: Event<I>) {
    match e
    case Adding(item, _) =>
      var grown := st.active + [item];
      cfg.flushPredicate(item, grown) || |grown| >= cfg.countLimit || cfg.size(grown) >= cfg.sizeLimit
    case Flushing(_) => st.active != []
    case Firing(id, _) => st.active != [] && st.timer.Some? && st.timer.value.id == id
  }

  lemma {:induction false} BatchesWereDue<I(!new)>(cfg: Config<I>, es: seq<Event<I>>, n: nat)
    requires n < |es|
    ensures var (st, out) := Run(cfg, es[..n]);
            var after := Run(cfg, es[..n + 1]).1;
            && (Due(cfg, st, es[n]) ==> |after| == |out| + 1 && after[..|out|] == out)
            && (!Due(cfg, st, es[n]) ==> after == out)
  {
    hide PackAndSplit, Reschedule;
    assert Front(es[..n + 1]) == es[..n] && Last(es[..n + 1]) == es[n];
    var (st, out) := Run(cfg, es[..n]);
    match es[n]
    case Adding(item, now) => ClosesIff(cfg, st, item, 0, now);
    case _ =>
  }

  // ---- Draining ----

  /** The batches of repeated flushes, until one returns nothing. */
  function FlushAll<I(!new)>(cfg: Config<I>, st: State<I>, now: real): (State<I>, seq<seq<I>>)
    decreases |st.active|
  {
    var (st', closed) := Flush(cfg, st, now);
    if closed.None? then (st', [])
    else
      var (end, out) := FlushAll(cfg, st', now);
      (end, [closed.value] + out)
  }

  /** Repeated flushing ends after at most `count` batches, and together they
      are the stable deadline sort of the buffer. */
  lemma {:induction false} FlushAllDrains<I(!new)>(cfg: Config<I>, st: State<I>, now: real)
    requires Monotone(cfg)
    ensures var (end, out) := FlushAll(cfg, st, now);
            && end.active == [] && |out| <= |st.active|
            && Concat(out) == StableSort(ByDeadline(cfg), st.active)
    decreases |st.active|
  {
    hide MinDeadline, StableSort, PackFrom, Reschedule, Exceeds, FlushAll;
    var leq := ByDeadline(cfg);
    if st.active != [] {
      var (st', closed) := Flush(cfg, st, now);
      var (end, out) := FlushAll(cfg, st', now);
      PackPartitions(cfg, st, now);
      FlushAllDrains(cfg, st', now);
      ByKeyIsTotal(cfg.deadline);
      StableSortMeaning(leq, st.active);
      assert Sorted(leq, st'.active) by {
        var s := closed.value + st'.active;
        assert forall i :: 0 <= i < |st'.active| ==> st'.active[i] == s[|closed.value| + i];
      }
      SortedIsFixed(leq, st'.active);
      ConcatAppend([closed.value], out);
      assert Concat([closed.value]) == closed.value by {
        ConcatSnoc([], closed.value);
      }
    }
    FlushAllUnfold(cfg, st, now);
  }

  lemma FlushAllUnfold<I(!new)>(cfg: Config<I>, st: State<I>, now: real)
    ensures FlushAll(cfg, st, now) ==
            (var (st', closed) := Flush(cfg, st, now);
             if closed.None? then (st', [])
             else (FlushAll(cfg, st', now).0, [closed.value] + FlushAll(cfg, st', now).1))
    ensures st.active == [] ==> StableSort(ByDeadline(cfg), st.active) == []
  {
  }

  /** One flush empties the buffer exactly when it holds at most one item or
      all of it fits both limits. */
  lemma OneFlushEmptiesIff<I(!new)>(cfg: Config<I>, st: State<I>, now: real)
    requires Monotone(cfg) && OrderFree(cfg)
    ensures Flush(cfg, st, now).0.active == [] <==> |st.active| <= 1 || !Exceeds(cfg, st.active)
  {
    hide StableSort, Flush, PackFrom;
    OneFlushEmptiesSorted(cfg, st, now);
    ByKeyIsTotal(cfg.deadline);
    StableSortMeaning(ByDeadline(cfg), st.active);
    assert cfg.size(StableSort(ByDeadline(cfg), st.active)) == cfg.size(st.active);
  }

  lemma OneFlushEmptiesSorted<I(!new)>(cfg: Config<I>, st: State<I>, now: real)
    requires Monotone(cfg)
    ensures Flush(cfg, st, now).0.active == []
       <==> |st.active| <= 1 || !Exceeds(cfg, StableSort(ByDeadline(cfg), st.active))
  {
    hide StableSort, Reschedule;
    var s := StableSort(ByDeadline(cfg), st.active);
    if st.active != [] {
      PackFromMeaning(cfg, s, 0);
      var n := PackFrom(cfg, s, 0);
      assert s[..|s|] == s;
      assert s[n..] == [] <==> n == |s|;
      if !Exceeds(cfg, s) {
        PacksAtLeast(cfg, s, |s|);
      }
    }
  }

  /** A prefix that fits is kept whole. */
  lemma PacksAtLeast<I(!new)>(cfg: Config<I>, s: seq<I>, m: nat)
    requires Monotone(cfg) && m <= |s| && (m <= 1 || !Exceeds(cfg, s[..m]))
    requires s != []
    ensures PackFrom(cfg, s, 0) >= m
  {
    PackFromMeaning(cfg, s, 0);
    var n := PackFrom(cfg, s, 0);
    if n < m {
      assert s[..m][..n] == s[..n] && s[..m][..n + 1] == s[..n + 1];
      PrefixSmaller(cfg, s[..m], n);
      PrefixSmaller(cfg, s[..m], n + 1);
    }
  }

  // ---- Arrivals in deadline order ----

  /** Below both limits, or a single item. */
  ghost predicate Small<I(!new)>(cfg: Config<I>, s: seq<I>) {
    |s| <= 1 || !LimitsHit(cfg, s)
  }

  lemma PackInOrder<I(!new)>(cfg: Config<I>, st: State<I>, now: real)
    requires Monotone(cfg) && st.active != [] && Sorted(ByDeadline(cfg), st.active)
    requires Small(cfg, Front(st.active))
    ensures var (st', closed) := PackAndSplit(cfg, st, now);
            && closed + st'.active == st.active && |st'.active| <= 1
            && (Small(cfg, st.active) ==> st'.active == [])
  {
    hide StableSort, Reschedule;
    var s := st.active;
    ByKeyIsTotal(cfg.deadline);
    SortedIsFixed(ByDeadline(cfg), s);
    PacksAtLeast(cfg, s, |s| - 1);
    assert s[..|s|] == s;
    if Small(cfg, s) {
      PacksAtLeast(cfg, s, |s|);
    }
    var n := PackFrom(cfg, s, 0);
    assert s[..n] + s[n..] == s;
  }

  lemma SmallFront<I(!new)>(cfg: Config<I>, s: seq<I>)
    requires Monotone(cfg) && s != [] && Small(cfg, s)
    ensures Small(cfg, Front(s))
  {
    PrefixSmaller(cfg, s, |s| - 1);
  }

  lemma {:induction false} StepInOrder<I(!new)>(cfg: Config<I>, st: State<I>, e: Event<I>)
    requires Monotone(cfg) && Small(cfg, st.active)
    requires Sorted(ByDeadline(cfg), st.active + if e.Adding? then [e.item] else [])
    ensures var (st', closed) := Step(cfg, st, e);
            && Small(cfg, st'.active)
            && (if closed.Some? then closed.value else []) + st'.active
               == st.active + (if e.Adding? then [e.item] else [])
            && (!e.Adding? && closed.Some? ==> st'.active == [])
  {
    hide StableSort, PackFrom, MinDeadline, Monotone;
    match e
    case Adding(item, now) =>
      var grown := st.(active := st.active + [item]);
      assert Front(grown.active) == st.active;
      PackInOrder(cfg, grown, now);
    case Flushing(now) =>
      assert st.active + [] == st.active;
      if st.active != [] {
        SmallFront(cfg, st.active);
        PackInOrder(cfg, st, now);
      }
    case Firing(id, now) =>
      assert st.active + [] == st.active;
      if st.active != [] {
        SmallFront(cfg, st.active);
        PackInOrder(cfg, st.(timer := None, fired := st.fired + {id}), now);
      }
  }

  /** If items arrive with non-decreasing deadlines the reducer is a FIFO: the
      closed batches followed by the buffer are the arrivals in order, the
      buffer is below both limits or a single item, and so one flush empties
      it. */
  lemma {:induction false} InOrderRuns<I(!new)>(cfg: Config<I>, es: seq<Event<I>>, now: real)
    requires Monotone(cfg) && Sorted(ByDeadline(cfg), Added(es))
    ensures var (st, out) := Run(cfg, es);
            && Concat(out) + st.active == Added(es)
            && Small(cfg, st.active)
            && Flush(cfg, st, now).0.active == []
  {
    hide Step, Small, Flush;
    if es == [] {
      InitialSmall(cfg, now);
    } else {
      var (st, out) := Run(cfg, Front(es));
      var (st', closed) := Step(cfg, st, Last(es));
      var tail := if Last(es).Adding? then [Last(es).item] else [];
      assert Sorted(ByDeadline(cfg), Added(Front(es))) by {
        assert Added(Front(es)) == Added(es)[..|Added(Front(es))|];
      }
      InOrderRuns(cfg, Front(es), now);
      Assoc(Concat(out), st.active, tail);
      SortedSuffix(ByDeadline(cfg), Concat(out), st.active + tail);
      StepInOrder(cfg, st, Last(es));
      if closed.Some? {
        ConcatSnoc(out, closed.value);
        Assoc(Concat(out), closed.value, st'.active);
      }
      SortedSuffix(ByDeadline(cfg), if closed.Some? then closed.value else [], st'.active);
      FlushSmall(cfg, st', now);
    }
  }

  lemma SortedSuffix<T>(leq: (T, T) -> bool, a: seq<T>, b: seq<T>)
    requires Sorted(leq, a + b)
    ensures Sorted(leq, b)
  {
    assert forall i :: 0 <= i < |b| ==> b[i] == (a + b)[|a| + i];
  }

  lemma InitialSmall<I(!new)>(cfg: Config<I>, now: real)
    ensures Small(cfg, []) && Flush(cfg, Initial(), now).0.active == []
  {
  }

  lemma FlushSmall<I(!new)>(cfg: Config<I>, st: State<I>, now: real)
    requires Monotone(cfg) && Small(cfg, st.active) && Sorted(ByDeadline(cfg), st.active)
    ensures Flush(cfg, st, now).0.active == []
  {
    if st.active != [] {
      SmallFront(cfg, st.active);
      PackInOrder(cfg, st, now);
    }
  }
}
