/** The `Reducer` class of aiokpl/reducer.py: each method is proved to be the
    step of the same name in `ReducerSpec`. */
module ReducerCode {
  import opened Common
  import opened Sorting
  import opened ReducerSpec
  import Spec = ReducerSpec

  class Reducer<I(!new)> {
    const cfg: Config<I>
    var active: seq<I>
    var timer: Option<Timer>
    var spawned: nat
    var cancelled: set<nat>
    var fired: set<nat>

    ghost function View(): State<I>
      reads this
    {
      State(active, timer, spawned, cancelled, fired)
    }

    constructor (cfg: Config<I>)
      ensures this.cfg == cfg && View() == Initial()
    {
      this.cfg := cfg;
      active, timer, spawned, cancelled, fired := [], None, 0, {}, {};
    }

    method CancelTimer()
      modifies this
      ensures View() == Spec.Cancel(old(View()))
    {
      if timer.Some? {
        cancelled := cancelled + {timer.value.id};
        timer := None;
      }
    }

    /** The earliest deadline of the items; `None` stands for infinity. */
    method EarliestDeadline() returns (d: Option<real>)
      ensures d == if active == [] then None else Some(MinDeadline(cfg, active))
    {
      if active == [] {
        return None;
      }
      var least := cfg.deadline(active[0]);
      assert active[..1] == [active[0]];
      for i := 1 to |active|
        invariant least == MinDeadline(cfg, active[..i])
      {
        assert Front(active[..i + 1]) == active[..i];
        if cfg.deadline(active[i]) < least {
          least := cfg.deadline(active[i]);
        }
      }
      assert active[..|active|] == active;
      d := Some(least);
    }

    method RescheduleTimer(now: real)
      modifies this
      ensures View() == Spec.Reschedule(cfg, old(View()), now)
    {
      CancelTimer();
      if active != [] {
        var d := EarliestDeadline();
        timer := Some(Timer(spawned, now, d.value));
        spawned := spawned + 1;
      }
    }

    /** The packing loop: adds until a limit is exceeded, and undoes that add
        unless it is the only one. */
    method Pack(candidates: seq<I>) returns (closed: seq<I>, remaining: seq<I>)
      ensures var n := PackFrom(cfg, candidates, 0); closed == candidates[..n] && remaining == candidates[n..]
    {
      remaining, closed := [], [];
      for idx := 0 to |candidates|
        invariant closed == candidates[..idx] && remaining == []
        invariant PackFrom(cfg, candidates, idx) == PackFrom(cfg, candidates, 0)
      {
        closed := closed + [candidates[idx]];
        assert closed == candidates[..idx + 1];
        if |closed| > cfg.countLimit || cfg.size(closed) > cfg.sizeLimit {
          if |closed| == 1 {
            remaining := remaining + candidates[idx + 1..];
          } else {
            closed := closed[..|closed| - 1];
            remaining := remaining + candidates[idx..];
          }
          return;
        }
      }
    }

    /** Sorts, packs greedily with one undo, and re-injects the rest. */
    method PackAndSplit(now: real) returns (closed: seq<I>)
      modifies this
      ensures (View(), closed) == Spec.PackAndSplit(cfg, old(View()), now)
    {
      hide StableSort, PackFrom, MinDeadline;
      CancelTimer();
      var candidates, remaining := StableSort(ByDeadline(cfg), active), [];
      closed, remaining := Pack(candidates);
      active := [];
      for i := 0 to |remaining|
        invariant active == remaining[..i]
        invariant View().(active := []) == Spec.Cancel(old(View())).(active := [])
      {
        active := active + [remaining[i]];
      }
      assert active == remaining;
      if active != [] {
        RescheduleTimer(now);
      }
    }

    method Add(item: I, now: real) returns (closed: Option<seq<I>>)
      modifies this
      ensures (View(), closed) == Spec.Add(cfg, old(View()), item, now)
    {
      active := active + [item];
      var predicateHit := cfg.flushPredicate(item, active);
      var limitsHit := |active| >= cfg.countLimit || cfg.size(active) >= cfg.sizeLimit;
      if predicateHit || limitsHit {
        var batch := PackAndSplit(now);
        return Some(batch);
      }
      RescheduleTimer(now);
      return None;
    }

    method Flush(now: real) returns (closed: Option<seq<I>>)
      modifies this
      ensures (View(), closed) == Spec.Flush(cfg, old(View()), now)
    {
      if active == [] {
        CancelTimer();
        return None;
      }
      var batch := PackAndSplit(now);
      return Some(batch);
    }

    method Fire(id: nat, now: real) returns (closed: Option<seq<I>>)
      modifies this
      ensures (View(), closed) == Spec.Fire(cfg, old(View()), id, now)
    {
      if timer.None? || timer.value.id != id {
        return None;
      }
      timer := None;
      fired := fired + {id};
      if active == [] {
        return None;
      }
      var batch := PackAndSplit(now);
      return Some(batch);
    }
  }
}
