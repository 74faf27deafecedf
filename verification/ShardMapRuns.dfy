/** Theorems about every run of the shard map. */
module ShardMapRuns {
  import opened Common
  import opened Hashing
  import opened ShardMap

  // ---- The invariant ----

  function OpenIds(st: State): set<int> {
    MapOf(st.fetched).Keys
  }

  /** The lookup tables are those of the last list fetched. */
  ghost predicate TablesInv(st: State) {
    && st.snapshot.endings == SnapshotOf(st.fetched).endings
    && st.snapshot.ids == SnapshotOf(st.fetched).ids
  }

  /** Every open shard answers with its listed range; every known shard is open
      or has a closing time, never both; a closed shard stays known until its
      time is up. */
  ghost predicate ClosedInv(cfg: Config, st: State) {
    && (forall id :: id in OpenIds(st) ==> id in st.snapshot.shards && st.snapshot.shards[id] == MapOf(st.fetched)[id])
    && (forall id :: id in st.snapshot.shards ==> id in OpenIds(st) || id in st.closedAt)
    && (forall id :: id in st.closedAt ==> id !in OpenIds(st))
    && (forall id :: id in st.closedAt && st.now < st.closedAt[id] + cfg.closedTtl ==> id in st.snapshot.shards)
  }

  /** At most one refresh loop runs, and one does exactly while updating. */
  ghost predicate LoopInv(st: State) {
    && st.loops <= 1 && (st.status == Updating <==> st.loops == 1)
    && (st.updatedAt.Some? ==> st.updatedAt.value <= st.now)
  }

  ghost predicate Inv(cfg: Config, st: State) {
    TablesInv(st) && ClosedInv(cfg, st) && LoopInv(st)
  }

  /** No listed shard is one that was forgotten while its closing time was kept.
      Kinesis never reuses a shard id, which implies it. */
  ghost predicate NoneReturns(st: State, list: seq<Shard>) {
    forall id :: id in MapOf(list) && id in st.closedAt ==> id in st.snapshot.shards
  }

  /** Installing keeps open and closed apart exactly when no forgotten shard
      returns. */
  lemma InstallKeepsApartIff(cfg: Config, st: State, list: seq<Shard>, now: real)
    ensures var st' := Install(cfg, st, list, now);
            (forall id :: id in st'.closedAt ==> id !in OpenIds(st')) <==> NoneReturns(st, list)
  {
    hide MapOf, SnapshotOf, ClosingTime;
    var st' := Install(cfg, st, list, now);
    if !NoneReturns(st, list) {
      var id :| id in MapOf(list) && id in st.closedAt && id !in st.snapshot.shards;
      assert id in st'.closedAt && id in OpenIds(st');
    }
  }

  /** The map answers for every open shard with its listed range. */
  ghost predicate OpenAnswered(st: State) {
    forall id :: id in OpenIds(st) ==>
      var s := MapOf(st.fetched)[id]; HashRange(st, id) == Some((s.start as int, s.end as int))
  }

  /** After an install and any later clean-up every open shard answers with its
      range if and only if no forgotten shard returned in the list. */
  lemma OpenAnsweredIff(cfg: Config, st: State, list: seq<Shard>, now: real, later: real)
    requires Inv(cfg, st) && st.loops == 1 && st.now <= now <= later
    ensures OpenAnswered(Cleanup(cfg, Install(cfg, st, list, now), later)) <==> NoneReturns(st, list)
  {
    hide MapOf, SnapshotOf;
    InstallKeepsApartIff(cfg, st, list, now);
    var mid := Install(cfg, st, list, now);
    var st' := Cleanup(cfg, mid, later);
    assert OpenIds(st') == OpenIds(mid) == MapOf(list).Keys;
    if !NoneReturns(st, list) {
      var id :| id in MapOf(list) && id in st.closedAt && id !in st.snapshot.shards;
      assert mid.closedAt[id] == st.closedAt[id];
      assert st.closedAt[id] + cfg.closedTtl <= st.now;
      assert id !in st'.snapshot.shards && id in OpenIds(st');
      assert HashRange(st', id) == None;
    }
  }

  lemma InstallKeeps(cfg: Config, st: State, list: seq<Shard>, now: real)
    requires Inv(cfg, st) && st.loops == 1 && st.now <= now && NoneReturns(st, list)
    ensures Inv(cfg, Install(cfg, st, list, now))
  {
    hide MapOf, SnapshotOf;
    InstallKeepsApartIff(cfg, st, list, now);
  }

  lemma StepKeeps(cfg: Config, st: State, e: Event)
    requires Inv(cfg, st) && (e.Installing? ==> NoneReturns(st, e.list))
    ensures Inv(cfg, Step(cfg, st, e))
  {
    hide MapOf, SnapshotOf, Install;
    if e.Installing? && st.loops == 1 && st.now <= e.at {
      InstallKeeps(cfg, st, e.list, e.at);
    }
  }

  lemma InitialInv(cfg: Config, now: real)
    ensures Inv(cfg, Initial(cfg, now))
  {
    assert SnapshotOf([]).endings == [] && SnapshotOf([]).ids == [];
  }

  /** In this run no forgotten shard ever returns. */
  ghost predicate Orderly(cfg: Config, st: State, es: seq<Event>) {
    es == [] ||
    (&& Orderly(cfg, st, Front(es))
     && (Last(es).Installing? ==> NoneReturns(Run(cfg, st, Front(es)), Last(es).list)))
  }

  lemma {:induction false} RunKeeps(cfg: Config, now: real, es: seq<Event>)
    requires Orderly(cfg, Initial(cfg, now), es)
    ensures Inv(cfg, Run(cfg, Initial(cfg, now), es))
  {
    hide Inv, Step, NoneReturns;
    if es == [] {
      InitialInv(cfg, now);
    } else {
      RunKeeps(cfg, now, Front(es));
      StepKeeps(cfg, Run(cfg, Initial(cfg, now), Front(es)), Last(es));
    }
  }

  // ---- Prediction ----

  lemma {:induction false} MapOfDistinct(list: seq<Shard>, o: nat)
    requires o < |list| && forall i, j :: 0 <= i < j < |list| ==> list[i].id != list[j].id
    ensures MapOf(list)[list[o].id] == list[o]
  {
    if o < |list| - 1 {
      MapOfDistinct(Front(list), o);
      assert Front(list)[o] == list[o];
    }
  }

  /** In every ready state of every run, if the list last fetched tiles the hash
      space, the prediction is the shard a linear search over the listed ranges
      finds, and the range the map gives for it contains the key. */
  lemma PredictionIsOwner(cfg: Config, now: real, es: seq<Event>, h: nat)
    requires Orderly(cfg, Initial(cfg, now), es) && h <= UINT128_MAX
    requires var st := Run(cfg, Initial(cfg, now), es); st.status == Ready && Tiles(st.fetched)
    ensures var st := Run(cfg, Initial(cfg, now), es);
            && Predict(st, h).Some?
            && Predict(st, h) == LinearOwner(st.fetched, h)
            && (var r := HashRange(st, Predict(st, h).value); r.Some? && r.value.0 <= h <= r.value.1)
  {
    hide Run, MapOf, SnapshotOf, BisectLeft, LinearOwner;
    var st := Run(cfg, Initial(cfg, now), es);
    RunKeeps(cfg, now, es);
    var o := BisectFindsOwner(st.fetched, h);
    MapOfDistinct(st.fetched, o);
    LinearFindsOwner(st.fetched, h, o);
    assert st.fetched[o].id in OpenIds(st);
  }

  // ---- Closed shards ----

  /** `id` was open with range `s`; installs since then happened from `since`
      on. It is still open, or it is closed since then and known while its time
      runs, or that time is over. */
  ghost predicate Retained(cfg: Config, st: State, id: int, s: Shard, since: real) {
    && (id in st.snapshot.shards ==> st.snapshot.shards[id] == s)
    && (id in st.closedAt ==> since <= st.closedAt[id])
    && (id in st.snapshot.shards || since + cfg.closedTtl <= st.now)
  }

  lemma StepRetains(cfg: Config, st: State, e: Event, id: int, s: Shard, since: real)
    requires Retained(cfg, st, id, s, since)
    requires e.Installing? ==> id !in MapOf(e.list) && since <= e.at
    ensures Retained(cfg, Step(cfg, st, e), id, s, since)
  {
    hide MapOf, SnapshotOf;
  }

  /** A shard that is open at some point of any run, and in no list fetched from
      then on, stays answerable with its last range until `closed_shard_ttl`
      after the first such list was installed. */
  lemma {:induction false} ClosedShardStaysAnswerable(cfg: Config, st: State, es: seq<Event>, id: int, since: real)
    requires Inv(cfg, st) && id in OpenIds(st)
    requires forall i :: 0 <= i < |es| && es[i].Installing? ==> id !in MapOf(es[i].list) && since <= es[i].at
    ensures var st' := Run(cfg, st, es);
            && Retained(cfg, st', id, st.snapshot.shards[id], since)
            && (st'.now < since + cfg.closedTtl ==>
                  HashRange(st', id) == Some((st.snapshot.shards[id].start, st.snapshot.shards[id].end)))
  {
    hide MapOf, Step, SnapshotOf;
    if es != [] {
      assert forall i :: 0 <= i < |Front(es)| ==> Front(es)[i] == es[i];
      ClosedShardStaysAnswerable(cfg, st, Front(es), id, since);
      assert Last(es) == es[|es| - 1];
      StepRetains(cfg, Run(cfg, st, Front(es)), Last(es), id, st.snapshot.shards[id], since);
    }
  }

  /** `id` is closed since `since`, or no longer known. */
  ghost predicate Closed(st: State, id: int, since: real) {
    if id in st.closedAt then st.closedAt[id] == since else id !in st.snapshot.shards
  }

  lemma StepStaysClosed(cfg: Config, st: State, e: Event, id: int, since: real)
    requires Closed(st, id, since) && (e.Installing? ==> id !in MapOf(e.list))
    ensures Closed(Step(cfg, st, e), id, since)
  {
    hide MapOf, SnapshotOf;
  }

  /** A closed shard that no later list holds keeps its closing time over every
      run, and the first clean-up of a ready map past its TTL forgets it. */
  lemma {:induction false} ClosedShardIsForgotten(cfg: Config, st: State, es: seq<Event>, id: int, at: real)
    requires id in st.closedAt
    requires forall i :: 0 <= i < |es| && es[i].Installing? ==> id !in MapOf(es[i].list)
    ensures var mid := Run(cfg, st, es);
            && Closed(mid, id, st.closedAt[id])
            && (mid.status == Ready && mid.now <= at && st.closedAt[id] + cfg.closedTtl <= at ==>
                  HashRange(Step(cfg, mid, Cleaning(at)), id) == None)
  {
    hide MapOf, SnapshotOf;
    if es != [] {
      assert forall i :: 0 <= i < |Front(es)| ==> Front(es)[i] == es[i];
      ClosedShardIsForgotten(cfg, st, Front(es), id, at);
      assert Last(es) == es[|es| - 1];
      StepStaysClosed(cfg, Run(cfg, st, Front(es)), Last(es), id, st.closedAt[id]);
    }
  }

  /** A refresh that succeeds at once. */
  function Refresh(cfg: Config, st: State, list: seq<Shard>, at: real): State {
    Step(cfg, Step(cfg, st, Starting), Installing(list, at))
  }

  const EXAMPLE := Config(1.0, 30.0, 60.0)
  const S0 := Shard(0, 0, UINT128_MAX)
  const S1 := Shard(1, 0, UINT128_MAX)

  /** Shard 0 gives way to shard 1, and a minute later is forgotten. */
  function Forgotten(): State {
    Refresh(EXAMPLE, Refresh(EXAMPLE, Refresh(EXAMPLE, Initial(EXAMPLE, 0.0), [S0], 0.0), [S1], 0.0), [S1], 60.0)
  }

  ghost predicate Holds(st: State, shards: map<int, Shard>, closedAt: map<int, real>, now: real) {
    st.status == Ready && st.loops == 0 && st.snapshot.shards == shards && st.closedAt == closedAt && st.now == now
  }

  lemma SwapShards(st: State, before: Shard, after: Shard)
    requires Holds(st, map[before.id := before], map[], st.now) && before.id != after.id
    ensures Holds(Refresh(EXAMPLE, st, [after], st.now), map[before.id := before, after.id := after],
                  map[before.id := st.now], st.now)
  {
    hide SnapshotOf, MapOf;
    SingletonMap(after);
    var st' := Refresh(EXAMPLE, st, [after], st.now);
    assert st'.snapshot.shards == map[before.id := before, after.id := after];
    assert st'.closedAt == map[before.id := st.now];
  }

  lemma ForgetShard(st: State, gone: Shard, open: Shard)
    requires Holds(st, map[gone.id := gone, open.id := open], map[gone.id := st.now], st.now) && gone.id != open.id
    ensures Holds(Refresh(EXAMPLE, st, [open], st.now + 60.0), map[open.id := open], map[gone.id := st.now],
                  st.now + 60.0)
  {
    hide SnapshotOf, MapOf;
    SingletonMap(open);
    var st' := Refresh(EXAMPLE, st, [open], st.now + 60.0);
    assert st'.snapshot.shards == map[open.id := open];
    assert st'.closedAt == map[gone.id := st.now];
  }

  lemma ForgottenHolds()
    ensures Holds(Forgotten(), map[1 := S1], map[0 := 0.0], 60.0)
  {
    hide SnapshotOf, MapOf;
    var a := Refresh(EXAMPLE, Initial(EXAMPLE, 0.0), [S0], 0.0);
    SingletonMap(S0);
    assert a.snapshot.shards == map[0 := S0] && a.closedAt == map[];
    hide Refresh;
    SwapShards(a, S0, S1);
    ForgetShard(Refresh(EXAMPLE, a, [S1], 0.0), S0, S1);
  }

  /** If a shard id did return after it was forgotten, clean-up would drop the
      open shard: predictions still name it, but its range is gone. */
  lemma ReturningShardIsDropped()
    ensures var back := Refresh(EXAMPLE, Forgotten(), [S0], 60.0);
            var st := Step(EXAMPLE, back, Cleaning(60.0));
            && !NoneReturns(Forgotten(), [S0])
            && HashRange(back, 0) == Some((0, UINT128_MAX as int))
            && st.status == Ready && OpenIds(st) == {0} && HashRange(st, 0) == None
  {
    hide SnapshotOf, MapOf, Forgotten;
    SingletonMap(S0);
    ForgottenHolds();
    var back := Refresh(EXAMPLE, Forgotten(), [S0], 60.0);
    assert back.snapshot.shards[0] == S0 && back.closedAt[0] == 0.0;
  }

  lemma SingletonMap(s: Shard)
    ensures MapOf([s]) == map[s.id := s]
  {
    assert Front([s]) == [];
  }

  // ---- Refreshing ----

  lemma StepGoesOn(cfg: Config, st: State, e: Event)
    requires LoopInv(st)
    ensures var st' := Step(cfg, st, e);
            && LoopInv(st') && st.now <= st'.now
            && (st.updatedAt.Some? ==> st'.updatedAt.Some? && st.updatedAt.value <= st'.updatedAt.value)
  {
    hide SnapshotOf;
  }

  /** Over every run, whatever the service lists: at most one refresh loop runs,
      and neither the clock nor the time of the last install goes back. */
  lemma {:induction false} UpdatedAtNeverDecreases(cfg: Config, st: State, es: seq<Event>)
    requires LoopInv(st)
    ensures var st' := Run(cfg, st, es);
            && LoopInv(st') && st.now <= st'.now
            && (st.updatedAt.Some? ==> st'.updatedAt.Some? && st.updatedAt.value <= st'.updatedAt.value)
  {
    hide Step, LoopInv;
    if es != [] {
      UpdatedAtNeverDecreases(cfg, st, Front(es));
      StepGoesOn(cfg, Run(cfg, st, Front(es)), Last(es));
    }
  }

  /** `x` doubled `k` times: x * 2^k. */
  function Doubled(x: real, k: nat): real {
    if k == 0 then x else 2.0 * Doubled(x, k - 1)
  }

  /** How many fetches failed since the map last began to update. */
  function Failures(cfg: Config, st: State, es: seq<Event>): nat {
    if es == [] then 0
    else
      var before := Run(cfg, st, Front(es));
      if before.status != Updating then 0
      else Failures(cfg, st, Front(es)) + if Last(es).Failing? then 1 else 0
  }

  lemma BackoffStep(cfg: Config, st: State, e: Event, k: nat)
    requires 0.0 <= cfg.minBackoff <= cfg.maxBackoff && LoopInv(st) && Step(cfg, st, e).status == Updating
    requires st.status == Updating ==> st.backoff == MinReal(cfg.maxBackoff, Doubled(cfg.minBackoff, k))
    ensures var n := if st.status != Updating then 0 else k + if e.Failing? then 1 else 0;
            Step(cfg, st, e).backoff == MinReal(cfg.maxBackoff, Doubled(cfg.minBackoff, n))
  {
    hide SnapshotOf, ClosingTime;
    assert Doubled(cfg.minBackoff, 0) == cfg.minBackoff &&
        Doubled(cfg.minBackoff, k + 1) == 2.0 * Doubled(cfg.minBackoff, k);
  }

  /** In every run, whatever starts, invalidations and clean-ups come in between:
      while a refresh is going on, its next failure, the k-th since it began
      counting from 0, sleeps min(max_backoff, min_backoff * 2^k), provided the
      bounds are in order. */
  lemma {:induction false} BackoffDoubles(cfg: Config, now: real, es: seq<Event>)
    requires 0.0 <= cfg.minBackoff <= cfg.maxBackoff
    ensures var st := Run(cfg, Initial(cfg, now), es);
            st.status == Updating ==>
              FetchFailed(cfg, st).1 == MinReal(cfg.maxBackoff,
                                                Doubled(cfg.minBackoff, Failures(cfg, Initial(cfg, now), es)))
  {
    hide Step, Doubled, LoopInv;
    if es != [] {
      var before := Run(cfg, Initial(cfg, now), Front(es));
      BackoffDoubles(cfg, now, Front(es));
      InitialLoop(cfg, now);
      UpdatedAtNeverDecreases(cfg, Initial(cfg, now), Front(es));
      if Step(cfg, before, Last(es)).status == Updating {
        BackoffStep(cfg, before, Last(es), Failures(cfg, Initial(cfg, now), Front(es)));
      }
    }
  }

  lemma InitialLoop(cfg: Config, now: real)
    ensures LoopInv(Initial(cfg, now))
  {
  }

  /** With the bounds out of order the first sleep is the lower one, above the
      maximum. */
  lemma FirstSleepIff(cfg: Config, st: State)
    requires st.status != Updating
    ensures FetchFailed(cfg, Spawn(cfg, st)).1 == MinReal(cfg.maxBackoff, Doubled(cfg.minBackoff, 0))
       <==> cfg.minBackoff <= cfg.maxBackoff
  {
  }
}
