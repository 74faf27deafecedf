/** The `ShardMap` class of aiokpl/shard_map.py: its methods are the steps of
    the state machine. */
module ShardMapCode {
  import opened Common
  import opened Sorting
  import opened ShardMap
  import opened Listings
  import Spec = ShardMap

  /** The closing times after the shards in `done` were gone through. */
  ghost function ClosedSoFar(st: State, listed: map<int, Shard>, done: set<int>, now: real): map<int, real> {
    map id | id in st.closedAt.Keys + done && !(id in done && id in listed) :: ClosingTime(st, id, now)
  }

  ghost function RetainedSoFar(cfg: Config, st: State, listed: map<int, Shard>, done: set<int>,
                               now: real): map<int, Shard>
    requires done <= st.snapshot.shards.Keys
  {
    map id | id in done && id !in listed && ClosingTime(st, id, now) + cfg.closedTtl > now :: st.snapshot.shards[id]
  }

  class Cache {
    const cfg: Config
    var status: Status
    var snapshot: Snapshot
    var closedAt: map<int, real>
    var updatedAt: Option<real>
    var backoff: real
    var loops: nat
    ghost var fetched: seq<Shard>
    ghost var clock: real

    ghost function View(): State
      reads this
    {
      State(status, fetched, snapshot, closedAt, updatedAt, backoff, loops, clock)
    }

    constructor (cfg: Config, ghost now: real)
      ensures this.cfg == cfg && View() == Initial(cfg, now)
    {
      this.cfg := cfg;
      status, snapshot, closedAt, updatedAt := Invalid, Snapshot([], [], map[]), map[], None;
      backoff, loops := cfg.minBackoff, 0;
      fetched, clock := [], now;
    }

    function Predict(h: nat): (r: Option<int>)
      reads this
      requires |snapshot.ids| == |snapshot.endings|
      ensures r == Spec.Predict(View(), h)
    {
      if status != Ready then None
      else
        var k := BisectLeft(snapshot.endings, h, 0, |snapshot.endings|);
        if k == |snapshot.endings| then None else Some(snapshot.ids[k])
    }

    method SpawnRefresh()
      modifies this
      ensures View() == Spawn(cfg, old(View()))
    {
      if status != Updating {
        status := Updating;
        backoff := cfg.minBackoff;
        loops := loops + 1;
      }
    }

    method Invalidate(seenAt: real, predicted: Option<int>)
      modifies this
      ensures View() == Spec.Invalidate(cfg, old(View()), seenAt, predicted)
    {
      if updatedAt.Some? && seenAt <= updatedAt.value {
        return;
      }
      if predicted.Some? && predicted.value !in snapshot.shards {
        return;
      }
      SpawnRefresh();
    }

    /** One failed iteration of the refresh loop: how long it sleeps. */
    method OnFetchFailed() returns (sleep: real)
      modifies this
      ensures (View(), sleep) == FetchFailed(cfg, old(View()))
    {
      sleep := backoff;
      backoff := MinReal(backoff * 2.0, cfg.maxBackoff);
    }

    /** One known shard: closed from now on, or still closed, or open again. */
    method MergeOne(listed: map<int, Shard>, id: int, merged: map<int, Shard>, now: real) returns (m: map<int, Shard>)
      requires id in snapshot.shards
      modifies this`closedAt
      ensures closedAt == if id in listed then old(closedAt) - {id}
                          else old(closedAt)[id := if id in old(closedAt) then old(closedAt)[id] else now]
      ensures m == if id !in listed && closedAt[id] + cfg.closedTtl > now then merged[id := snapshot.shards[id]]
                else merged
    {
      m := merged;
      if id !in listed {
        if id !in closedAt {
          closedAt := closedAt[id := now];
        }
        if closedAt[id] + cfg.closedTtl > now {
          m := m[id := snapshot.shards[id]];
        }
      } else {
        closedAt := closedAt - {id};
      }
    }

    /** Marks vanished shards closed and keeps those whose time is not up. */
    method MergeClosed(listed: map<int, Shard>, now: real) returns (merged: map<int, Shard>)
      modifies this`closedAt
      ensures closedAt == ClosedSoFar(old(View()), listed, snapshot.shards.Keys, now)
      ensures merged == listed + RetainedSoFar(cfg, old(View()), listed, snapshot.shards.Keys, now)
    {
      hide ClosingTime, ClosedSoFar, RetainedSoFar;
      ghost var st := View();
      NothingDone(cfg, st, listed, now);
      merged := listed;
      var todo := snapshot.shards.Keys;
      ghost var keys, done: set<int> := todo, {};
      while todo != {}
        invariant done <= keys && todo == keys - done
        invariant closedAt == ClosedSoFar(st, listed, done, now)
        invariant merged == listed + RetainedSoFar(cfg, st, listed, done, now)
        decreases |todo|
      {
        SomeMember(todo);
        var id :| id in todo;
        OneMore(cfg, st, listed, done, id, now);
        MergeMore(cfg, st, listed, done, id, now);
        merged := MergeOne(listed, id, merged, now);
        todo, done := todo - {id}, done + {id};
      }
      assert done == keys;
    }

    /** Installs the snapshot of `list` and ends the refresh loop. */
    method InstallSnapshot(listed: Snapshot, ghost list: seq<Shard>, now: real)
      requires listed == SnapshotOf(list) && loops > 0
      modifies this
      ensures View() == Install(cfg, old(View()), list, now)
    {
      hide SnapshotOf, ClosedSoFar, RetainedSoFar, Install;
      AllDone(cfg, View(), list, now);
      var merged := MergeClosed(listed.shards, now);
      snapshot := Snapshot(listed.endings, listed.ids, merged);
      status, updatedAt, backoff := Ready, Some(now), cfg.minBackoff;
      loops := loops - 1;
      fetched, clock := list, now;
    }

    method Cleanup(now: real)
      modifies this
      ensures View() == Spec.Cleanup(cfg, old(View()), now)
    {
      clock := now;
      if status != Ready {
        return;
      }
      var expired := set id | id in closedAt && closedAt[id] + cfg.closedTtl <= now;
      if expired == {} {
        return;
      }
      snapshot := Snapshot(snapshot.endings, snapshot.ids, snapshot.shards - expired);
      closedAt := closedAt - expired;
    }
  }

  lemma SomeMember(s: set<int>)
    requires s != {}
    ensures exists x :: x in s
  {
    assert (forall x :: x !in s) ==> s == {};
  }

  lemma NothingDone(cfg: Config, st: State, listed: map<int, Shard>, now: real)
    ensures ClosedSoFar(st, listed, {}, now) == st.closedAt
    ensures listed + RetainedSoFar(cfg, st, listed, {}, now) == listed
  {
  }

  lemma AllDone(cfg: Config, st: State, list: seq<Shard>, now: real)
    ensures var listed, keys := SnapshotOf(list), st.snapshot.shards.Keys;
            Install(cfg, st, list, now) ==
            State(Ready, list, Snapshot(listed.endings, listed.ids,
                                        listed.shards + RetainedSoFar(cfg, st, listed.shards, keys, now)),
                  ClosedSoFar(st, listed.shards, keys, now), Some(now), cfg.minBackoff,
                  if st.loops > 0 then st.loops - 1 else 0, now)
  {
    hide SnapshotOf, ClosingTime;
    var listed, keys := SnapshotOf(list), st.snapshot.shards.Keys;
    assert Install(cfg, st, list, now).closedAt == ClosedSoFar(st, listed.shards, keys, now);
    assert Install(cfg, st, list, now).snapshot.shards
        == listed.shards + RetainedSoFar(cfg, st, listed.shards, keys, now);
  }

  /** What one iteration of the install loop does. */
  lemma OneMore(cfg: Config, st: State, listed: map<int, Shard>, done: set<int>, id: int, now: real)
    requires done <= st.snapshot.shards.Keys && id in st.snapshot.shards && id !in done
    ensures var c, c' := ClosedSoFar(st, listed, done, now), ClosedSoFar(st, listed, done + {id}, now);
            && c' == (if id in listed then c - {id} else c[id := if id in c then c[id] else now])
            && (id !in listed ==> c'[id] == ClosingTime(st, id, now))
  {
    var c, c' := ClosedSoFar(st, listed, done, now), ClosedSoFar(st, listed, done + {id}, now);
    assert c' == if id in listed then c - {id} else c[id := ClosingTime(st, id, now)];
  }

  lemma MergeMore(cfg: Config, st: State, listed: map<int, Shard>, done: set<int>, id: int, now: real)
    requires done <= st.snapshot.shards.Keys && id in st.snapshot.shards && id !in done
    ensures var m, m' := listed + RetainedSoFar(cfg, st, listed, done, now),
              listed + RetainedSoFar(cfg, st, listed, done + {id}, now);
            m' == if id !in listed && ClosingTime(st, id, now) + cfg.closedTtl > now
                  then m[id := st.snapshot.shards[id]]
                  else m
  {
    hide ClosingTime;
    var r, r' := RetainedSoFar(cfg, st, listed, done, now), RetainedSoFar(cfg, st, listed, done + {id}, now);
    if id !in listed && ClosingTime(st, id, now) + cfg.closedTtl > now {
      assert r' == r[id := st.snapshot.shards[id]];
    } else {
      assert r' == r;
    }
  }

  // ---- Fetching ----

  lemma MapOfSnoc(list: seq<Shard>, s: Shard)
    ensures MapOf(list + [s]) == MapOf(list)[s.id := s]
    ensures Entries(list + [s]) == Entries(list) + [(s.end, s.id)]
  {
    assert Front(list + [s]) == list;
  }

  /** One page: its shards go into the dictionary and the list of endings. */
  method ReadPage(raws: seq<Raw>, shards: map<int, Shard>, entries: seq<(nat, int)>, ghost list: seq<Shard>)
      returns (ok: bool, shards': map<int, Shard>, entries': seq<(nat, int)>, ghost list': seq<Shard>)
    requires shards == MapOf(list) && entries == Entries(list)
    ensures ok == BuildAll(raws).Ok?
    ensures ok ==> list' == list + BuildAll(raws).value && shards' == MapOf(list') && entries' == Entries(list')
  {
    hide BuildShard, MapOf, Entries;
    shards', entries', list' := shards, entries, list;
    for i := 0 to |raws|
      invariant BuildAll(raws[..i]).Ok? && list' == list + BuildAll(raws[..i]).value
      invariant shards' == MapOf(list') && entries' == Entries(list')
    {
      assert Front(raws[..i + 1]) == raws[..i] && Last(raws[..i + 1]) == raws[i];
      var s := BuildShard(raws[i]);
      if s.Err? {
        BadPrefix(raws, i + 1);
        return false, shards', entries', list';
      }
      MapOfSnoc(list', s.value);
      Assoc(list, BuildAll(raws[..i]).value, [s.value]);
      shards', entries', list' := shards'[s.value.id := s.value], entries' + [(s.value.end, s.value.id)],
          list' + [s.value];
    }
    assert raws[..|raws|] == raws;
    ok := true;
  }

  lemma {:induction false} BadPrefix(raws: seq<Raw>, i: nat)
    requires i <= |raws| && BuildAll(raws[..i]).Err?
    ensures BuildAll(raws).Err?
    decreases |raws| - i
  {
    if i == |raws| {
      assert raws[..i] == raws;
    } else {
      assert Front(raws[..i + 1]) == raws[..i];
      BadPrefix(raws, i + 1);
    }
  }

  lemma {:induction false} BadPages(pages: seq<Result<seq<Raw>>>, i: nat)
    requires i <= |pages| && FetchAll(pages[..i]).Err?
    ensures FetchAll(pages).Err?
    decreases |pages| - i
  {
    if i == |pages| {
      assert pages[..i] == pages;
    } else {
      assert Front(pages[..i + 1]) == pages[..i];
      BadPages(pages, i + 1);
    }
  }

  /** The paging loop, then one sort of the endings. A listing without end would
      keep the loop going for ever. */
  method FetchAllPages(service: Service, ghost calls: nat) returns (r: Result<Snapshot>)
    requires Ends(service, None, 0, calls)
    ensures r == match FetchAll(Listing(service, None, 0, calls)) case Err => Err case Ok(list) => Ok(SnapshotOf(list))
    ensures forall split :: Pages(Listing(service, None, 0, calls), split) ==> r.Ok? && Holds(r.value, Concat(split))
    ensures r.Ok? <==> exists split :: Pages(Listing(service, None, 0, calls), split)
  {
    hide BuildAll, MapOf, StableSort, FetchAll, Pages, Holds;
    PagesAreRead(service, calls);
    ghost var pages := Listing(service, None, 0, calls);
    var shards: map<int, Shard>, entries: seq<(nat, int)> := map[], [];
    var token: Option<string>, k: nat := None, 0;
    ghost var list: seq<Shard>, seen: seq<Result<seq<Raw>>> := [], [];
    EmptyTables();
    while true
      invariant k <= calls && Ends(service, token, k, calls - k)
      invariant pages == seen + Listing(service, token, k, calls - k)
      invariant FetchAll(seen) == Ok(list) && shards == MapOf(list) && entries == Entries(list)
      decreases calls - k
    {
      var response := service(k, token);
      NextPage(pages, seen, service, token, k, calls - k);
      if response.Err? {
        return Err;
      }
      var page, ok := response.value, false;
      ok, shards, entries, list := ReadPage(page.raws, shards, entries, list);
      if !ok {
        return Err;
      }
      seen := seen + [Ok(page.raws)];
      if !HasNext(page) {
        break;
      }
      token, k := page.next, k + 1;
    }
    var sorted := StableSort(PairOrder(), entries);
    var endings := seq(|sorted|, i requires 0 <= i < |sorted| => sorted[i].0);
    var ids := seq(|sorted|, i requires 0 <= i < |sorted| => sorted[i].1);
    assert endings == SnapshotOf(list).endings && ids == SnapshotOf(list).ids;
    r := Ok(Snapshot(endings, ids, shards));
  }

  lemma PagesAreRead(service: Service, calls: nat)
    ensures var pages := Listing(service, None, 0, calls);
            && (FetchAll(pages).Ok? <==> exists split :: Pages(pages, split))
            && (forall split :: Pages(pages, split) ==>
                  FetchAll(pages).Ok? && Holds(SnapshotOf(FetchAll(pages).value), Concat(split)))
  {
    hide *;
    FetchAllIff(Listing(service, None, 0, calls));
    forall split | Pages(Listing(service, None, 0, calls), split)
      ensures FetchAll(Listing(service, None, 0, calls)) == Ok(Concat(split))
      ensures Holds(SnapshotOf(Concat(split)), Concat(split))
    {
      ListingRoundTrip(service, calls, split);
    }
  }

  /** What one more page does to the listing read so far. */
  lemma NextPage(pages: seq<Result<seq<Raw>>>, seen: seq<Result<seq<Raw>>>, service: Service, token: Option<string>,
                 k: nat, calls: nat)
    requires pages == seen + Listing(service, token, k, calls) && calls > 0 && FetchAll(seen).Ok?
    ensures match service(k, token)
            case Err => FetchAll(pages) == Err
            case Ok(p) =>
              && (BuildAll(p.raws).Err? ==> FetchAll(pages) == Err)
              && (BuildAll(p.raws).Ok? ==>
                    FetchAll(seen + [Ok(p.raws)]) == Ok(FetchAll(seen).value + BuildAll(p.raws).value))
              && (HasNext(p) ==> pages == (seen + [Ok(p.raws)]) + Listing(service, p.next, k + 1, calls - 1))
              && (!HasNext(p) ==> pages == seen + [Ok(p.raws)])
  {
    hide BuildAll;
    var page: Result<seq<Raw>> := match service(k, token) case Err => Err case Ok(p) => Ok(p.raws);
    var rest := Listing(service, token, k, calls)[1..];
    assert Listing(service, token, k, calls) == [page] + rest;
    Assoc(seen, [page], rest);
    assert pages[..|seen| + 1] == seen + [page];
    assert Front(seen + [page]) == seen;
    if FetchAll(seen + [page]).Err? {
      BadPages(pages, |seen| + 1);
    }
  }

  lemma EmptyTables()
    ensures MapOf([]) == map[] && Entries([]) == [] && FetchAll([]) == Ok([])
  {
  }
}
