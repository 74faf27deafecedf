/** The cached shard map of aiokpl/shard_map.py as a state machine.

    Refreshes, failures, installs and clean-ups are atomic steps; the service
    answers a fetch with any list of shards. */
module ShardMap {
  import opened Common
  import opened Sorting
  import opened Hashing

  datatype Shard = Shard(id: int, start: nat, end: nat)

  datatype Status = Invalid | Updating | Ready

  /** `endings` and `ids` are the open shards by ending hash key; `shards` also
      holds closed shards that are still answerable. */
  datatype Snapshot = Snapshot(endings: seq<nat>, ids: seq<int>, shards: map<int, Shard>)

  // ---- Building a snapshot ----

  /** A shard as the service describes it. */
  datatype Raw = Raw(shardId: string, startingHashKey: string, endingHashKey: string)

  function ParseId(raw: string): Result<int> {
    var prefix := "shardId-";
    if |raw| <= |prefix| || raw[..|prefix|] != prefix then Err
    else
      var digits := raw[|prefix|..];
      if exists i :: 0 <= i < |digits| && !IsDigit(digits[i]) then Err else Ok(DecimalValue(digits))
  }

  /** `_build_shard`; `_parse_hash_key` is the parser of explicit hash keys. */
  function BuildShard(raw: Raw): (r: Result<Shard>)
    ensures r.Ok? ==> r.value.start <= r.value.end <= UINT128_MAX
  {
    match (ParseId(raw.shardId), ParseHashKey(raw.startingHashKey), ParseHashKey(raw.endingHashKey))
    case (Ok(id), Ok(start), Ok(end)) => if start > end then Err else Ok(Shard(id, start, end))
    case _ => Err
  }

  function BuildAll(raws: seq<Raw>): Result<seq<Shard>> {
    if raws == [] then Ok([])
    else match (BuildAll(Front(raws)), BuildShard(Last(raws)))
         case (Ok(ss), Ok(s)) => Ok(ss + [s])
         case _ => Err
  }

  /** One page of a listing, and the token of the next. */
  datatype Page = Page(raws: seq<Raw>, next: Option<string>)

  predicate HasNext(p: Page) {
    p.next.Some? && p.next.value != ""
  }

  /** What the service answers to its k-th call, which carries the token of the
      page before, or fails with. */
  type Service = (nat, Option<string>) -> Result<Page>

  /** The listing comes to an end, or fails, within so many calls. */
  predicate Ends(service: Service, token: Option<string>, k: nat, calls: nat)
    decreases calls
  {
    calls > 0 &&
    match service(k, token)
    case Err => true
    case Ok(p) => !HasNext(p) || Ends(service, p.next, k + 1, calls - 1)
  }

  /** The pages answered, each call carrying the token of the page before. */
  function Listing(service: Service, token: Option<string>, k: nat, calls: nat): seq<Result<seq<Raw>>>
    decreases calls
  {
    if calls == 0 then []
    else match service(k, token)
         case Err => [Err]
         case Ok(p) => [Ok(p.raws)] + if HasNext(p) then Listing(service, p.next, k + 1, calls - 1) else []
  }

  /** The pages of one listing, up to the one without a token; a page that
      raises fails the whole fetch. */
  function FetchAll(pages: seq<Result<seq<Raw>>>): Result<seq<Shard>> {
    if pages == [] then Ok([])
    else match (FetchAll(Front(pages)), Last(pages))
         case (Ok(ss), Ok(raws)) =>
           (match BuildAll(raws) case Err => Err case Ok(more) => Ok(ss + more))
         case _ => Err
  }

  function MapOf(list: seq<Shard>): (m: map<int, Shard>)
    ensures forall i :: 0 <= i < |list| ==> list[i].id in m
    ensures forall id :: id in m ==> m[id].id == id && m[id] in list
  {
    if list == [] then map[]
    else
      assert list == Front(list) + [Last(list)];
      MapOf(Front(list))[Last(list).id := Last(list)]
  }

  function Entries(list: seq<Shard>): (r: seq<(nat, int)>)
    ensures |r| == |list| && forall i :: 0 <= i < |r| ==> r[i] == (list[i].end, list[i].id)
  {
    seq(|list|, i requires 0 <= i < |list| => (list[i].end, list[i].id))
  }

  /** Python's order on pairs. */
  function PairOrder(): ((nat, int), (nat, int)) -> bool {
    (x: (nat, int), y: (nat, int)) => x.0 < y.0 || (x.0 == y.0 && x.1 <= y.1)
  }

  function SortedEntries(list: seq<Shard>): (r: seq<(nat, int)>)
    ensures |r| == |list|
  {
    StableSort(PairOrder(), Entries(list))
  }

  function SnapshotOf(list: seq<Shard>): (s: Snapshot)
    ensures |s.endings| == |s.ids| == |list| && s.shards == MapOf(list)
    ensures forall i :: 0 <= i < |list| ==> (s.endings[i], s.ids[i]) == SortedEntries(list)[i]
  {
    var sorted := SortedEntries(list);
    Snapshot(seq(|sorted|, i requires 0 <= i < |sorted| => sorted[i].0),
             seq(|sorted|, i requires 0 <= i < |sorted| => sorted[i].1),
             MapOf(list))
  }

  // ---- Prediction ----

  predicate Contains(s: Shard, h: nat) {
    s.start <= h <= s.end
  }

  ghost predicate Owned(list: seq<Shard>, h: nat) {
    exists i :: 0 <= i < |list| && Contains(list[i], h)
  }

  /** Every hash key lies in exactly one of the listed ranges. */
  ghost predicate Tiles(list: seq<Shard>) {
    && (forall i, j :: 0 <= i < j < |list| ==> list[i].id != list[j].id)
    && (forall i :: 0 <= i < |list| ==> list[i].start <= list[i].end <= UINT128_MAX)
    && (forall h: nat :: h <= UINT128_MAX ==> Owned(list, h))
    && (forall i, j, h: nat :: 0 <= i < |list| && 0 <= j < |list| && Contains(list[i], h) && Contains(list[j], h) ==>
        i == j)
  }

  /** The shard that owns `h`, by linear search. */
  function LinearOwner(list: seq<Shard>, h: nat): Option<int> {
    if list == [] then None
    else if Contains(list[0], h) then Some(list[0].id)
    else LinearOwner(list[1..], h)
  }

  /** `bisect_left` between `lo` and `hi`. */
  function BisectLeft(endings: seq<nat>, h: nat, lo: nat, hi: nat): (i: nat)
    requires lo <= hi <= |endings|
    ensures lo <= i <= hi
    decreases hi - lo
  {
    if lo == hi then lo
    else
      var mid := (lo + hi) / 2;
      if endings[mid] < h then BisectLeft(endings, h, mid + 1, hi) else BisectLeft(endings, h, lo, mid)
  }

  ghost predicate Ascending(endings: seq<nat>) {
    forall i, j :: 0 <= i < j < |endings| ==> endings[i] <= endings[j]
  }

  lemma {:induction false} BisectSplits(endings: seq<nat>, h: nat, lo: nat, hi: nat)
    requires lo <= hi <= |endings| && Ascending(endings)
    requires (forall i :: 0 <= i < lo ==> endings[i] < h) && (forall i :: hi <= i < |endings| ==> endings[i] >= h)
    ensures var k := BisectLeft(endings, h, lo, hi);
            (forall i :: 0 <= i < k ==> endings[i] < h) && (forall i :: k <= i < |endings| ==> endings[i] >= h)
    decreases hi - lo
  {
    if lo < hi {
      var mid := (lo + hi) / 2;
      if endings[mid] < h {
        BisectSplits(endings, h, mid + 1, hi);
      } else {
        BisectSplits(endings, h, lo, mid);
      }
    }
  }

  lemma EndingsAscend(list: seq<Shard>)
    ensures Ascending(SnapshotOf(list).endings)
  {
    hide SnapshotOf, StableSort;
    var leq, snap, sorted := PairOrder(), SnapshotOf(list), SortedEntries(list);
    StableSortMeaning(leq, Entries(list));
    forall i, j | 0 <= i < j < |list|
      ensures snap.endings[i] <= snap.endings[j]
    {
      assert leq(sorted[i], sorted[j]);
      assert (snap.endings[i], snap.ids[i]) == sorted[i] && (snap.endings[j], snap.ids[j]) == sorted[j];
    }
  }

  /** The shard behind a position of the snapshot, and back. */
  lemma ShardAt(list: seq<Shard>, k: nat) returns (i: nat)
    requires k < |list|
    ensures i < |list| && (list[i].end, list[i].id) == SortedEntries(list)[k]
  {
    hide StableSort;
    var es, sorted := Entries(list), SortedEntries(list);
    StableSortMeaning(PairOrder(), es);
    assert sorted[k] in multiset(sorted);
    i :| 0 <= i < |es| && es[i] == sorted[k];
  }

  lemma PositionOf(list: seq<Shard>, i: nat) returns (k: nat)
    requires i < |list|
    ensures k < |list| && (list[i].end, list[i].id) == SortedEntries(list)[k]
  {
    hide StableSort;
    var es, sorted := Entries(list), SortedEntries(list);
    StableSortMeaning(PairOrder(), es);
    assert es[i] in multiset(es);
    k :| 0 <= k < |sorted| && sorted[k] == es[i];
  }

  /** On a list that tiles the hash space, bisecting the sorted endings finds
      a shard whose range contains the key. */
  lemma BisectFindsOwner(list: seq<Shard>, h: nat) returns (o: nat)
    requires Tiles(list) && h <= UINT128_MAX
    ensures o < |list| && Contains(list[o], h)
    ensures var snap := SnapshotOf(list);
            var k := BisectLeft(snap.endings, h, 0, |snap.endings|);
            k < |snap.ids| && snap.ids[k] == list[o].id
  {
    hide SnapshotOf, BisectLeft, SortedEntries;
    var snap := SnapshotOf(list);
    EndingsAscend(list);
    BisectSplits(snap.endings, h, 0, |snap.endings|);
    var k := BisectLeft(snap.endings, h, 0, |snap.endings|);
    assert Owned(list, h);
    o :| 0 <= o < |list| && Contains(list[o], h);
    var ko := PositionOf(list, o);
    assert (snap.endings[ko], snap.ids[ko]) == (list[o].end, list[o].id);
    assert ko >= k;
    var i := ShardAt(list, k);
    assert (snap.endings[k], snap.ids[k]) == (list[i].end, list[i].id);
    NoGapBelow(list, o, i, h);
  }

  /** The first shard ending at or after `h` is the one that contains `h`. */
  lemma NoGapBelow(list: seq<Shard>, o: nat, i: nat, h: nat)
    requires Tiles(list) && h <= UINT128_MAX && o < |list| && i < |list| && Contains(list[o], h)
    requires h <= list[i].end <= list[o].end
    ensures i == o
  {
    if list[i].start <= h {
      assert Contains(list[i], h);
    } else {
      var x := list[i].start;
      assert Contains(list[i], x) && Contains(list[o], x);
    }
  }

  lemma {:induction false} LinearFindsOwner(list: seq<Shard>, h: nat, o: nat)
    requires o < |list| && Contains(list[o], h)
    requires forall i :: 0 <= i < |list| && Contains(list[i], h) ==> list[i].id == list[o].id
    ensures LinearOwner(list, h) == Some(list[o].id)
    decreases |list|
  {
    if !Contains(list[0], h) {
      assert forall i :: 0 <= i < |list[1..]| ==> list[1..][i] == list[i + 1];
      LinearFindsOwner(list[1..], h, o - 1);
    }
  }

  // ---- The state machine ----

  datatype Config = Config(minBackoff: real, maxBackoff: real, closedTtl: real)

  datatype State = State(
    status: Status,
    fetched: seq<Shard>,          // the list behind the current snapshot
    snapshot: Snapshot,
    closedAt: map<int, real>,
    updatedAt: Option<real>,
    backoff: real,
    loops: nat,                   // refresh loops that are running
    now: real)                    // the last clock reading

  function Initial(cfg: Config, now: real): State {
    State(Invalid, [], Snapshot([], [], map[]), map[], None, cfg.minBackoff, 0, now)
  }

  function Predict(st: State, h: nat): Option<int> {
    if st.status != Ready then None
    else
      var k := BisectLeft(st.snapshot.endings, h, 0, |st.snapshot.endings|);
      if k >= |st.snapshot.endings| || k >= |st.snapshot.ids| then None else Some(st.snapshot.ids[k])
  }

  function HashRange(st: State, id: int): Option<(int, int)> {
    if id in st.snapshot.shards then Some((st.snapshot.shards[id].start, st.snapshot.shards[id].end)) else None
  }

  function Spawn(cfg: Config, st: State): State {
    if st.status == Updating then st
    else st.(status := Updating, backoff := cfg.minBackoff, loops := st.loops + 1)
  }

  function Invalidate(cfg: Config, st: State, seenAt: real, predicted: Option<int>): State {
    if st.updatedAt.Some? && seenAt <= st.updatedAt.value then st
    else if predicted.Some? && predicted.value !in st.snapshot.shards then st
    else Spawn(cfg, st)
  }

  /** A fetch failed: how long to sleep, and the doubled backoff. */
  function FetchFailed(cfg: Config, st: State): (State, real) {
    (st.(backoff := MinReal(st.backoff * 2.0, cfg.maxBackoff)), st.backoff)
  }

  /** When a shard of the old snapshot counts as closed. */
  function ClosingTime(st: State, id: int, now: real): real {
    if id in st.closedAt then st.closedAt[id] else now
  }

  function Install(cfg: Config, st: State, list: seq<Shard>, now: real): State {
    var listed, known := SnapshotOf(list), st.snapshot.shards;
    var closed := map id | id in st.closedAt.Keys + known.Keys && !(id in known && id in listed.shards) ::
        ClosingTime(st, id, now);
    var retained := map id | id in known && id !in listed.shards && ClosingTime(st, id, now) + cfg.closedTtl > now ::
        known[id];
    State(Ready, list, listed.(shards := listed.shards + retained), closed, Some(now), cfg.minBackoff,
          if st.loops > 0 then st.loops - 1 else 0, now)
  }

  function Cleanup(cfg: Config, st: State, now: real): State {
    if st.status != Ready then st.(now := now)
    else
      var expired := set id | id in st.closedAt && st.closedAt[id] + cfg.closedTtl <= now;
      st.(snapshot := st.snapshot.(shards := st.snapshot.shards - expired), closedAt := st.closedAt - expired,
          now := now)
  }

  datatype Event =
    | Starting
    | Invalidating(seenAt: real, predicted: Option<int>)
    | Failing
    | Installing(list: seq<Shard>, at: real)
    | Cleaning(at: real)

  /** Fetch outcomes only reach a running refresh loop, and time goes on. */
  function Step(cfg: Config, st: State, e: Event): State {
    match e
    case Starting => Spawn(cfg, st)
    case Invalidating(seenAt, predicted) => Invalidate(cfg, st, seenAt, predicted)
    case Failing => if st.loops == 0 then st else FetchFailed(cfg, st).0
    case Installing(list, at) => if st.loops == 0 || at < st.now then st else Install(cfg, st, list, at)
    case Cleaning(at) => if at < st.now then st else Cleanup(cfg, st, at)
  }

  function Run(cfg: Config, st: State, es: seq<Event>): State {
    if es == [] then st else Step(cfg, Run(cfg, st, Front(es)), Last(es))
  }
}
