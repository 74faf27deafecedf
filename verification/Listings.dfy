/** What a listing of shards means: the texts the service writes against the
    shards that the fetch reads from them. */
module Listings {
  import opened Common
  import opened Sorting
  import opened Hashing
  import opened Retrier
  import opened ShardMap

  const PREFIX := "shardId-"

  /** `n` in decimal, perhaps after zeros. */
  ghost predicate Written(s: string, n: nat) {
    exists k :: s == Zeros(k) + ToDecimal(n)
  }

  /** The name of shard `id`. */
  ghost predicate Named(s: string, id: nat) {
    exists k :: s == PREFIX + (Zeros(k) + ToDecimal(id))
  }

  /** The service describes `s` by `raw`. */
  ghost predicate Describes(raw: Raw, s: Shard) {
    && s.id >= 0 && s.start <= s.end <= UINT128_MAX
    && Named(raw.shardId, s.id) && Written(raw.startingHashKey, s.start) && Written(raw.endingHashKey, s.end)
  }

  // ---- One shard ----

  /** Digits are a number as it is written. */
  lemma DigitsIff(s: string, n: nat)
    ensures Written(s, n) <==> s != [] && (forall i :: 0 <= i < |s| ==> IsDigit(s[i])) && DecimalValue(s) == n
  {
    hide DecimalValue, ToDecimal;
    if s != [] && (forall i :: 0 <= i < |s| ==> IsDigit(s[i])) && DecimalValue(s) == n {
      var k := DigitsArePrinted(s);
    }
    if Written(s, n) {
      var k :| s == Zeros(k) + ToDecimal(n);
      ZerosAreNothing(k, ToDecimal(n));
      DecimalRoundTrip(n);
    }
  }

  lemma NamedIff(s: string, id: nat)
    ensures Named(s, id) <==> |s| > |PREFIX| && s[..|PREFIX|] == PREFIX && Written(s[|PREFIX|..], id)
  {
    hide ToDecimal;
    if |s| > |PREFIX| && s[..|PREFIX|] == PREFIX && Written(s[|PREFIX|..], id) {
      assert s == s[..|PREFIX|] + s[|PREFIX|..];
    }
    if Named(s, id) {
      var k :| s == PREFIX + (Zeros(k) + ToDecimal(id));
      assert s[|PREFIX|..] == Zeros(k) + ToDecimal(id);
    }
  }

  /** The names of shards that the map and the retrier read are the ones that are
      written, with that number and no other. */
  lemma ParseIdIff(s: string, id: int)
    ensures ParseId(s) == Ok(id) <==> id >= 0 && Named(s, id)
    ensures ParseShardId(Some(s)) == Some(id) <==> id >= 0 && Named(s, id)
  {
    hide DecimalValue, Written, Named;
    if id >= 0 {
      NamedIff(s, id);
      if |s| > |PREFIX| {
        DigitsIff(s[|PREFIX|..], id);
      }
    }
  }

  /** A shard is read from exactly its descriptions. */
  lemma BuildShardIff(raw: Raw, s: Shard)
    ensures BuildShard(raw) == Ok(s) <==> Describes(raw, s)
  {
    hide ParseId, ParseHashKey, Named;
    ParseIdIff(raw.shardId, s.id);
    ParseHashKeyIff(raw.startingHashKey, s.start);
    ParseHashKeyIff(raw.endingHashKey, s.end);
  }

  // ---- A listing ----

  ghost predicate DescribesAll(raws: seq<Raw>, list: seq<Shard>) {
    |raws| == |list| && forall i :: 0 <= i < |raws| ==> Describes(raws[i], list[i])
  }

  lemma {:induction false} BuildAllDescribed(raws: seq<Raw>, list: seq<Shard>)
    requires DescribesAll(raws, list)
    ensures BuildAll(raws) == Ok(list)
  {
    hide BuildShard, Describes;
    if raws != [] {
      BuildAllDescribed(Front(raws), Front(list));
      BuildShardIff(raws[|raws| - 1], list[|list| - 1]);
      FrontLast(list);
    }
  }

  /** The pages, in order, describe the shards of `split`. */
  ghost predicate Pages(pages: seq<Result<seq<Raw>>>, split: seq<seq<Shard>>) {
    |pages| == |split| && forall i :: 0 <= i < |pages| ==> pages[i].Ok? && DescribesAll(pages[i].value, split[i])
  }

  lemma {:induction false} FetchAllDescribed(pages: seq<Result<seq<Raw>>>, split: seq<seq<Shard>>)
    requires Pages(pages, split)
    ensures FetchAll(pages) == Ok(Concat(split))
  {
    hide BuildAll, DescribesAll;
    if pages != [] {
      FetchAllDescribed(Front(pages), Front(split));
      assert pages[|pages| - 1].Ok?;
      BuildAllDescribed(pages[|pages| - 1].value, split[|split| - 1]);
    }
  }

  /** The endings of a snapshot, each with its shard. */
  function Pairs(snap: Snapshot): (r: seq<(nat, int)>)
    requires |snap.endings| == |snap.ids|
    ensures |r| == |snap.ids| && forall i :: 0 <= i < |r| ==> r[i] == (snap.endings[i], snap.ids[i])
  {
    seq(|snap.ids|, i requires 0 <= i < |snap.ids| => (snap.endings[i], snap.ids[i]))
  }

  /** The snapshot holds the shards of `list`: endings in order, ties by shard id,
      with the shard each belongs to, all of them and no others, and by id its
      range. */
  ghost predicate Holds(snap: Snapshot, list: seq<Shard>) {
    && |snap.endings| == |snap.ids| && InPairOrder(snap)
    && multiset(Pairs(snap)) == multiset(Entries(list))
    && ByIds(snap.shards, list)
  }

  ghost predicate InPairOrder(snap: Snapshot)
    requires |snap.endings| == |snap.ids|
  {
    forall i, j :: 0 <= i < j < |snap.ids| ==>
      snap.endings[i] < snap.endings[j] || (snap.endings[i] == snap.endings[j] && snap.ids[i] <= snap.ids[j])
  }

  /** The shards listed, by id; of those listed under one id, the last. */
  ghost predicate ByIds(shards: map<int, Shard>, list: seq<Shard>) {
    && (forall i :: 0 <= i < |list| ==> list[i].id in shards)
    && (forall id :: id in shards ==> LastOf(shards[id], id, list))
  }

  ghost predicate LastOf(s: Shard, id: int, list: seq<Shard>) {
    exists i :: && 0 <= i < |list| && list[i] == s && s.id == id
                && forall j :: i < j < |list| ==> list[j].id != id
  }

  lemma {:induction false} MapHolds(list: seq<Shard>)
    ensures ByIds(MapOf(list), list)
  {
    hide ByIds;
    if list == [] {
      NoIds();
    } else {
      var f, x := Front(list), list[|list| - 1];
      MapHolds(f);
      MapUnfold(list);
      FrontLast(list);
      OneMoreId(MapOf(f), f, x);
    }
  }

  lemma NoIds()
    ensures ByIds(map[], [])
  {
  }

  lemma OneMoreId(shards: map<int, Shard>, list: seq<Shard>, x: Shard)
    requires ByIds(shards, list)
    ensures ByIds(shards[x.id := x], list + [x])
  {
    var m, l := shards[x.id := x], list + [x];
    forall id | id in m
      ensures LastOf(m[id], id, l)
    {
      if id == x.id {
        assert l[|list|] == x;
      } else {
        assert LastOf(shards[id], id, list);
        var i :| && 0 <= i < |list| && list[i] == shards[id]
                 && forall j :: i < j < |list| ==> list[j].id != id;
        assert l[i] == list[i];
      }
    }
  }

  lemma MapUnfold(list: seq<Shard>)
    requires list != []
    ensures MapOf(list) == MapOf(Front(list))[list[|list| - 1].id := list[|list| - 1]]
  {
  }

  lemma SnapshotHolds(list: seq<Shard>)
    ensures Holds(SnapshotOf(list), list)
  {
    hide SnapshotOf, MapOf, StableSort, ByIds;
    var snap := SnapshotOf(list);
    MapHolds(list);
    assert Pairs(snap) == SortedEntries(list);
    StableSortMeaning(PairOrder(), Entries(list));
    forall i, j | 0 <= i < j < |snap.ids|
      ensures PairOrder()((snap.endings[i], snap.ids[i]), (snap.endings[j], snap.ids[j]))
    {
      assert Pairs(snap)[i] == SortedEntries(list)[i] && Pairs(snap)[j] == SortedEntries(list)[j];
    }
  }

  /** The listing round trip: shards described in any way and split over pages in
      any way are read back as exactly those shards, each with its id and its
      range. */
  lemma ListingRoundTrip(service: Service, calls: nat, split: seq<seq<Shard>>)
    requires Pages(Listing(service, None, 0, calls), split)
    ensures FetchAll(Listing(service, None, 0, calls)) == Ok(Concat(split))
    ensures Holds(SnapshotOf(Concat(split)), Concat(split))
  {
    hide FetchAll, Listing, SnapshotOf, Holds, Pages, Concat;
    FetchAllDescribed(Listing(service, None, 0, calls), split);
    SnapshotHolds(Concat(split));
  }

  /** The service answers these pages: each call carries the token of the page
      before, and only the last page has none, or an empty one. */
  ghost predicate Serves(service: Service, pages: seq<Page>) {
    pages != [] && forall k :: 0 <= k < |pages| ==>
      && service(k, TokenFor(pages, k)) == Ok(pages[k])
      && (k < |pages| - 1 <==> pages[k].next.Some? && pages[k].next.value != "")
  }

  function TokenFor(pages: seq<Page>, k: nat): Option<string>
    requires k <= |pages|
  {
    if k == 0 then None else pages[k - 1].next
  }

  /** The k-th page is answered, and what its token says. */
  lemma OnePage(service: Service, pages: seq<Page>, k: nat)
    requires Serves(service, pages) && k < |pages|
    ensures service(k, TokenFor(pages, k)) == Ok(pages[k]) && TokenFor(pages, k + 1) == pages[k].next
    ensures k < |pages| - 1 <==> pages[k].next.Some? && pages[k].next.value != ""
  {
  }

  lemma CallOnce(service: Service, token: Option<string>, k: nat, calls: nat, p: Page)
    requires calls > 0 && service(k, token) == Ok(p)
    ensures var more := p.next.Some? && p.next.value != "";
            && (Ends(service, token, k, calls) <==> !more || Ends(service, p.next, k + 1, calls - 1))
            && Listing(service, token, k, calls)
               == [Ok(p.raws)] + if more then Listing(service, p.next, k + 1, calls - 1) else []
  {
  }

  /** Everything from the k-th page on is listed. */
  ghost predicate ListsFrom(l: seq<Result<seq<Raw>>>, pages: seq<Page>, k: nat) {
    |l| == |pages| - k && forall i :: k <= i < |pages| ==> l[i - k] == Ok(pages[i].raws)
  }

  lemma OneMorePage(l: seq<Result<seq<Raw>>>, pages: seq<Page>, k: nat)
    requires k < |pages| && ListsFrom(l, pages, k + 1)
    ensures ListsFrom([Ok(pages[k].raws)] + l, pages, k)
  {
  }

  lemma {:induction false} ServedFrom(service: Service, pages: seq<Page>, k: nat, calls: nat)
    requires Serves(service, pages) && k < |pages| <= k + calls
    ensures Ends(service, TokenFor(pages, k), k, calls)
    ensures ListsFrom(Listing(service, TokenFor(pages, k), k, calls), pages, k)
    decreases calls
  {
    hide Listing, Ends, ListsFrom, Serves, TokenFor;
    OnePage(service, pages, k);
    CallOnce(service, TokenFor(pages, k), k, calls, pages[k]);
    var rest: seq<Result<seq<Raw>>> := [];
    if k < |pages| - 1 {
      ServedFrom(service, pages, k + 1, calls - 1);
      rest := Listing(service, pages[k].next, k + 1, calls - 1);
    } else {
      NoPages(pages);
    }
    OneMorePage(rest, pages, k);
  }

  lemma NoPages(pages: seq<Page>)
    ensures ListsFrom([], pages, |pages|)
  {
  }

  /** End to end: the pages a service answers, whatever its tokens, that describe the
      shards of `split`, are read back as exactly those shards. */
  lemma ServedRoundTrip(service: Service, pages: seq<Page>, calls: nat, split: seq<seq<Shard>>)
    requires Serves(service, pages) && |pages| <= calls && |split| == |pages|
    requires forall i :: 0 <= i < |pages| ==> DescribesAll(pages[i].raws, split[i])
    ensures Ends(service, None, 0, calls)
    ensures FetchAll(Listing(service, None, 0, calls)) == Ok(Concat(split))
    ensures Holds(SnapshotOf(Concat(split)), Concat(split))
  {
    hide Listing, FetchAll, SnapshotOf, Holds, DescribesAll, Concat, Ends;
    ServedFrom(service, pages, 0, calls);
    ListingRoundTrip(service, calls, split);
  }

  /** A listing that describes no list of shards is an error, never a wrong one. */
  lemma {:induction false} FetchAllIff(pages: seq<Result<seq<Raw>>>)
    ensures FetchAll(pages).Ok? <==> exists split :: Pages(pages, split)
  {
    hide BuildAll, DescribesAll;
    if FetchAll(pages).Ok? {
      var split := SplitOf(pages);
    }
    if exists split :: Pages(pages, split) {
      var split :| Pages(pages, split);
      FetchAllDescribed(pages, split);
    }
  }

  lemma {:induction false} SplitOf(pages: seq<Result<seq<Raw>>>) returns (split: seq<seq<Shard>>)
    requires FetchAll(pages).Ok?
    ensures Pages(pages, split)
  {
    hide BuildAll, DescribesAll;
    if pages == [] {
      split := [];
    } else {
      var before := SplitOf(Front(pages));
      AllDescribed(Last(pages).value);
      split := before + [BuildAll(Last(pages).value).value];
    }
  }

  lemma {:induction false} AllDescribed(raws: seq<Raw>)
    requires BuildAll(raws).Ok?
    ensures DescribesAll(raws, BuildAll(raws).value)
  {
    hide BuildShard, Describes;
    if raws != [] {
      AllDescribed(Front(raws));
      BuildShardIff(Last(raws), BuildShard(Last(raws)).value);
    }
  }
}
