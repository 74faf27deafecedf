/** Decoding inverts encoding, for exactly the batches whose lengths and table
    indices fit a ten-byte varint. */
module RoundTrip {
  import opened Common
  import opened Wire
  import opened Aggregation
  import opened DecoderMeaning

  // ---- Projections of the encoded field lists ----

  lemma {:induction false} BytesOfRun(num: nat, n: nat, ps: seq<seq<byte>>)
    ensures BytesOf(n, BytesFields(num, ps)) == if n == num then ps else []
    ensures VarintsOf(n, BytesFields(num, ps)) == []
    decreases ps
  {
    var fs := BytesFields(num, ps);
    if ps != [] {
      assert fs[1..] == BytesFields(num, ps[1..]);
      BytesOfRun(num, n, ps[1..]);
      assert ps == [ps[0]] + ps[1..];
    }
  }

  lemma Single(f: Field, n: nat)
    ensures BytesOf(n, [f]) == if f.Bytes? && f.num == n then [f.payload] else []
    ensures VarintsOf(n, [f]) == if f.Varint? && f.num == n then [f.value] else []
  {
    assert [f][1..] == [];
  }

  lemma {:induction false} TextsRoundTrip(c: Codec, keys: seq<string>)
    requires Lawful(c)
    ensures Texts(c, Utf8s(c, keys)) == Ok(keys)
  {
    if keys != [] {
      assert Utf8s(c, keys)[1..] == Utf8s(c, keys[1..]);
      TextsRoundTrip(c, keys[1..]);
      assert keys == [keys[0]] + keys[1..];
    }
  }

  // ---- Lengths ----

  /** A nested payload is shorter than the message that holds it. */
  lemma {:induction false} NestedShorter(fs: seq<Field>, f: Field)
    requires f in fs && f.Bytes?
    ensures |f.payload| < |EncodeFields(fs)|
  {
    if f != fs[0] {
      assert fs == [fs[0]] + fs[1..];
      NestedShorter(fs[1..], f);
    }
  }

  lemma SmallKeyFits(key: nat)
    requires key < 128
    ensures key < VARINT_LIMIT
  {
    assert Pow128(10) == 128 * Pow128(9);
  }

  // ---- Messages ----

  lemma TagFieldsFit(c: Codec, t: Tag)
    requires |TagMsg(c, t)| < VARINT_LIMIT
    ensures forall f :: f in TagFields(c, t) ==> FieldFits(f)
  {
    forall f | f in TagFields(c, t)
      ensures FieldFits(f)
    {
      SmallKeyFits(FieldKey(f));
      NestedShorter(TagFields(c, t), f);
    }
  }

  function OptTexts(v: Option<string>): seq<string> {
    if v.Some? then [v.value] else []
  }

  lemma TagFieldsProject(c: Codec, t: Tag)
    ensures BytesOf(1, TagFields(c, t)) == Utf8s(c, [t.key])
    ensures BytesOf(2, TagFields(c, t)) == Utf8s(c, OptTexts(t.value))
  {
    var k := Bytes(1, c.utf8(t.key));
    var v := if t.value.Some? then [Bytes(2, c.utf8(t.value.value))] else [];
    forall n: nat
      ensures BytesOf(n, TagFields(c, t)) == BytesOf(n, [k]) + BytesOf(n, v)
    {
      BytesOfConcat(n, [k], v);
    }
    Single(k, 1);
    Single(k, 2);
    if t.value.Some? {
      Single(v[0], 1);
      Single(v[0], 2);
    }
  }

  lemma TagRoundTrip(c: Codec, t: Tag)
    requires Lawful(c) && |TagMsg(c, t)| < VARINT_LIMIT
    ensures DecodeTag(c, TagMsg(c, t)) == Ok(t)
  {
    TagFieldsFit(c, t);
    FieldsRoundTrip(TagFields(c, t));
    TagFold(c, TagState(None, None), TagFields(c, t));
    TagFieldsProject(c, t);
    TextsRoundTrip(c, [t.key]);
    TextsRoundTrip(c, OptTexts(t.value));
  }

  lemma {:induction false} TagsRoundTrip(c: Codec, tags: seq<Tag>)
    requires Lawful(c) && forall t :: t in tags ==> |TagMsg(c, t)| < VARINT_LIMIT
    ensures Tags(c, TagMsgs(c, tags)) == Ok(tags)
  {
    hide TagMsg, DecodeTag;
    if tags != [] {
      TagRoundTrip(c, tags[0]);
      assert TagMsgs(c, tags)[1..] == TagMsgs(c, tags[1..]);
      TagsRoundTrip(c, tags[1..]);
      assert tags == [tags[0]] + tags[1..];
    }
  }

  lemma IndexFieldsProject(pk: nat, ehk: Option<nat>, n: nat)
    ensures BytesOf(n, IndexFields(pk, ehk)) == []
    ensures VarintsOf(n, IndexFields(pk, ehk))
         == if n == 1 then [pk] else if n == 2 && ehk.Some? then [ehk.value] else []
  {
    var e := if ehk.Some? then [Varint(2, ehk.value)] else [];
    BytesOfConcat(n, [Varint(1, pk)], e);
    VarintsOfConcat(n, [Varint(1, pk)], e);
    Single(Varint(1, pk), n);
    if ehk.Some? {
      Single(e[0], n);
    }
  }

  /** The record fields seen through the decoder's projections. */
  lemma RecordFieldsProject(c: Codec, pk: nat, ehk: Option<nat>, data: seq<byte>, tags: seq<Tag>, n: nat)
    ensures BytesOf(n, RecordFields(c, pk, ehk, data, tags))
         == if n == 3 then [data] else if n == 4 then TagMsgs(c, tags) else []
    ensures VarintsOf(n, RecordFields(c, pk, ehk, data, tags))
         == if n == 1 then [pk] else if n == 2 && ehk.Some? then [ehk.value] else []
  {
    var a, d, t := IndexFields(pk, ehk), [Bytes(3, data)], BytesFields(4, TagMsgs(c, tags));
    VarintsOfConcat(n, a + d, t);
    VarintsOfConcat(n, a, d);
    BytesOfConcat(n, a + d, t);
    BytesOfConcat(n, a, d);
    IndexFieldsProject(pk, ehk, n);
    Single(d[0], n);
    BytesOfRun(4, n, TagMsgs(c, tags));
  }

  /** The table indices of a record fit a varint. */
  ghost predicate IndicesFit(t: Tables, r: UserRecord)
    requires Knows(t, r)
  {
    && IndexOf(t.pks, r.partitionKey) < VARINT_LIMIT
    && (r.explicitHashKey.Some? ==> IndexOf(t.ehks, r.explicitHashKey.value) < VARINT_LIMIT)
  }

  lemma RecordFieldsFit(c: Codec, t: Tables, r: UserRecord)
    requires Knows(t, r) && |RecordMsg(c, t, r)| < VARINT_LIMIT
    ensures forall f :: f in FieldsOfRecord(c, t, r) ==> FieldKey(f) < VARINT_LIMIT
    ensures IndicesFit(t, r) <==> forall f :: f in FieldsOfRecord(c, t, r) ==> FieldFits(f)
  {
    var fs := FieldsOfRecord(c, t, r);
    forall f | f in fs
      ensures FieldKey(f) < VARINT_LIMIT
      ensures f.Bytes? ==> FieldFits(f)
      ensures f.Varint? ==> f in IndexFields(IndexOf(t.pks, r.partitionKey), EhkIndex(t, r))
    {
      SmallKeyFits(FieldKey(f));
      if f.Bytes? {
        NestedShorter(fs, f);
      }
    }
    var ix := IndexFields(IndexOf(t.pks, r.partitionKey), EhkIndex(t, r));
    assert ix[0] in fs && ix[0] == Varint(1, IndexOf(t.pks, r.partitionKey));
    if r.explicitHashKey.Some? {
      assert ix[1] in fs && ix[1] == Varint(2, IndexOf(t.ehks, r.explicitHashKey.value));
    }
  }

  lemma RecordTagsFit(c: Codec, t: Tables, r: UserRecord)
    requires Knows(t, r) && |RecordMsg(c, t, r)| < VARINT_LIMIT
    ensures forall g :: g in r.tags ==> |TagMsg(c, g)| < VARINT_LIMIT
  {
    forall g | g in r.tags
      ensures |TagMsg(c, g)| < VARINT_LIMIT
    {
      var i :| 0 <= i < |r.tags| && r.tags[i] == g;
      assert BytesFields(4, TagMsgs(c, r.tags))[i] == Bytes(4, TagMsg(c, g));
      NestedShorter(FieldsOfRecord(c, t, r), Bytes(4, TagMsg(c, g)));
    }
  }

  /** What the decoder makes of a record's own fields. */
  lemma RecordFieldsMean(c: Codec, t: Tables, r: UserRecord)
    requires Lawful(c) && Knows(t, r) && forall g :: g in r.tags ==> |TagMsg(c, g)| < VARINT_LIMIT
    ensures RecordMeaning(c, RecordState(None, None, None, []), FieldsOfRecord(c, t, r))
         == Ok(RecordState(Some(IndexOf(t.pks, r.partitionKey)), EhkIndex(t, r), Some(r.data), r.tags))
  {
    hide TagMsg, Tags, BytesOf, VarintsOf, RecordFields, IndexOf, DecodeTag;
    var pk, ehk := IndexOf(t.pks, r.partitionKey), EhkIndex(t, r);
    RecordFieldsProject(c, pk, ehk, r.data, r.tags, 1);
    RecordFieldsProject(c, pk, ehk, r.data, r.tags, 2);
    RecordFieldsProject(c, pk, ehk, r.data, r.tags, 3);
    RecordFieldsProject(c, pk, ehk, r.data, r.tags, 4);
    TagsRoundTrip(c, r.tags);
    assert [] + r.tags == r.tags;
  }

  lemma RecordRoundTrip(c: Codec, t: Tables, r: UserRecord)
    requires Lawful(c) && Knows(t, r) && |RecordMsg(c, t, r)| < VARINT_LIMIT
    ensures DecodeRecord(c, RecordMsg(c, t, r), t.pks, t.ehks) == if IndicesFit(t, r) then Ok(r) else Err
  {
    RecordFieldsFit(c, t, r);
    FieldsRoundTrip(FieldsOfRecord(c, t, r));
    if IndicesFit(t, r) {
      RecordFold(c, RecordState(None, None, None, []), FieldsOfRecord(c, t, r));
      RecordTagsFit(c, t, r);
      RecordFieldsMean(c, t, r);
    }
  }

  /** The records are decoded one by one, and one failure fails them all. */
  lemma {:induction false} DecodeEach(c: Codec, blobs: seq<seq<byte>>, pks: seq<string>, ehks: seq<string>,
                                      rs: seq<UserRecord>)
    requires |blobs| == |rs|
    requires forall i :: 0 <= i < |rs| && DecodeRecord(c, blobs[i], pks, ehks).Ok? ==>
                           DecodeRecord(c, blobs[i], pks, ehks).value == rs[i]
    ensures DecodeRecords(c, blobs, pks, ehks)
         == if forall i :: 0 <= i < |rs| ==> DecodeRecord(c, blobs[i], pks, ehks).Ok? then Ok(rs) else Err
  {
    hide DecodeRecord;
    if rs != [] {
      DecodeEach(c, Front(blobs), pks, ehks, Front(rs));
      assert rs == Front(rs) + [Last(rs)];
    }
  }

  lemma RecordsRoundTrip(c: Codec, t: Tables, rs: seq<UserRecord>)
    requires Lawful(c)
    requires forall r :: r in rs ==> Knows(t, r) && |RecordMsg(c, t, r)| < VARINT_LIMIT
    ensures DecodeRecords(c, RecordMsgs(c, t, rs), t.pks, t.ehks)
         == if forall r :: r in rs ==> IndicesFit(t, r) then Ok(rs) else Err
  {
    hide *;
    forall i | 0 <= i < |rs|
      ensures DecodeRecord(c, RecordMsgs(c, t, rs)[i], t.pks, t.ehks) == if IndicesFit(t, rs[i]) then Ok(rs[i]) else Err
    {
      RecordRoundTrip(c, t, rs[i]);
    }
    DecodeEach(c, RecordMsgs(c, t, rs), t.pks, t.ehks, rs);
    assert (forall r :: r in rs ==> IndicesFit(t, r)) <==> forall i :: 0 <= i < |rs| ==> IndicesFit(t, rs[i]);
  }

  // ---- The whole blob ----

  /** Everything the encoder writes as a varint is below 2^70. Inner lengths
      are bounded by the record message that holds them. */
  ghost predicate Fits(c: Codec, rs: seq<UserRecord>) {
    var t := TablesOf(rs);
    && (forall k :: k in t.pks ==> |c.utf8(k)| < VARINT_LIMIT)
    && (forall k :: k in t.ehks ==> |c.utf8(k)| < VARINT_LIMIT)
    && (forall r :: r in rs ==> |RecordMsg(c, t, r)| < VARINT_LIMIT && IndicesFit(t, r))
  }

  lemma RunFits(num: nat, ps: seq<seq<byte>>)
    requires num <= 4
    ensures forall f :: f in BytesFields(num, ps) ==> FieldKey(f) < VARINT_LIMIT
    ensures (forall f :: f in BytesFields(num, ps) ==> FieldFits(f)) <==> forall p :: p in ps ==> |p| < VARINT_LIMIT
  {
    var fs := BytesFields(num, ps);
    forall f | f in fs
      ensures FieldKey(f) < VARINT_LIMIT
    {
      SmallKeyFits(FieldKey(f));
    }
    if forall f :: f in fs ==> FieldFits(f) {
      forall p | p in ps
        ensures |p| < VARINT_LIMIT
      {
        var i :| 0 <= i < |ps| && ps[i] == p;
        assert fs[i] in fs;
      }
    }
  }

  lemma Utf8sMember(c: Codec, keys: seq<string>)
    ensures (forall p :: p in Utf8s(c, keys) ==> |p| < VARINT_LIMIT)
       <==> forall k :: k in keys ==> |c.utf8(k)| < VARINT_LIMIT
  {
    forall k | k in keys
      ensures c.utf8(k) in Utf8s(c, keys)
    {
      var i :| 0 <= i < |keys| && keys[i] == k;
      assert Utf8s(c, keys)[i] == c.utf8(k);
    }
  }

  lemma RecordMsgsMember(c: Codec, t: Tables, rs: seq<UserRecord>)
    requires forall r :: r in rs ==> Knows(t, r)
    ensures (forall p :: p in RecordMsgs(c, t, rs) ==> |p| < VARINT_LIMIT)
       <==> forall r :: r in rs ==> |RecordMsg(c, t, r)| < VARINT_LIMIT
  {
    forall r | r in rs
      ensures RecordMsg(c, t, r) in RecordMsgs(c, t, rs)
    {
      var i :| 0 <= i < |rs| && rs[i] == r;
      assert RecordMsgs(c, t, rs)[i] == RecordMsg(c, t, r);
    }
  }

  /** The three runs of the payload seen through the decoder's projections. */
  lemma AggregateFieldsProject(c: Codec, pks: seq<string>, ehks: seq<string>, msgs: seq<seq<byte>>)
    ensures var fs := AggregateFields(c, pks, ehks, msgs);
            BytesOf(1, fs) == Utf8s(c, pks) && BytesOf(2, fs) == Utf8s(c, ehks) && BytesOf(3, fs) == msgs
  {
    AggregateFieldsAt(c, pks, ehks, msgs, 1);
    AggregateFieldsAt(c, pks, ehks, msgs, 2);
    AggregateFieldsAt(c, pks, ehks, msgs, 3);
  }

  lemma AggregateFieldsAt(c: Codec, pks: seq<string>, ehks: seq<string>, msgs: seq<seq<byte>>, n: nat)
    ensures BytesOf(n, AggregateFields(c, pks, ehks, msgs))
         == if n == 1 then Utf8s(c, pks) else if n == 2 then Utf8s(c, ehks) else if n == 3 then msgs else []
  {
    var x, y, z := BytesFields(1, Utf8s(c, pks)), BytesFields(2, Utf8s(c, ehks)), BytesFields(3, msgs);
    BytesOfConcat(n, x + y, z);
    BytesOfConcat(n, x, y);
    BytesOfRun(1, n, Utf8s(c, pks));
    BytesOfRun(2, n, Utf8s(c, ehks));
    BytesOfRun(3, n, msgs);
  }

  lemma BatchFieldsFit(c: Codec, rs: seq<UserRecord>)
    ensures var t := TablesOf(rs);
            && (forall f :: f in FieldsOfBatch(c, rs) ==> FieldKey(f) < VARINT_LIMIT)
            && ((forall f :: f in FieldsOfBatch(c, rs) ==> FieldFits(f)) <==>
                 && (forall k :: k in t.pks ==> |c.utf8(k)| < VARINT_LIMIT)
                 && (forall k :: k in t.ehks ==> |c.utf8(k)| < VARINT_LIMIT)
                 && (forall r :: r in rs ==> |RecordMsg(c, t, r)| < VARINT_LIMIT))
  {
    var t := TablesOf(rs);
    var x, y, z := Utf8s(c, t.pks), Utf8s(c, t.ehks), RecordMsgs(c, t, rs);
    RunFits(1, x);
    RunFits(2, y);
    RunFits(3, z);
    Utf8sMember(c, t.pks);
    Utf8sMember(c, t.ehks);
    RecordMsgsMember(c, t, rs);
    assert forall f :: f in FieldsOfBatch(c, rs) <==>
      f in BytesFields(1, x) || f in BytesFields(2, y) || f in BytesFields(3, z);
  }

  lemma BatchFieldsMean(c: Codec, rs: seq<UserRecord>)
    requires Lawful(c)
    ensures var t := TablesOf(rs);
            AggregateMeaning(c, AggregateState([], [], []), FieldsOfBatch(c, rs))
            == Ok(AggregateState(t.pks, t.ehks, RecordMsgs(c, t, rs)))
  {
    var t := TablesOf(rs);
    var msgs := RecordMsgs(c, t, rs);
    AggregateFieldsProject(c, t.pks, t.ehks, msgs);
    TextsRoundTrip(c, t.pks);
    TextsRoundTrip(c, t.ehks);
    assert [] + t.pks == t.pks && [] + t.ehks == t.ehks && [] + msgs == msgs;
  }

  lemma PayloadRoundTrip(c: Codec, rs: seq<UserRecord>)
    requires Lawful(c)
    ensures DecodePayload(c, EncodeFields(FieldsOfBatch(c, rs))) == if Fits(c, rs) then Ok(rs) else Err
  {
    hide RecordMsg, IndicesFit, EncodeFields, ParseFields, Fold, AggregateMeaning, DecodeRecords;
    hide FieldsOfBatch, TablesOf, RecordMsgs, FieldFits;
    BatchFieldsFit(c, rs);
    FieldsRoundTrip(FieldsOfBatch(c, rs));
    AggregateFold(c, AggregateState([], [], []), FieldsOfBatch(c, rs));
    BatchFieldsMean(c, rs);
    if forall r :: r in rs ==> |RecordMsg(c, TablesOf(rs), r)| < VARINT_LIMIT {
      RecordsRoundTrip(c, TablesOf(rs), rs);
    }
  }

  /** For every batch of two or more records, decoding the encoded blob gives
      the records back, in order, exactly when everything fits; otherwise the
      decoder reports an error and never a wrong record. */
  lemma CodecRoundTrip(c: Codec, rs: seq<UserRecord>)
    requires Lawful(c) && |rs| >= 2
    ensures Encode(c, rs).Ok? && IsAggregated(Encode(c, rs).value)
    ensures Decode(c, Encode(c, rs).value) == if Fits(c, rs) then Ok(rs) else Err
  {
    var payload := EncodeFields(FieldsOfBatch(c, rs));
    FrameDecodes(c, payload);
    PayloadRoundTrip(c, rs);
  }
}
