/** How far the running size estimate of a batch is from the bytes the batch
    encodes to. */
module SizeBound {
  import opened Common
  import opened Wire
  import opened Aggregation
  import opened Records
  import opened Batches

  // ---- Lengths on the wire ----

  lemma {:induction false} VarintLength(v: nat)
    ensures v < 0x20_0000 ==> |EncodeVarint(v)| <= 3
    ensures v < 128 ==> |EncodeVarint(v)| == 1
  {
    if v > 0x7F {
      assert EncodeVarint(v) == [v % 128 + 128] + EncodeVarint(v / 128);
      if v / 128 > 0x7F {
        assert EncodeVarint(v / 128) == [v / 128 % 128 + 128] + EncodeVarint(v / 128 / 128);
      }
    }
  }

  /** The length of a length-delimited field numbered below 16. */
  function DelimitedLength(p: seq<byte>): nat {
    1 + |EncodeVarint(|p|)| + |p|
  }

  function RunLength(ps: seq<seq<byte>>): nat {
    if ps == [] then 0 else RunLength(Front(ps)) + DelimitedLength(Last(ps))
  }

  lemma {:induction false} EncodeRun(num: nat, ps: seq<seq<byte>>)
    requires num < 16
    ensures |EncodeFields(BytesFields(num, ps))| == RunLength(ps)
  {
    hide EncodeFields, EncodeField, DelimitedLength;
    var fs := BytesFields(num, ps);
    if ps == [] {
      assert fs == [];
      EncodeNothing();
    } else {
      EncodeRun(num, Front(ps));
      assert fs == BytesFields(num, Front(ps)) + [Last(fs)];
      EncodeFieldsConcat(BytesFields(num, Front(ps)), [Last(fs)]);
      OneField(Last(fs));
      DelimitedFieldLength(num, Last(ps));
    }
  }

  lemma DelimitedFieldLength(num: nat, p: seq<byte>)
    requires num < 16
    ensures |EncodeField(Bytes(num, p))| == DelimitedLength(p)
  {
    VarintLength(FieldKey(Bytes(num, p)));
  }

  lemma PayloadLength(c: Codec, rs: seq<UserRecord>)
    ensures var t := TablesOf(rs);
            |EncodeFields(FieldsOfBatch(c, rs))|
            == RunLength(Utf8s(c, t.pks)) + RunLength(Utf8s(c, t.ehks)) + RunLength(RecordMsgs(c, t, rs))
  {
    hide EncodeFields, RunLength, RecordMsg;
    var t := TablesOf(rs);
    var x, y, z := Utf8s(c, t.pks), Utf8s(c, t.ehks), RecordMsgs(c, t, rs);
    EncodeFieldsConcat(BytesFields(1, x) + BytesFields(2, y), BytesFields(3, z));
    EncodeFieldsConcat(BytesFields(1, x), BytesFields(2, y));
    EncodeRun(1, x);
    EncodeRun(2, y);
    EncodeRun(3, z);
  }

  // ---- The estimate in terms of the tables ----

  function KeyCosts(c: Codec, keys: seq<string>): nat {
    if keys == [] then 0 else KeyCosts(c, Front(keys)) + KeyCost(c, Last(keys))
  }

  function DataCosts(rs: seq<UserRecord>): nat {
    if rs == [] then 0
    else DataCosts(Front(rs)) + (RECORD_FRAMING + |Last(rs).data| + FIELD_FRAMING + INDEX_REFERENCE)
  }

  /** The dedup sets of the estimator are the dedup tables of the encoder. */
  lemma {:induction false} SetsAreTables(items: seq<Buffered>)
    ensures var t := TablesOf(UserRecords(items));
            && (forall k :: k in t.pks <==> k in PartitionKeys(items))
            && (forall k :: k in t.ehks <==> k in ExplicitHashKeys(items))
  {
    if items != [] {
      SetsAreTables(Front(items));
      assert items == Front(items) + [Last(items)];
      assert Front(UserRecords(items)) == UserRecords(Front(items));
      KeysSnoc(Front(items), Last(items));
    }
  }

  lemma InternCost(c: Codec, table: seq<string>, k: string)
    ensures KeyCosts(c, Intern(table, k)) == KeyCosts(c, table) + if k in table then 0 else KeyCost(c, k)
  {
    assert Front(table + [k]) == table;
  }

  /** The running estimate is the sum over records and distinct keys. */
  lemma {:induction false} EstimateIsSum(c: Codec, items: seq<Buffered>)
    ensures var rs := UserRecords(items);
            EstimatedSize(c, items)
            == DataCosts(rs) + KeyCosts(c, TablesOf(rs).pks) + KeyCosts(c, TablesOf(rs).ehks)
  {
    hide KeyCosts;
    if items == [] {
      NoKeysNoCost(c);
    } else {
      var rs, last := UserRecords(items), Last(items).userRecord;
      EstimateIsSum(c, Front(items));
      SetsAreTables(Front(items));
      assert Front(rs) == UserRecords(Front(items)) && Last(rs) == last;
      var t := TablesOf(Front(rs));
      InternCost(c, t.pks, last.partitionKey);
      if last.explicitHashKey.Some? {
        InternCost(c, t.ehks, last.explicitHashKey.value);
      }
    }
  }

  lemma NoKeysNoCost(c: Codec)
    ensures KeyCosts(c, []) == 0
  {
  }

  lemma {:induction false} TableSizes(rs: seq<UserRecord>)
    ensures |TablesOf(rs).pks| <= |rs| && |TablesOf(rs).ehks| <= ExplicitCount(rs)
  {
    if rs != [] {
      TableSizes(Front(rs));
    }
  }

  function ExplicitCount(rs: seq<UserRecord>): nat {
    if rs == [] then 0 else ExplicitCount(Front(rs)) + if Last(rs).explicitHashKey.Some? then 1 else 0
  }

  // ---- Key tables ----

  lemma {:induction false} KeyRun(c: Codec, keys: seq<string>)
    ensures RunLength(Utf8s(c, keys)) + |keys| >= KeyCosts(c, keys)
    ensures (forall k :: k in keys ==> |c.utf8(k)| < 0x20_0000) ==> RunLength(Utf8s(c, keys)) <= 2 * KeyCosts(c, keys)
  {
    if keys != [] {
      var ps := Utf8s(c, keys);
      KeyRun(c, Front(keys));
      assert keys == Front(keys) + [Last(keys)];
      assert Front(ps) == Utf8s(c, Front(keys));
      VarintLength(|Last(ps)|);
    }
  }

  lemma {:induction false} KeyCostsBound(c: Codec, keys: seq<string>, k: string)
    requires k in keys
    ensures |c.utf8(k)| < KeyCosts(c, keys)
  {
    assert keys == Front(keys) + [Last(keys)];
    if k != Last(keys) {
      KeyCostsBound(c, Front(keys), k);
    }
  }

  // ---- Record messages ----

  lemma RecordMsgLength(c: Codec, t: Tables, r: UserRecord)
    requires Knows(t, r) && r.tags == []
    ensures var pk := IndexOf(t.pks, r.partitionKey);
            |RecordMsg(c, t, r)| == 1 + |EncodeVarint(pk)| + DelimitedLength(r.data)
              + match EhkIndex(t, r) case None => 0 case Some(e) => 1 + |EncodeVarint(e)|
  {
    var pk, ehk := IndexOf(t.pks, r.partitionKey), EhkIndex(t, r);
    var ix, d := IndexFields(pk, ehk), [Bytes(3, r.data)];
    assert BytesFields(4, TagMsgs(c, r.tags)) == [];
    assert FieldsOfRecord(c, t, r) == ix + d;
    EncodeFieldsConcat(ix, d);
    OneField(d[0]);
    OneField(Varint(1, pk));
    VarintLength(FieldKey(d[0]));
    VarintLength(FieldKey(Varint(1, pk)));
    if ehk.Some? {
      EncodeFieldsConcat([Varint(1, pk)], [Varint(2, ehk.value)]);
      OneField(Varint(2, ehk.value));
      VarintLength(FieldKey(Varint(2, ehk.value)));
    } else {
      assert ix == [Varint(1, pk)];
    }
  }

  ghost predicate SmallRecord(t: Tables, r: UserRecord) {
    |t.pks| < 0x10_0000 && |t.ehks| < 0x10_0000 && |r.data| < 0x10_0000
  }

  lemma RecordBounds(c: Codec, t: Tables, r: UserRecord)
    requires Knows(t, r) && r.tags == []
    ensures var len := DelimitedLength(RecordMsg(c, t, r));
            && len >= 6 + |r.data| + (if r.explicitHashKey.Some? then 2 else 0)
            && (SmallRecord(t, r) ==> len <= 16 + |r.data|)
  {
    hide RecordMsg, EncodeVarint;
    RecordMsgLength(c, t, r);
    VarintLength(IndexOf(t.pks, r.partitionKey));
    VarintLength(|r.data|);
    VarintLength(|RecordMsg(c, t, r)|);
    if r.explicitHashKey.Some? {
      VarintLength(IndexOf(t.ehks, r.explicitHashKey.value));
    }
  }

  lemma {:induction false} RecordRun(c: Codec, t: Tables, rs: seq<UserRecord>)
    requires forall r :: r in rs ==> Knows(t, r) && r.tags == []
    ensures RunLength(RecordMsgs(c, t, rs)) + 2 * |rs| >= DataCosts(rs) + 2 * ExplicitCount(rs)
    ensures (forall r :: r in rs ==> SmallRecord(t, r)) ==> RunLength(RecordMsgs(c, t, rs)) <= 2 * DataCosts(rs)
  {
    hide RecordMsg, SmallRecord, DelimitedLength;
    if rs != [] {
      var ms := RecordMsgs(c, t, rs);
      assert rs == Front(rs) + [Last(rs)];
      assert Front(ms) == RecordMsgs(c, t, Front(rs)) && Last(ms) == RecordMsg(c, t, Last(rs));
      RecordRun(c, t, Front(rs));
      RecordBounds(c, t, Last(rs));
    }
  }

  lemma {:induction false} DataCostsBound(rs: seq<UserRecord>, r: UserRecord)
    requires r in rs
    ensures |r.data| + 8 <= DataCosts(rs) && 8 * |rs| <= DataCosts(rs)
  {
    assert rs == Front(rs) + [Last(rs)];
    if r in Front(rs) {
      DataCostsBound(Front(rs), r);
    } else if Front(rs) != [] {
      DataCostsBound(Front(rs), Front(rs)[0]);
    }
  }

  // ---- The bound ----

  /** For every tag-free batch of n records, n at least two: the encoded length
      is at least the estimate plus 20 minus 3n, and up to an estimate of 1 MiB it
      is at most twice the estimate plus 20. */
  lemma EstimateBound(c: Codec, items: seq<Buffered>)
    requires Lawful(c) && |items| >= 2 && forall i :: 0 <= i < |items| ==> items[i].userRecord.tags == []
    ensures var blob := Encode(c, UserRecords(items));
            && blob.Ok?
            && EstimatedSize(c, items) + 20 <= |blob.value| + 3 * |items|
            && (EstimatedSize(c, items) <= 0x10_0000 ==> |blob.value| <= 2 * EstimatedSize(c, items) + 20)
  {
    hide RecordMsg, RunLength, KeyCosts, DataCosts, EncodeFields, TablesOf, ExplicitCount, FieldsOfBatch, EstimatedSize;
    var rs := UserRecords(items);
    var t := TablesOf(rs);
    var size := EstimatedSize(c, items);
    PayloadLength(c, rs);
    EstimateIsSum(c, items);
    TableSizes(rs);
    KeyRun(c, t.pks);
    KeyRun(c, t.ehks);
    RecordRun(c, t, rs);
    assert |Frame(c, EncodeFields(FieldsOfBatch(c, rs)))| == 20 + |EncodeFields(FieldsOfBatch(c, rs))|;
    if size <= 0x10_0000 {
      forall k | k in t.pks || k in t.ehks
        ensures |c.utf8(k)| < 0x20_0000
      {
        if k in t.pks {
          KeyCostsBound(c, t.pks, k);
        } else {
          KeyCostsBound(c, t.ehks, k);
        }
      }
      ExplicitCountBound(rs);
      forall r | r in rs
        ensures SmallRecord(t, r)
      {
        DataCostsBound(rs, r);
      }
    }
  }

  lemma {:induction false} ExplicitCountBound(rs: seq<UserRecord>)
    ensures ExplicitCount(rs) <= |rs|
  {
    if rs != [] {
      ExplicitCountBound(Front(rs));
    }
  }
}
