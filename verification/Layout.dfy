/** The bytes of the aggregated-record format, field by field. */
module Layout {
  import opened Common
  import opened Wire
  import opened Aggregation
  import opened Hashing

  // ---- Varints ----

  /** A varint is the base-128 digits of the value, the least significant first, as
      few as possible; all but the last carry the continuation bit. */
  lemma {:induction false} VarintDigits(v: nat, i: nat)
    requires i < |EncodeVarint(v)|
    ensures var bytes := EncodeVarint(v);
            && bytes[i] % 128 == v / Pow128(i) % 128
            && (bytes[i] >= 128 <==> i < |bytes| - 1)
            && (bytes[|bytes| - 1] != 0 || v == 0)
            && v < Pow128(|bytes|)
  {
    hide Pow128;
    PowUnfold(i);
    PowUnfold(|EncodeVarint(v)|);
    if v > 0x7F {
      var rest := EncodeVarint(v / 128);
      assert EncodeVarint(v) == [v % 128 + 128] + rest;
      if i > 0 {
        VarintDigits(v / 128, i - 1);
        assert EncodeVarint(v)[i] == rest[i - 1];
        ShiftDivide(v / 128, v % 128, 128, Pow128(i - 1));
      } else {
        VarintDigits(v / 128, 0);
      }
      assert v == 128 * (v / 128) + v % 128;
    }
  }

  lemma PowUnfold(k: nat)
    ensures Pow128(k) == if k == 0 then 1 else 128 * Pow128(k - 1)
  {
  }

  // ---- Messages ----

  /** A length-delimited field whose key is the single byte `key`. */
  function Chunk(key: byte, payload: seq<byte>): seq<byte> {
    [key] + EncodeVarint(|payload|) + payload
  }

  function Chunks(key: byte, payloads: seq<seq<byte>>): seq<byte> {
    if payloads == [] then [] else Chunk(key, payloads[0]) + Chunks(key, payloads[1..])
  }

  function Number(key: byte, value: nat): seq<byte> {
    [key] + EncodeVarint(value)
  }

  lemma ChunkIs(num: nat, p: seq<byte>)
    requires num < 16
    ensures EncodeField(Bytes(num, p)) == Chunk(8 * num + 2, p)
  {
    Assoc([(8 * num + 2) as byte], EncodeVarint(|p|), p);
  }

  lemma NumberIs(num: nat, v: nat)
    requires num < 16
    ensures EncodeField(Varint(num, v)) == Number(8 * num, v)
  {
  }

  lemma {:induction false} ChunksAre(num: nat, ps: seq<seq<byte>>)
    requires num < 16
    ensures EncodeFields(BytesFields(num, ps)) == Chunks(8 * num + 2, ps)
  {
    if ps != [] {
      ChunkIs(num, ps[0]);
      ChunksAre(num, ps[1..]);
      assert BytesFields(num, ps)[1..] == BytesFields(num, ps[1..]);
    }
  }

  /** A tag: its key, and its value if it has one. */
  lemma TagLayout(c: Codec, t: Tag)
    ensures TagMsg(c, t)
         == Chunk(0x0A, c.utf8(t.key)) + if t.value.Some? then Chunk(0x12, c.utf8(t.value.value)) else []
  {
    hide EncodeFields, EncodeField, Chunk;
    EncodeNothing();
    ChunkIs(1, c.utf8(t.key));
    OneField(Bytes(1, c.utf8(t.key)));
    if t.value.Some? {
      ChunkIs(2, c.utf8(t.value.value));
      OneField(Bytes(2, c.utf8(t.value.value)));
      EncodeFieldsConcat([Bytes(1, c.utf8(t.key))], [Bytes(2, c.utf8(t.value.value))]);
    } else {
      assert [Bytes(1, c.utf8(t.key))] + [] == [Bytes(1, c.utf8(t.key))];
      assert Chunk(0x0A, c.utf8(t.key)) + [] == Chunk(0x0A, c.utf8(t.key));
    }
  }

  /** The message of one record whose keys stand at these places in the tables. */
  ghost predicate LaidOut(c: Codec, r: UserRecord, pk: nat, ehk: Option<nat>, bytes: seq<byte>) {
    bytes == Number(0x08, pk) + (if ehk.Some? then Number(0x10, ehk.value) else [])
             + Chunk(0x1A, r.data) + Chunks(0x22, TagMsgs(c, r.tags))
  }

  lemma RecordLayout(c: Codec, t: Tables, r: UserRecord)
    requires Knows(t, r)
    ensures LaidOut(c, r, IndexOf(t.pks, r.partitionKey), EhkIndex(t, r), RecordMsg(c, t, r))
  {
    hide EncodeFields, EncodeField, Chunk, Chunks, Number, IndexOf;
    var pk, ehk := IndexOf(t.pks, r.partitionKey), EhkIndex(t, r);
    var first, data, tags := IndexFields(pk, ehk), [Bytes(3, r.data)], BytesFields(4, TagMsgs(c, r.tags));
    EncodeFieldsConcat(first + data, tags);
    EncodeFieldsConcat(first, data);
    ChunkIs(3, r.data);
    OneField(Bytes(3, r.data));
    ChunksAre(4, TagMsgs(c, r.tags));
    IndexLayout(pk, ehk);
  }

  lemma IndexLayout(pk: nat, ehk: Option<nat>)
    ensures EncodeFields(IndexFields(pk, ehk)) == Number(0x08, pk) + if ehk.Some? then Number(0x10, ehk.value) else []
  {
    hide EncodeFields, EncodeField, Number;
    NumberIs(1, pk);
    OneField(Varint(1, pk));
    if ehk.Some? {
      NumberIs(2, ehk.value);
      OneField(Varint(2, ehk.value));
      EncodeFieldsConcat([Varint(1, pk)], [Varint(2, ehk.value)]);
    } else {
      assert [Varint(1, pk)] + [] == [Varint(1, pk)];
      assert Number(0x08, pk) + [] == Number(0x08, pk);
    }
  }

  // ---- Tables ----

  /** Some record before the n-th uses the key. */
  ghost predicate UsedBefore(keys: seq<Option<string>>, n: nat, k: string) {
    exists m :: 0 <= m < n && m < |keys| && keys[m] == Some(k)
  }

  /** Each key that is used, once, in the order of first use. */
  ghost predicate FirstUses(keys: seq<Option<string>>, table: seq<string>) {
    && (forall i, j :: 0 <= i < j < |table| ==> table[i] != table[j])
    && (forall k :: k in table <==> UsedBefore(keys, |keys|, k))
    && (forall i, j, n :: 0 <= i < j < |table| && 0 <= n < |keys| && keys[n] == Some(table[j]) ==>
          UsedBefore(keys, n, table[i]))
  }

  lemma InternUses(keys: seq<Option<string>>, table: seq<string>, k: Option<string>)
    requires FirstUses(keys, table)
    ensures FirstUses(keys + [k], InternOpt(table, k))
  {
    var keys', table' := keys + [k], InternOpt(table, k);
    assert forall n :: 0 <= n < |keys| ==> keys'[n] == keys[n];
    assert forall n, x :: 0 <= n <= |keys| && UsedBefore(keys, n, x) ==> UsedBefore(keys', n, x);
    assert forall n, x :: 0 <= n <= |keys| && UsedBefore(keys', n, x) ==> UsedBefore(keys, n, x);
    forall x
      ensures x in table' <==> UsedBefore(keys', |keys'|, x)
    {
      if x in table' && x !in table {
        assert keys'[|keys|] == Some(x);
      }
      if x in table {
        assert UsedBefore(keys', |keys|, x);
      }
    }
    forall i, j, n | 0 <= i < j < |table'| && 0 <= n < |keys'| && keys'[n] == Some(table'[j])
      ensures UsedBefore(keys', n, table'[i])
    {
      assert i < |table| && table'[i] == table[i] && table[i] in table;
      if n < |keys| {
        assert UsedBefore(keys, |keys|, table'[j]);
        assert j < |table|;
      }
    }
  }

  function PartitionKeysOf(rs: seq<UserRecord>): seq<Option<string>> {
    seq(|rs|, i requires 0 <= i < |rs| => Some(rs[i].partitionKey))
  }

  function ExplicitKeysOf(rs: seq<UserRecord>): seq<Option<string>> {
    seq(|rs|, i requires 0 <= i < |rs| => rs[i].explicitHashKey)
  }

  lemma {:induction false} TablesAreFirstUses(rs: seq<UserRecord>)
    ensures FirstUses(PartitionKeysOf(rs), TablesOf(rs).pks) && FirstUses(ExplicitKeysOf(rs), TablesOf(rs).ehks)
  {
    hide FirstUses;
    if rs == [] {
      NothingUsed();
      assert PartitionKeysOf(rs) == [] && ExplicitKeysOf(rs) == [];
    } else {
      var f, r := Front(rs), Last(rs);
      TablesAreFirstUses(f);
      InternUses(PartitionKeysOf(f), TablesOf(f).pks, Some(r.partitionKey));
      InternUses(ExplicitKeysOf(f), TablesOf(f).ehks, r.explicitHashKey);
      assert PartitionKeysOf(rs) == PartitionKeysOf(f) + [Some(r.partitionKey)];
      assert ExplicitKeysOf(rs) == ExplicitKeysOf(f) + [r.explicitHashKey];
    }
  }

  lemma NothingUsed()
    ensures FirstUses([], [])
  {
  }

  // ---- The blob ----

  /** The blob of a batch in bytes: the magic, the two tables, the records with the
      places of their keys in the tables, and the digest of what lies between. */
  ghost predicate Written(c: Codec, rs: seq<UserRecord>, pks: seq<string>, ehks: seq<string>, msgs: seq<seq<byte>>,
                          blob: seq<byte>) {
    && FirstUses(PartitionKeysOf(rs), pks) && FirstUses(ExplicitKeysOf(rs), ehks)
    && |msgs| == |rs|
    && (forall i :: 0 <= i < |rs| ==> Placed(c, rs[i], pks, ehks, msgs[i]))
    && var payload := Chunks(0x0A, Utf8s(c, pks)) + Chunks(0x12, Utf8s(c, ehks)) + Chunks(0x1A, msgs);
       blob == [0xF3, 0x89, 0x9A, 0xC2] + payload + c.md5(payload)
  }

  ghost predicate Placed(c: Codec, r: UserRecord, pks: seq<string>, ehks: seq<string>, msg: seq<byte>) {
    exists pk: nat, ehk: Option<nat> ::
      && pk < |pks| && pks[pk] == r.partitionKey
      && (ehk.Some? <==> r.explicitHashKey.Some?)
      && (ehk.Some? ==> ehk.value < |ehks| && Some(ehks[ehk.value]) == r.explicitHashKey)
      && LaidOut(c, r, pk, ehk, msg)
  }

  /** Two or more records are written as that; one record as its own bytes. */
  lemma BlobLayout(c: Codec, rs: seq<UserRecord>)
    requires rs != []
    ensures Encode(c, rs).Ok?
    ensures |rs| == 1 ==> Encode(c, rs).value == rs[0].data
    ensures |rs| > 1 ==> exists pks, ehks, msgs :: Written(c, rs, pks, ehks, msgs, Encode(c, rs).value)
  {
    hide EncodeFields, Chunks, LaidOut, FirstUses, IndexOf, RecordMsg;
    var t := TablesOf(rs);
    var msgs := RecordMsgs(c, t, rs);
    TablesAreFirstUses(rs);
    forall i | 0 <= i < |rs|
      ensures Placed(c, rs[i], t.pks, t.ehks, msgs[i])
    {
      assert rs[i] in rs;
      RecordLayout(c, t, rs[i]);
    }
    PayloadLayout(c, t.pks, t.ehks, msgs);
    if |rs| > 1 {
      assert Written(c, rs, t.pks, t.ehks, msgs, Encode(c, rs).value);
    }
  }

  lemma PayloadLayout(c: Codec, pks: seq<string>, ehks: seq<string>, msgs: seq<seq<byte>>)
    ensures EncodeFields(AggregateFields(c, pks, ehks, msgs))
         == Chunks(0x0A, Utf8s(c, pks)) + Chunks(0x12, Utf8s(c, ehks)) + Chunks(0x1A, msgs)
  {
    hide EncodeFields, Chunks;
    var a, b, m := BytesFields(1, Utf8s(c, pks)), BytesFields(2, Utf8s(c, ehks)), BytesFields(3, msgs);
    EncodeFieldsConcat(a + b, m);
    EncodeFieldsConcat(a, b);
    ChunksAre(1, Utf8s(c, pks));
    ChunksAre(2, Utf8s(c, ehks));
    ChunksAre(3, msgs);
  }
}
