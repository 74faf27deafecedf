/** Exactly which bytes the decoder accepts, and as what. */
module Acceptance {
  import opened Common
  import opened Wire
  import opened Aggregation
  import opened DecoderMeaning

  // ---- Varints and fields ----

  /** The number with these base-128 digits, the least significant first. */
  function Number(bytes: seq<byte>): nat {
    if bytes == [] then 0 else bytes[0] % 128 + 128 * Number(bytes[1..])
  }

  /** The first `n` bytes, at most `most`, are a varint: all but the last carry the
      continuation bit. */
  ghost predicate Reads(s: seq<byte>, n: int, most: int, v: nat) {
    && 1 <= n <= |s| && n <= most && v == Number(s[..n])
    && forall i :: 0 <= i < n ==> (s[i] >= 128 <==> i < n - 1)
  }

  lemma OneDigit(s: seq<byte>)
    requires s != [] && s[0] < 128
    ensures Number(s[..1]) == s[0]
  {
    assert s[..1][1..] == [];
  }

  /** A varint is read from at most ten bytes, padded or not. */
  lemma {:induction false} VarintIff(s: seq<byte>, k: nat, v: nat, n: nat)
    requires k <= 9
    ensures ParseVarint(s, k) == Ok((v, n)) <==> Reads(s, n, 10 - k, v)
    decreases |s|
  {
    if s != [] && s[0] < 128 {
      OneDigit(s);
    } else if s != [] && k < 9 {
      var rest := s[1..];
      if Reads(s, n, 10 - k, v) {
        assert s[..n][1..] == rest[..n - 1];
        assert forall i :: 0 <= i < n - 1 ==> rest[i] == s[i + 1];
        VarintIff(rest, k + 1, Number(rest[..n - 1]), n - 1);
      }
      if ParseVarint(s, k) == Ok((v, n)) {
        var (w, m) := ParseVarint(rest, k + 1).value;
        VarintIff(rest, k + 1, w, m);
        assert s[..n][1..] == rest[..m];
        assert forall i :: 1 <= i < n ==> s[i] == rest[i - 1];
      }
    }
  }

  /** `s` begins with field `f`, which takes `n` bytes: a key of `a` bytes, whose low
      three bits are the wire type, and then the value, or the length and the payload. */
  ghost predicate Begins(s: seq<byte>, f: Field, n: nat, a: nat, b: nat, v: nat) {
    && a <= |s| && Reads(s, a, 10, FieldKey(f)) && Reads(s[a..], b, 10, v)
    && match f
       case Varint(_, value) => v == value && n == a + b
       case Bytes(_, payload) => v == |payload| && n == a + b + v && n <= |s| && s[a + b..n] == payload
  }

  ghost predicate BeginsWith(s: seq<byte>, f: Field, n: nat) {
    exists a: nat, b: nat, v: nat :: Begins(s, f, n, a, b, v)
  }

  /** The decoder reads exactly varint and length-delimited fields. */
  lemma FieldIff(s: seq<byte>, f: Field, n: nat)
    ensures NextField(s) == Ok((f, n)) <==> BeginsWith(s, f, n)
  {
    hide ParseVarint, Reads;
    if NextField(s) == Ok((f, n)) {
      var (key, a) := ParseVarint(s, 0).value;
      var (v, b) := ParseVarint(s[a..], 0).value;
      VarintIff(s, 0, key, a);
      VarintIff(s[a..], 0, v, b);
      assert Begins(s, f, n, a, b, v);
    }
    if BeginsWith(s, f, n) {
      var a: nat, b: nat, v: nat :| Begins(s, f, n, a, b, v);
      VarintIff(s, 0, FieldKey(f), a);
      VarintIff(s[a..], 0, v, b);
      if f.Bytes? {
        assert s[a..][b..b + v] == s[a + b..n];
      }
    }
  }

  /** Field by field, nothing left over. */
  ghost predicate Fields(s: seq<byte>, fs: seq<Field>)
    decreases |fs|
  {
    if fs == [] then s == []
    else exists n: nat :: n <= |s| && BeginsWith(s, fs[0], n) && Fields(s[n..], fs[1..])
  }

  lemma NoField(f: Field, n: nat)
    ensures NextField([]) != Ok((f, n))
  {
  }

  lemma {:induction false} FieldsIff(s: seq<byte>, fs: seq<Field>)
    ensures ParseFields(s) == Ok(fs) <==> Fields(s, fs)
    decreases |s| + |fs|
  {
    hide NextField, BeginsWith;
    if ParseFields(s) == Ok(fs) && s != [] {
      var (f, n) := NextField(s).value;
      FieldIff(s, f, n);
      FieldsIff(s[n..], fs[1..]);
    }
    if Fields(s, fs) && fs != [] {
      var n: nat :| n <= |s| && BeginsWith(s, fs[0], n) && Fields(s[n..], fs[1..]);
      FieldIff(s, fs[0], n);
      FieldsIff(s[n..], fs[1..]);
      NoField(fs[0], n);
      assert [fs[0]] + fs[1..] == fs;
    }
  }

  // ---- Messages ----

  lemma {:induction false} TextsIff(c: Codec, bs: seq<seq<byte>>, ts: seq<string>)
    ensures Texts(c, bs) == Ok(ts) <==> |bs| == |ts| && forall i :: 0 <= i < |bs| ==> c.fromUtf8(bs[i]) == Ok(ts[i])
  {
    if bs != [] && ts != [] {
      TextsIff(c, bs[1..], ts[1..]);
      assert ts == [ts[0]] + ts[1..];
    }
  }

  lemma {:induction false} TagsIff(c: Codec, bs: seq<seq<byte>>, ts: seq<Tag>)
    ensures Tags(c, bs) == Ok(ts) <==> |bs| == |ts| && forall i :: 0 <= i < |bs| ==> DecodeTag(c, bs[i]) == Ok(ts[i])
  {
    hide DecodeTag;
    if bs != [] && ts != [] {
      TagsIff(c, bs[1..], ts[1..]);
      assert ts == [ts[0]] + ts[1..];
    }
  }

  /** These keys and values are text; the last key is the tag's, and the last value,
      if there is one. */
  ghost predicate TagOf(c: Codec, fs: seq<Field>, t: Tag, keys: seq<string>, values: seq<string>) {
    && |keys| == |BytesOf(1, fs)|
    && (forall i :: 0 <= i < |keys| ==> c.fromUtf8(BytesOf(1, fs)[i]) == Ok(keys[i]))
    && |values| == |BytesOf(2, fs)|
    && (forall i :: 0 <= i < |values| ==> c.fromUtf8(BytesOf(2, fs)[i]) == Ok(values[i]))
    && keys != [] && t.key == Last(keys)
    && t.value == if values == [] then None else Some(Last(values))
  }

  /** A tag message is accepted exactly if it has a key and all keys and values are
      text. */
  lemma TagIff(c: Codec, buf: seq<byte>, t: Tag)
    ensures DecodeTag(c, buf) == Ok(t) <==>
              ParseFields(buf).Ok? && exists keys, values :: TagOf(c, ParseFields(buf).value, t, keys, values)
  {
    hide ParseFields, BytesOf, Fold;
    if ParseFields(buf).Ok? {
      var fs := ParseFields(buf).value;
      TagFold(c, TagState(None, None), fs);
      if DecodeTag(c, buf) == Ok(t) {
        var keys, values := Texts(c, BytesOf(1, fs)).value, Texts(c, BytesOf(2, fs)).value;
        TextsIff(c, BytesOf(1, fs), keys);
        TextsIff(c, BytesOf(2, fs), values);
        assert TagOf(c, fs, t, keys, values);
      }
      if exists keys, values :: TagOf(c, fs, t, keys, values) {
        var keys, values :| TagOf(c, fs, t, keys, values);
        TextsIff(c, BytesOf(1, fs), keys);
        TextsIff(c, BytesOf(2, fs), values);
      }
    }
  }

  /** The record has the data, and the keys at the places, that come last, and all
      tags, in order. */
  ghost predicate RecordOf(c: Codec, fs: seq<Field>, pks: seq<string>, ehks: seq<string>, r: UserRecord) {
    && VarintsOf(1, fs) != [] && Last(VarintsOf(1, fs)) < |pks| && r.partitionKey == pks[Last(VarintsOf(1, fs))]
    && BytesOf(3, fs) != [] && r.data == Last(BytesOf(3, fs))
    && (VarintsOf(2, fs) == [] ==> r.explicitHashKey == None)
    && (VarintsOf(2, fs) != [] ==>
          Last(VarintsOf(2, fs)) < |ehks| && r.explicitHashKey == Some(ehks[Last(VarintsOf(2, fs))]))
    && |r.tags| == |BytesOf(4, fs)|
    && (forall i :: 0 <= i < |r.tags| ==> DecodeTag(c, BytesOf(4, fs)[i]) == Ok(r.tags[i]))
  }

  /** A record message is accepted exactly if it has data and a partition key, every
      index is in its table and every tag is accepted. */
  lemma RecordIff(c: Codec, buf: seq<byte>, pks: seq<string>, ehks: seq<string>, r: UserRecord)
    ensures DecodeRecord(c, buf, pks, ehks) == Ok(r) <==>
              ParseFields(buf).Ok? && RecordOf(c, ParseFields(buf).value, pks, ehks, r)
  {
    hide ParseFields, BytesOf, VarintsOf, Fold, DecodeTag, Tags;
    if ParseFields(buf).Ok? {
      var fs := ParseFields(buf).value;
      RecordFold(c, RecordState(None, None, None, []), fs);
      TagsIff(c, BytesOf(4, fs), r.tags);
      if Tags(c, BytesOf(4, fs)).Ok? {
        assert [] + Tags(c, BytesOf(4, fs)).value == Tags(c, BytesOf(4, fs)).value;
      }
    }
  }

  lemma {:induction false} RecordsIff(c: Codec, blobs: seq<seq<byte>>, pks: seq<string>, ehks: seq<string>,
                                      rs: seq<UserRecord>)
    ensures DecodeRecords(c, blobs, pks, ehks) == Ok(rs) <==>
              |blobs| == |rs| && forall i :: 0 <= i < |blobs| ==> DecodeRecord(c, blobs[i], pks, ehks) == Ok(rs[i])
  {
    hide DecodeRecord;
    if blobs != [] && rs != [] {
      RecordsIff(c, Front(blobs), pks, ehks, Front(rs));
      FrontLast(rs);
    }
  }

  /** The tables are the texts of fields 1 and 2, and the records are those of field
      3, in order. */
  ghost predicate PayloadOf(c: Codec, fs: seq<Field>, pks: seq<string>, ehks: seq<string>, rs: seq<UserRecord>) {
    && |pks| == |BytesOf(1, fs)| && (forall i :: 0 <= i < |pks| ==> c.fromUtf8(BytesOf(1, fs)[i]) == Ok(pks[i]))
    && |ehks| == |BytesOf(2, fs)| && (forall i :: 0 <= i < |ehks| ==> c.fromUtf8(BytesOf(2, fs)[i]) == Ok(ehks[i]))
    && |rs| == |BytesOf(3, fs)|
    && (forall i :: 0 <= i < |rs| ==> DecodeRecord(c, BytesOf(3, fs)[i], pks, ehks) == Ok(rs[i]))
  }

  lemma PayloadIff(c: Codec, proto: seq<byte>, rs: seq<UserRecord>)
    ensures DecodePayload(c, proto) == Ok(rs) <==>
              ParseFields(proto).Ok? && exists pks, ehks :: PayloadOf(c, ParseFields(proto).value, pks, ehks, rs)
  {
    hide ParseFields, BytesOf, Fold, DecodeRecord, DecodeRecords;
    if ParseFields(proto).Ok? {
      var fs := ParseFields(proto).value;
      AggregateFold(c, AggregateState([], [], []), fs);
      assert [] + BytesOf(3, fs) == BytesOf(3, fs);
      if DecodePayload(c, proto) == Ok(rs) {
        var pks, ehks := Texts(c, BytesOf(1, fs)).value, Texts(c, BytesOf(2, fs)).value;
        assert [] + pks == pks && [] + ehks == ehks;
        TextsIff(c, BytesOf(1, fs), pks);
        TextsIff(c, BytesOf(2, fs), ehks);
        RecordsIff(c, BytesOf(3, fs), pks, ehks, rs);
        assert PayloadOf(c, fs, pks, ehks, rs);
      }
      if exists pks, ehks :: PayloadOf(c, fs, pks, ehks, rs) {
        var pks, ehks :| PayloadOf(c, fs, pks, ehks, rs);
        assert [] + pks == pks && [] + ehks == ehks;
        TextsIff(c, BytesOf(1, fs), pks);
        TextsIff(c, BytesOf(2, fs), ehks);
        RecordsIff(c, BytesOf(3, fs), pks, ehks, rs);
      }
    }
  }

  /** A blob is accepted exactly if it is the magic, a payload that is, and the digest
      of that payload. */
  lemma BlobIff(c: Codec, blob: seq<byte>, rs: seq<UserRecord>)
    requires Lawful(c)
    ensures Decode(c, blob) == Ok(rs) <==>
              exists p :: blob == [0xF3, 0x89, 0x9A, 0xC2] + p + c.md5(p) && DecodePayload(c, p) == Ok(rs)
  {
    hide DecodePayload;
    if Decode(c, blob) == Ok(rs) {
      var p := blob[|MAGIC|..|blob| - MD5_LEN];
      assert blob == MAGIC + p + c.md5(p);
    }
    if exists p :: blob == [0xF3, 0x89, 0x9A, 0xC2] + p + c.md5(p) && DecodePayload(c, p) == Ok(rs) {
      var p :| blob == [0xF3, 0x89, 0x9A, 0xC2] + p + c.md5(p) && DecodePayload(c, p) == Ok(rs);
      FrameDecodes(c, p);
      assert blob == Frame(c, p);
    }
  }
}
