/** The encoder, builder and decoder loops of aiokpl/aggregation.py, each
    proved equal to its specification in `Aggregation`. */
module AggregationCode {
  import opened Common
  import opened Wire
  import opened Aggregation

  lemma EncodeFieldsSnoc(fs: seq<Field>, f: Field)
    ensures EncodeFields(fs + [f]) == EncodeFields(fs) + EncodeField(f)
  {
    EncodeFieldsConcat(fs, [f]);
    assert EncodeFields([f]) == EncodeField(f) by {
      assert [f][1..] == [];
      assert EncodeField(f) + [] == EncodeField(f);
    }
  }

  /** Appends one length-delimited field per payload. */
  method AppendRun(num: nat, payloads: seq<seq<byte>>, fs: seq<Field>, out: seq<byte>) returns (r: seq<byte>)
    requires out == EncodeFields(fs)
    ensures r == EncodeFields(fs + BytesFields(num, payloads))
  {
    hide EncodeFields, EncodeField;
    r := out;
    assert fs + BytesFields(num, payloads[..0]) == fs;
    for i := 0 to |payloads|
      invariant r == EncodeFields(fs + BytesFields(num, payloads[..i]))
    {
      var before := fs + BytesFields(num, payloads[..i]);
      r := AppendLengthDelimited(num, payloads[i], r);
      EncodeFieldsSnoc(before, Bytes(num, payloads[i]));
      assert before + [Bytes(num, payloads[i])] == fs + BytesFields(num, payloads[..i + 1]);
    }
    assert payloads[..|payloads|] == payloads;
  }

  method EncodeTagMsg(c: Codec, t: Tag) returns (out: seq<byte>)
    ensures out == TagMsg(c, t)
  {
    var key := Bytes(1, c.utf8(t.key));
    out := AppendLengthDelimited(1, c.utf8(t.key), []);
    EncodeFieldsSnoc([], key);
    assert [] + [key] == [key] && EncodeFields([]) == [];
    if t.value.Some? {
      out := AppendLengthDelimited(2, c.utf8(t.value.value), out);
      EncodeFieldsSnoc([key], Bytes(2, c.utf8(t.value.value)));
    }
  }

  method EncodeRecordMsg(c: Codec, pk: nat, ehk: Option<nat>, data: seq<byte>, tags: seq<Tag>) returns (out: seq<byte>)
    ensures out == EncodeFields(RecordFields(c, pk, ehk, data, tags))
  {
    hide EncodeField, TagMsg;
    var fs := IndexFields(pk, ehk);
    out := AppendUint64(1, pk, []);
    EncodeFieldsSnoc([], Varint(1, pk));
    assert [] + [Varint(1, pk)] == [Varint(1, pk)] && EncodeFields([]) == [];
    if ehk.Some? {
      out := AppendUint64(2, ehk.value, out);
      EncodeFieldsSnoc([Varint(1, pk)], Varint(2, ehk.value));
    }
    assert out == EncodeFields(fs);
    out := AppendLengthDelimited(3, data, out);
    EncodeFieldsSnoc(fs, Bytes(3, data));
    var msgs := [];
    for i := 0 to |tags|
      invariant |msgs| == i && forall j :: 0 <= j < i ==> msgs[j] == TagMsg(c, tags[j])
    {
      var m := EncodeTagMsg(c, tags[i]);
      msgs := msgs + [m];
    }
    assert msgs == TagMsgs(c, tags);
    out := AppendRun(4, msgs, fs + [Bytes(3, data)], out);
  }

  // ---- The builder ----

  /** `index` is the inverse of the duplicate-free `table`. */
  ghost predicate Inverse(table: seq<string>, index: map<string, nat>) {
    && (forall k :: k in index <==> k in table)
    && (forall k :: k in index ==> index[k] == IndexOf(table, k))
  }

  lemma {:induction false} IndexOfIntern(table: seq<string>, x: string, k: string)
    requires k in table
    ensures k in Intern(table, x) && IndexOf(Intern(table, x), k) == IndexOf(table, k)
  {
    var t, i := Intern(table, x), IndexOf(table, k);
    assert t[i] == k && k !in t[..i] by {
      assert t[..i] == table[..i];
    }
    FirstIndex(t, k, i);
  }

  lemma FirstIndex(table: seq<string>, k: string, i: nat)
    requires i < |table| && table[i] == k && k !in table[..i]
    ensures IndexOf(table, k) == i
  {
  }

  lemma InverseIntern(table: seq<string>, index: map<string, nat>, k: string)
    requires Inverse(table, index)
    ensures Inverse(Intern(table, k), if k in index then index else index[k := |table|])
  {
    var t := Intern(table, k);
    forall x | x in table
      ensures x in t && IndexOf(t, x) == IndexOf(table, x)
    {
      IndexOfIntern(table, k, x);
    }
    if k !in table {
      FirstIndex(t, k, |table|);
    }
  }

  /** Messages written earlier stay right when the tables grow. */
  lemma RecordMsgStable(c: Codec, t: Tables, u: Tables, r: UserRecord)
    requires Knows(t, r)
    requires forall k :: k in t.pks ==> k in u.pks && IndexOf(u.pks, k) == IndexOf(t.pks, k)
    requires forall k :: k in t.ehks ==> k in u.ehks && IndexOf(u.ehks, k) == IndexOf(t.ehks, k)
    ensures Knows(u, r) && RecordMsg(c, u, r) == RecordMsg(c, t, r)
  {
  }

  lemma TablesGrow(rs: seq<UserRecord>, r: UserRecord)
    ensures var (t, u) := (TablesOf(rs), TablesOf(rs + [r]));
            && u == Tables(Intern(t.pks, r.partitionKey), InternOpt(t.ehks, r.explicitHashKey))
            && (forall k :: k in t.pks ==> k in u.pks && IndexOf(u.pks, k) == IndexOf(t.pks, k))
            && (forall k :: k in t.ehks ==> k in u.ehks && IndexOf(u.ehks, k) == IndexOf(t.ehks, k))
  {
    assert Front(rs + [r]) == rs && Last(rs + [r]) == r;
    var t := TablesOf(rs);
    forall k | k in t.pks
      ensures k in Intern(t.pks, r.partitionKey) && IndexOf(Intern(t.pks, r.partitionKey), k) == IndexOf(t.pks, k)
    {
      IndexOfIntern(t.pks, r.partitionKey, k);
    }
    if r.explicitHashKey.Some? {
      var x := r.explicitHashKey.value;
      forall k | k in t.ehks
        ensures k in Intern(t.ehks, x) && IndexOf(Intern(t.ehks, x), k) == IndexOf(t.ehks, k)
      {
        IndexOfIntern(t.ehks, x, k);
      }
    }
  }

  lemma RecordMsgsGrow(c: Codec, rs: seq<UserRecord>, r: UserRecord)
    ensures var u := TablesOf(rs + [r]);
            RecordMsgs(c, u, rs + [r]) == RecordMsgs(c, TablesOf(rs), rs) + [RecordMsg(c, u, r)]
  {
    hide RecordMsg, TablesOf;
    var t, u := TablesOf(rs), TablesOf(rs + [r]);
    TablesGrow(rs, r);
    forall i | 0 <= i < |rs|
      ensures Knows(u, rs[i]) && RecordMsg(c, u, rs[i]) == RecordMsg(c, t, rs[i])
    {
      RecordMsgStable(c, t, u, rs[i]);
    }
  }

  /** The lookup-or-append step on a table and its dictionary. */
  method InternKey(table: seq<string>, index: map<string, nat>, k: string)
      returns (table': seq<string>, index': map<string, nat>, i: nat)
    requires Inverse(table, index)
    ensures table' == Intern(table, k) && Inverse(table', index')
    ensures k in table' && i == IndexOf(table', k)
  {
    InverseIntern(table, index, k);
    if k in index {
      return table, index, index[k];
    }
    return table + [k], index[k := |table|], |table|;
  }

  class AggregatedBuilder {
    const c: Codec
    var partitionKeys: seq<string>
    var explicitHashKeys: seq<string>
    var pkIndex: map<string, nat>
    var ehkIndex: map<string, nat>
    var records: seq<seq<byte>>
    ghost var added: seq<UserRecord>

    /** The dedup-table invariant: the lists are the tables of the records
        added so far, the dictionaries their inverses, and every message
        refers to its keys. */
    ghost predicate Valid()
      reads this
    {
      && TablesOf(added) == Tables(partitionKeys, explicitHashKeys)
      && Inverse(partitionKeys, pkIndex)
      && Inverse(explicitHashKeys, ehkIndex)
      && records == RecordMsgs(c, TablesOf(added), added)
    }

    constructor (c: Codec)
      ensures Valid() && added == [] && this.c == c
    {
      this.c := c;
      partitionKeys, explicitHashKeys, pkIndex, ehkIndex, records := [], [], map[], map[], [];
      added := [];
    }

    method Add(r: UserRecord)
      requires Valid()
      modifies this
      ensures Valid() && added == old(added) + [r]
    {
      hide EncodeFields, RecordFields, IndexOf, TablesOf, RecordMsgs, Inverse, Intern;
      TablesGrow(added, r);
      RecordMsgsGrow(c, added, r);
      var idx;
      partitionKeys, pkIndex, idx := InternKey(partitionKeys, pkIndex, r.partitionKey);
      var ehkIdx := None;
      if r.explicitHashKey.Some? {
        var i;
        explicitHashKeys, ehkIndex, i := InternKey(explicitHashKeys, ehkIndex, r.explicitHashKey.value);
        ehkIdx := Some(i);
      }
      var msg := EncodeRecordMsg(c, idx, ehkIdx, r.data, r.tags);
      records := records + [msg];
      added := added + [r];
    }

    method Serialize() returns (out: seq<byte>)
      requires Valid()
      ensures out == EncodeFields(FieldsOfBatch(c, added))
    {
      hide EncodeFields, RecordMsg;
      assert EncodeFields([]) == [] by {
        EncodeNothing();
      }
      var pks := EncodeTexts(c, partitionKeys);
      out := AppendRun(1, pks, [], []);
      var x := BytesFields(1, pks);
      assert [] + x == x;
      var ehks := EncodeTexts(c, explicitHashKeys);
      out := AppendRun(2, ehks, x, out);
      out := AppendRun(3, records, x + BytesFields(2, ehks), out);
    }
  }

  method EncodeTexts(c: Codec, keys: seq<string>) returns (r: seq<seq<byte>>)
    ensures r == Utf8s(c, keys)
  {
    r := [];
    for i := 0 to |keys|
      invariant |r| == i && forall j :: 0 <= j < i ==> r[j] == c.utf8(keys[j])
    {
      r := r + [c.utf8(keys[i])];
    }
  }

  /** `encode_aggregated`. */
  method EncodeAggregated(c: Codec, rs: seq<UserRecord>) returns (r: Result<seq<byte>>)
    ensures r == Encode(c, rs)
  {
    hide EncodeFields, FieldsOfBatch, AggregatedBuilder.Valid;
    if rs == [] {
      return Err;
    }
    if |rs| == 1 {
      return Ok(rs[0].data);
    }
    var builder := new AggregatedBuilder(c);
    for i := 0 to |rs|
      invariant builder.Valid() && builder.added == rs[..i] && fresh(builder)
    {
      builder.Add(rs[i]);
      assert rs[..i] + [rs[i]] == rs[..i + 1];
    }
    assert rs[..|rs|] == rs;
    var payload := builder.Serialize();
    r := Ok(MAGIC + payload + c.md5(payload));
  }

  // ---- The decoders ----

  method DecodeTagMsg(c: Codec, buf: seq<byte>) returns (r: Result<Tag>)
    ensures r == DecodeTag(c, buf)
  {
    hide FoldBytes, NextField, ParseVarint;
    var key: Option<string>, value: Option<string>, pos: nat := None, None, 0;
    assert Rest(buf, 0) == buf;
    while pos < |buf|
      invariant pos <= |buf|
      invariant DecodeTag(c, buf) == FinishTag(FoldBytes(TagStep(c), TagState(key, value), Rest(buf, pos)))
      decreases |buf| - pos
    {
      FieldAt(buf, pos);
      DecoderStep(TagStep(c), TagState(key, value), buf, pos);
      var k := ReadVarint(buf, pos);
      if k.Err? {
        return Err;
      }
      var (tag, start) := k.value;
      var num, wire := tag / 8, tag % 8;
      if (num == 1 || num == 2) && wire == WIRE_LENGTH_DELIMITED {
        var d := ReadDelimited(buf, start);
        if d.Err? {
          return Err;
        }
        var text := c.fromUtf8(d.value.0);
        if text.Err? {
          return Err;
        }
        if num == 1 {
          key := Some(text.value);
        } else {
          value := Some(text.value);
        }
        pos := d.value.1;
      } else {
        var next := SkipUnknown(buf, start, wire);
        if next.Err? {
          return Err;
        }
        pos := next.value;
      }
    }
    assert Rest(buf, pos) == [];
    FoldNothing(TagStep(c), TagState(key, value));
    r := if key.None? then Err else Ok(Tag(key.value, value));
  }

  lemma FoldNothing<S>(step: (S, Field) -> Result<S>, st: S)
    ensures FoldBytes(step, st, []) == Ok(st)
  {
  }

  method DecodeRecordMsg(c: Codec, buf: seq<byte>, pks: seq<string>, ehks: seq<string>) returns (r: Result<UserRecord>)
    ensures r == DecodeRecord(c, buf, pks, ehks)
  {
    hide FoldBytes, NextField, ParseVarint, DecodeTag, FinishRecord;
    FailedRecord(pks, ehks);
    var st, pos: nat := RecordState(None, None, None, []), 0;
    assert Rest(buf, 0) == buf;
    while pos < |buf|
      invariant pos <= |buf|
      invariant DecodeRecord(c, buf, pks, ehks) == FinishRecord(FoldBytes(RecordStep(c), st, Rest(buf, pos)), pks, ehks)
      decreases |buf| - pos
    {
      FieldAt(buf, pos);
      DecoderStep(RecordStep(c), st, buf, pos);
      var k := ReadVarint(buf, pos);
      if k.Err? {
        return Err;
      }
      var (tag, start) := k.value;
      var num, wire := tag / 8, tag % 8;
      if (num == 1 || num == 2) && wire == WIRE_VARINT {
        var v := ReadVarint(buf, start);
        if v.Err? {
          return Err;
        }
        st := if num == 1 then st.(pk := Some(v.value.0)) else st.(ehk := Some(v.value.0));
        pos := v.value.1;
      } else if (num == 3 || num == 4) && wire == WIRE_LENGTH_DELIMITED {
        var d := ReadDelimited(buf, start);
        if d.Err? {
          return Err;
        }
        if num == 3 {
          st := st.(data := Some(d.value.0));
        } else {
          var t := DecodeTagMsg(c, d.value.0);
          if t.Err? {
            return Err;
          }
          st := st.(tags := st.tags + [t.value]);
        }
        pos := d.value.1;
      } else {
        var next := SkipUnknown(buf, start, wire);
        if next.Err? {
          return Err;
        }
        pos := next.value;
      }
    }
    assert Rest(buf, pos) == [];
    FoldNothing(RecordStep(c), st);
    r := CheckRecord(st, pks, ehks);
  }

  lemma FailedRecord(pks: seq<string>, ehks: seq<string>)
    ensures FinishRecord(Err, pks, ehks) == Err
  {
  }

  /** The checks after the loop: required fields and table bounds. */
  method CheckRecord(st: RecordState, pks: seq<string>, ehks: seq<string>) returns (r: Result<UserRecord>)
    ensures r == FinishRecord(Ok(st), pks, ehks)
  {
    if st.pk.None? || st.data.None? || st.pk.value >= |pks| {
      return Err;
    }
    var ehk := None;
    if st.ehk.Some? {
      if st.ehk.value >= |ehks| {
        return Err;
      }
      ehk := Some(ehks[st.ehk.value]);
    }
    r := Ok(UserRecord(pks[st.pk.value], st.data.value, ehk, st.tags));
  }

  /** `decode_aggregated`. A blob that decodes carries the magic number and the
      checksum of its payload. */
  method DecodeAggregated(c: Codec, blob: seq<byte>) returns (r: Result<seq<UserRecord>>)
    requires Lawful(c)
    ensures r == Decode(c, blob)
    ensures r.Ok? ==> exists p :: blob == Frame(c, p)
  {
    if !IsAggregated(blob) {
      return Err;
    }
    var proto := blob[|MAGIC|..|blob| - MD5_LEN];
    if c.md5(proto) != blob[|blob| - MD5_LEN..] {
      return Err;
    }
    r := DecodeProto(c, proto);
    assert blob == Frame(c, proto);
  }

  /** The field loop and the final comprehension of `decode_aggregated`. */
  method DecodeProto(c: Codec, proto: seq<byte>) returns (r: Result<seq<UserRecord>>)
    ensures r == DecodePayload(c, proto)
  {
    hide FoldBytes, NextField, ParseVarint, DecodeRecord;
    var st, pos: nat := AggregateState([], [], []), 0;
    assert Rest(proto, 0) == proto;
    while pos < |proto|
      invariant pos <= |proto|
      invariant DecodePayload(c, proto) == FinishAggregate(c, FoldBytes(AggregateStep(c), st, Rest(proto, pos)))
      decreases |proto| - pos
    {
      FieldAt(proto, pos);
      DecoderStep(AggregateStep(c), st, proto, pos);
      var k := ReadVarint(proto, pos);
      if k.Err? {
        return Err;
      }
      var (tag, start) := k.value;
      var num, wire := tag / 8, tag % 8;
      if (num == 1 || num == 2 || num == 3) && wire == WIRE_LENGTH_DELIMITED {
        var d := ReadDelimited(proto, start);
        if d.Err? {
          return Err;
        }
        if num == 3 {
          st := st.(blobs := st.blobs + [d.value.0]);
        } else {
          var text := c.fromUtf8(d.value.0);
          if text.Err? {
            return Err;
          }
          st := if num == 1 then st.(pks := st.pks + [text.value]) else st.(ehks := st.ehks + [text.value]);
        }
        pos := d.value.1;
      } else {
        var next := SkipUnknown(proto, start, wire);
        if next.Err? {
          return Err;
        }
        pos := next.value;
      }
    }
    assert Rest(proto, pos) == [];
    FoldNothing(AggregateStep(c), st);
    r := DecodeBlobs(c, st);
  }

  method DecodeBlobs(c: Codec, st: AggregateState) returns (r: Result<seq<UserRecord>>)
    ensures r == DecodeRecords(c, st.blobs, st.pks, st.ehks)
  {
    hide DecodeRecord;
    var rs := [];
    for i := 0 to |st.blobs|
      invariant DecodeRecords(c, st.blobs[..i], st.pks, st.ehks) == Ok(rs)
    {
      var d := DecodeRecordMsg(c, st.blobs[i], st.pks, st.ehks);
      assert Front(st.blobs[..i + 1]) == st.blobs[..i] && Last(st.blobs[..i + 1]) == st.blobs[i];
      if d.Err? {
        FailedPrefix(c, st, i + 1);
        return Err;
      }
      rs := rs + [d.value];
    }
    assert st.blobs[..|st.blobs|] == st.blobs;
    r := Ok(rs);
  }

  lemma {:induction false} FailedPrefix(c: Codec, st: AggregateState, i: nat)
    requires i <= |st.blobs| && DecodeRecords(c, st.blobs[..i], st.pks, st.ehks).Err?
    ensures DecodeRecords(c, st.blobs, st.pks, st.ehks).Err?
    decreases |st.blobs| - i
  {
    if i == |st.blobs| {
      assert st.blobs[..i] == st.blobs;
    } else {
      assert Front(st.blobs[..i + 1]) == st.blobs[..i];
      FailedPrefix(c, st, i + 1);
    }
  }
}
