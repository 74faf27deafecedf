/** The KPL aggregated-record codec of aiokpl/aggregation.py, as a
    specification: which bytes a batch encodes to, and which records a blob
    denotes. `AggregationCode` holds the builder and the decoder loops. */
module Aggregation {
  import opened Common
  import opened Wire

  const MAGIC: seq<byte> := [0xF3, 0x89, 0x9A, 0xC2]
  const MD5_LEN := 16

  datatype Tag = Tag(key: string, value: Option<string>)

  /** Also the type of a decoded record, which has the same four fields. */
  datatype UserRecord = UserRecord(
    partitionKey: string,
    data: seq<byte>,
    explicitHashKey: Option<string>,
    tags: seq<Tag>)

  /** The library functions the codec calls. */
  datatype Codec = Codec(
    md5: seq<byte> -> seq<byte>,
    utf8: string -> seq<byte>,
    fromUtf8: seq<byte> -> Result<string>)

  ghost predicate Lawful(c: Codec) {
    && (forall p :: |c.md5(p)| == MD5_LEN)
    && (forall t :: c.fromUtf8(c.utf8(t)) == Ok(t))
  }

  // ---- Specification: encoding ----

  function BytesFields(num: nat, payloads: seq<seq<byte>>): (r: seq<Field>)
    ensures |r| == |payloads| && forall i :: 0 <= i < |r| ==> r[i] == Bytes(num, payloads[i])
  {
    seq(|payloads|, i requires 0 <= i < |payloads| => Bytes(num, payloads[i]))
  }

  function TagFields(c: Codec, t: Tag): seq<Field> {
    [Bytes(1, c.utf8(t.key))] + if t.value.Some? then [Bytes(2, c.utf8(t.value.value))] else []
  }

  function TagMsg(c: Codec, t: Tag): seq<byte> {
    EncodeFields(TagFields(c, t))
  }

  function TagMsgs(c: Codec, tags: seq<Tag>): (r: seq<seq<byte>>)
    ensures |r| == |tags| && forall i :: 0 <= i < |r| ==> r[i] == TagMsg(c, tags[i])
  {
    seq(|tags|, i requires 0 <= i < |tags| => TagMsg(c, tags[i]))
  }

  function IndexFields(pk: nat, ehk: Option<nat>): seq<Field> {
    [Varint(1, pk)] + if ehk.Some? then [Varint(2, ehk.value)] else []
  }

  function RecordFields(c: Codec, pk: nat, ehk: Option<nat>, data: seq<byte>, tags: seq<Tag>): seq<Field> {
    IndexFields(pk, ehk) + [Bytes(3, data)] + BytesFields(4, TagMsgs(c, tags))
  }

  /** The position of the first occurrence of `k`. */
  function IndexOf(table: seq<string>, k: string): (i: nat)
    requires k in table
    ensures i < |table| && table[i] == k && k !in table[..i]
  {
    if table[0] == k then 0
    else
      assert table == [table[0]] + table[1..];
      var j := IndexOf(table[1..], k);
      assert table[..j + 1] == [table[0]] + table[1..][..j];
      j + 1
  }

  function Intern(table: seq<string>, k: string): seq<string> {
    if k in table then table else table + [k]
  }

  function InternOpt(table: seq<string>, k: Option<string>): seq<string> {
    if k.Some? then Intern(table, k.value) else table
  }

  /** The dedup tables: each key once, in order of first use. */
  datatype Tables = Tables(pks: seq<string>, ehks: seq<string>)

  function TablesOf(rs: seq<UserRecord>): (t: Tables)
    ensures forall r :: r in rs ==> Knows(t, r)
  {
    if rs == [] then Tables([], [])
    else
      var t, r := TablesOf(Front(rs)), Last(rs);
      assert rs == Front(rs) + [r];
      Tables(Intern(t.pks, r.partitionKey), InternOpt(t.ehks, r.explicitHashKey))
  }

  predicate Knows(t: Tables, r: UserRecord) {
    && r.partitionKey in t.pks
    && (r.explicitHashKey.Some? ==> r.explicitHashKey.value in t.ehks)
  }

  function EhkIndex(t: Tables, r: UserRecord): Option<nat>
    requires Knows(t, r)
  {
    if r.explicitHashKey.Some? then Some(IndexOf(t.ehks, r.explicitHashKey.value)) else None
  }

  function FieldsOfRecord(c: Codec, t: Tables, r: UserRecord): seq<Field>
    requires Knows(t, r)
  {
    RecordFields(c, IndexOf(t.pks, r.partitionKey), EhkIndex(t, r), r.data, r.tags)
  }

  function RecordMsg(c: Codec, t: Tables, r: UserRecord): seq<byte>
    requires Knows(t, r)
  {
    EncodeFields(FieldsOfRecord(c, t, r))
  }

  function RecordMsgs(c: Codec, t: Tables, rs: seq<UserRecord>): (m: seq<seq<byte>>)
    requires forall r :: r in rs ==> Knows(t, r)
    ensures |m| == |rs| && forall i :: 0 <= i < |m| ==> m[i] == RecordMsg(c, t, rs[i])
  {
    seq(|rs|, i requires 0 <= i < |rs| => RecordMsg(c, t, rs[i]))
  }

  function Utf8s(c: Codec, keys: seq<string>): (r: seq<seq<byte>>)
    ensures |r| == |keys| && forall i :: 0 <= i < |r| ==> r[i] == c.utf8(keys[i])
  {
    seq(|keys|, i requires 0 <= i < |keys| => c.utf8(keys[i]))
  }

  /** The three runs of fields of an `AggregatedRecord` message. */
  function AggregateFields(c: Codec, pks: seq<string>, ehks: seq<string>, msgs: seq<seq<byte>>): seq<Field> {
    BytesFields(1, Utf8s(c, pks)) + BytesFields(2, Utf8s(c, ehks)) + BytesFields(3, msgs)
  }

  function FieldsOfBatch(c: Codec, rs: seq<UserRecord>): seq<Field> {
    var t := TablesOf(rs);
    AggregateFields(c, t.pks, t.ehks, RecordMsgs(c, t, rs))
  }

  function Frame(c: Codec, payload: seq<byte>): seq<byte> {
    MAGIC + payload + c.md5(payload)
  }

  function Encode(c: Codec, rs: seq<UserRecord>): Result<seq<byte>> {
    if rs == [] then Err
    else if |rs| == 1 then Ok(rs[0].data)
    else Ok(Frame(c, EncodeFields(FieldsOfBatch(c, rs))))
  }

  // ---- Specification: decoding ----

  datatype TagState = TagState(key: Option<string>, value: Option<string>)

  function TagStep(c: Codec): (TagState, Field) -> Result<TagState> {
    (st: TagState, f: Field) =>
      if f.Bytes? && f.num == 1 then
        match c.fromUtf8(f.payload) case Err => Err case Ok(t) => Ok(st.(key := Some(t)))
      else if f.Bytes? && f.num == 2 then
        match c.fromUtf8(f.payload) case Err => Err case Ok(t) => Ok(st.(value := Some(t)))
      else Ok(st)
  }

  function FinishTag(st: Result<TagState>): Result<Tag> {
    match st
    case Ok(TagState(Some(k), v)) => Ok(Tag(k, v))
    case _ => Err
  }

  function DecodeTag(c: Codec, buf: seq<byte>): Result<Tag> {
    FinishTag(FoldBytes(TagStep(c), TagState(None, None), buf))
  }

  datatype RecordState = RecordState(pk: Option<nat>, ehk: Option<nat>, data: Option<seq<byte>>, tags: seq<Tag>)

  function RecordStep(c: Codec): (RecordState, Field) -> Result<RecordState> {
    (st: RecordState, f: Field) =>
      if f.Varint? && f.num == 1 then Ok(st.(pk := Some(f.value)))
      else if f.Varint? && f.num == 2 then Ok(st.(ehk := Some(f.value)))
      else if f.Bytes? && f.num == 3 then Ok(st.(data := Some(f.payload)))
      else if f.Bytes? && f.num == 4 then
        match DecodeTag(c, f.payload) case Err => Err case Ok(t) => Ok(st.(tags := st.tags + [t]))
      else Ok(st)
  }

  function FinishRecord(st: Result<RecordState>, pks: seq<string>, ehks: seq<string>): Result<UserRecord> {
    match st
    case Ok(RecordState(Some(pk), ehk, Some(data), tags)) =>
      if pk >= |pks| || (ehk.Some? && ehk.value >= |ehks|) then Err
      else Ok(UserRecord(pks[pk], data, if ehk.Some? then Some(ehks[ehk.value]) else None, tags))
    case _ => Err
  }

  function DecodeRecord(c: Codec, buf: seq<byte>, pks: seq<string>, ehks: seq<string>): Result<UserRecord> {
    FinishRecord(FoldBytes(RecordStep(c), RecordState(None, None, None, []), buf), pks, ehks)
  }

  function DecodeRecords(c: Codec, blobs: seq<seq<byte>>, pks: seq<string>,
                         ehks: seq<string>): Result<seq<UserRecord>> {
    if blobs == [] then Ok([])
    else match (DecodeRecords(c, Front(blobs), pks, ehks), DecodeRecord(c, Last(blobs), pks, ehks))
         case (Ok(rs), Ok(r)) => Ok(rs + [r])
         case _ => Err
  }

  datatype AggregateState = AggregateState(pks: seq<string>, ehks: seq<string>, blobs: seq<seq<byte>>)

  function AggregateStep(c: Codec): (AggregateState, Field) -> Result<AggregateState> {
    (st: AggregateState, f: Field) =>
      if f.Bytes? && f.num == 1 then
        match c.fromUtf8(f.payload) case Err => Err case Ok(t) => Ok(st.(pks := st.pks + [t]))
      else if f.Bytes? && f.num == 2 then
        match c.fromUtf8(f.payload) case Err => Err case Ok(t) => Ok(st.(ehks := st.ehks + [t]))
      else if f.Bytes? && f.num == 3 then Ok(st.(blobs := st.blobs + [f.payload]))
      else Ok(st)
  }

  function FinishAggregate(c: Codec, st: Result<AggregateState>): Result<seq<UserRecord>> {
    match st
    case Err => Err
    case Ok(AggregateState(pks, ehks, blobs)) => DecodeRecords(c, blobs, pks, ehks)
  }

  function DecodePayload(c: Codec, proto: seq<byte>): Result<seq<UserRecord>> {
    FinishAggregate(c, FoldBytes(AggregateStep(c), AggregateState([], [], []), proto))
  }

  /** `is_aggregated`. */
  predicate IsAggregated(blob: seq<byte>) {
    |blob| >= |MAGIC| + MD5_LEN && blob[..|MAGIC|] == MAGIC
  }

  function Decode(c: Codec, blob: seq<byte>): Result<seq<UserRecord>> {
    if !IsAggregated(blob) then Err
    else
      var proto := blob[|MAGIC|..|blob| - MD5_LEN];
      if c.md5(proto) != blob[|blob| - MD5_LEN..] then Err else DecodePayload(c, proto)
  }
}
