/** What a blob means to the decoder: the ordered subsequences of the fields it
    knows, and nothing else. */
module DecoderMeaning {
  import opened Common
  import opened Wire
  import opened Aggregation

  /** The payloads of the length-delimited fields numbered `num`, in order. */
  function BytesOf(num: nat, fs: seq<Field>): seq<seq<byte>> {
    if fs == [] then []
    else if fs[0].Bytes? && fs[0].num == num then [fs[0].payload] + BytesOf(num, fs[1..])
    else BytesOf(num, fs[1..])
  }

  /** The values of the varint fields numbered `num`, in order. */
  function VarintsOf(num: nat, fs: seq<Field>): seq<nat> {
    if fs == [] then []
    else if fs[0].Varint? && fs[0].num == num then [fs[0].value] + VarintsOf(num, fs[1..])
    else VarintsOf(num, fs[1..])
  }

  /** "Last one wins": the last value, or what was there before. */
  function LastOr<T>(before: Option<T>, s: seq<T>): Option<T> {
    if s == [] then before else Some(Last(s))
  }

  function Texts(c: Codec, bs: seq<seq<byte>>): Result<seq<string>> {
    if bs == [] then Ok([])
    else match (c.fromUtf8(bs[0]), Texts(c, bs[1..]))
         case (Ok(t), Ok(ts)) => Ok([t] + ts)
         case _ => Err
  }

  function Tags(c: Codec, bs: seq<seq<byte>>): Result<seq<Tag>> {
    if bs == [] then Ok([])
    else match (DecodeTag(c, bs[0]), Tags(c, bs[1..]))
         case (Ok(t), Ok(ts)) => Ok([t] + ts)
         case _ => Err
  }

  lemma TextsCons(c: Codec, b: seq<byte>, bs: seq<seq<byte>>)
    ensures Texts(c, [b] + bs)
         == match (c.fromUtf8(b), Texts(c, bs)) case (Ok(t), Ok(ts)) => Ok([t] + ts) case _ => Err
  {
    assert ([b] + bs)[1..] == bs;
  }

  lemma TagsCons(c: Codec, b: seq<byte>, bs: seq<seq<byte>>)
    ensures Tags(c, [b] + bs)
         == match (DecodeTag(c, b), Tags(c, bs)) case (Ok(t), Ok(ts)) => Ok([t] + ts) case _ => Err
  {
    assert ([b] + bs)[1..] == bs;
  }

  lemma {:induction false} BytesOfConcat(num: nat, fs: seq<Field>, gs: seq<Field>)
    ensures BytesOf(num, fs + gs) == BytesOf(num, fs) + BytesOf(num, gs)
  {
    if fs == [] {
      assert fs + gs == gs;
    } else {
      TailConcat(fs, gs);
      BytesOfConcat(num, fs[1..], gs);
      if fs[0].Bytes? && fs[0].num == num {
        Assoc([fs[0].payload], BytesOf(num, fs[1..]), BytesOf(num, gs));
      }
    }
  }

  lemma {:induction false} VarintsOfConcat(num: nat, fs: seq<Field>, gs: seq<Field>)
    ensures VarintsOf(num, fs + gs) == VarintsOf(num, fs) + VarintsOf(num, gs)
  {
    if fs == [] {
      assert fs + gs == gs;
    } else {
      TailConcat(fs, gs);
      VarintsOfConcat(num, fs[1..], gs);
      if fs[0].Varint? && fs[0].num == num {
        Assoc([fs[0].value], VarintsOf(num, fs[1..]), VarintsOf(num, gs));
      }
    }
  }

  // ---- The decoder states in closed form ----

  function TagMeaning(c: Codec, st: TagState, fs: seq<Field>): Result<TagState> {
    match (Texts(c, BytesOf(1, fs)), Texts(c, BytesOf(2, fs)))
    case (Ok(ks), Ok(vs)) => Ok(TagState(LastOr(st.key, ks), LastOr(st.value, vs)))
    case _ => Err
  }

  lemma {:induction false} TagFold(c: Codec, st: TagState, fs: seq<Field>)
    ensures Fold(TagStep(c), st, fs) == TagMeaning(c, st, fs)
    decreases fs
  {
    if fs != [] {
      var f, r := fs[0], TagStep(c)(st, fs[0]);
      if f.Bytes? && (f.num == 1 || f.num == 2) {
        TextsCons(c, f.payload, BytesOf(f.num, fs[1..]));
      }
      if r.Ok? {
        TagFold(c, r.value, fs[1..]);
      }
    }
  }

  function RecordMeaning(c: Codec, st: RecordState, fs: seq<Field>): Result<RecordState> {
    match Tags(c, BytesOf(4, fs))
    case Err => Err
    case Ok(ts) => Ok(RecordState(LastOr(st.pk, VarintsOf(1, fs)), LastOr(st.ehk, VarintsOf(2, fs)),
                                  LastOr(st.data, BytesOf(3, fs)), st.tags + ts))
  }

  lemma {:induction false} RecordFold(c: Codec, st: RecordState, fs: seq<Field>)
    ensures Fold(RecordStep(c), st, fs) == RecordMeaning(c, st, fs)
    decreases fs
  {
    if fs == [] {
      assert st.tags + [] == st.tags;
    } else {
      var r := RecordStep(c)(st, fs[0]);
      if fs[0].Bytes? && fs[0].num == 4 {
        TagsCons(c, fs[0].payload, BytesOf(4, fs[1..]));
      }
      if r.Ok? {
        RecordFold(c, r.value, fs[1..]);
        if fs[0].Bytes? && fs[0].num == 4 && Tags(c, BytesOf(4, fs[1..])).Ok? {
          Assoc(st.tags, [DecodeTag(c, fs[0].payload).value], Tags(c, BytesOf(4, fs[1..])).value);
        }
      }
    }
  }

  function AggregateMeaning(c: Codec, st: AggregateState, fs: seq<Field>): Result<AggregateState> {
    match (Texts(c, BytesOf(1, fs)), Texts(c, BytesOf(2, fs)))
    case (Ok(ps), Ok(es)) => Ok(AggregateState(st.pks + ps, st.ehks + es, st.blobs + BytesOf(3, fs)))
    case _ => Err
  }

  lemma AggregateFoldStep(c: Codec, st: AggregateState, fs: seq<Field>)
    requires fs != []
    ensures AggregateMeaning(c, st, fs)
         == match AggregateStep(c)(st, fs[0]) case Err => Err case Ok(next) => AggregateMeaning(c, next, fs[1..])
  {
    var f, rest := fs[0], fs[1..];
    if f.Bytes? && (f.num == 1 || f.num == 2) {
      TextsCons(c, f.payload, BytesOf(f.num, rest));
    }
    if f.Bytes? && f.num == 1 && c.fromUtf8(f.payload).Ok? && Texts(c, BytesOf(1, rest)).Ok? {
      Assoc(st.pks, [c.fromUtf8(f.payload).value], Texts(c, BytesOf(1, rest)).value);
    } else if f.Bytes? && f.num == 2 && c.fromUtf8(f.payload).Ok? && Texts(c, BytesOf(2, rest)).Ok? {
      Assoc(st.ehks, [c.fromUtf8(f.payload).value], Texts(c, BytesOf(2, rest)).value);
    } else if f.Bytes? && f.num == 3 {
      Assoc(st.blobs, [f.payload], BytesOf(3, rest));
    }
  }

  lemma {:induction false} AggregateFold(c: Codec, st: AggregateState, fs: seq<Field>)
    ensures Fold(AggregateStep(c), st, fs) == AggregateMeaning(c, st, fs)
    decreases fs
  {
    if fs == [] {
      assert st.pks + [] == st.pks && st.ehks + [] == st.ehks && st.blobs + [] == st.blobs;
    } else {
      AggregateFoldStep(c, st, fs);
      var r := AggregateStep(c)(st, fs[0]);
      if r.Ok? {
        AggregateFold(c, r.value, fs[1..]);
      }
    }
  }

  // ---- The theorems ----

  ghost predicate SameAggregate(fs: seq<Field>, gs: seq<Field>) {
    forall n :: n == 1 || n == 2 || n == 3 ==> BytesOf(n, fs) == BytesOf(n, gs)
  }

  lemma FrameDecodes(c: Codec, payload: seq<byte>)
    requires Lawful(c)
    ensures IsAggregated(Frame(c, payload))
    ensures Decode(c, Frame(c, payload)) == DecodePayload(c, payload)
  {
    var blob, sum := Frame(c, payload), c.md5(payload);
    assert |sum| == MD5_LEN && |blob| == |MAGIC| + |payload| + MD5_LEN;
    assert blob[..|MAGIC|] == MAGIC;
    assert blob[|MAGIC|..|blob| - MD5_LEN] == payload;
    assert blob[|blob| - MD5_LEN..] == sum;
  }

  /** Two well-formed payloads with the same field-1, field-2 and field-3
      subsequences decode alike, however the fields are interleaved, whatever
      other fields they hold and however long their varints are padded. */
  lemma DecodeDependsOnKnownFields(c: Codec, p: seq<byte>, q: seq<byte>)
    requires Lawful(c) && ParseFields(p).Ok? && ParseFields(q).Ok?
    requires SameAggregate(ParseFields(p).value, ParseFields(q).value)
    ensures Decode(c, Frame(c, p)) == Decode(c, Frame(c, q))
  {
    FrameDecodes(c, p);
    FrameDecodes(c, q);
    AggregateFold(c, AggregateState([], [], []), ParseFields(p).value);
    AggregateFold(c, AggregateState([], [], []), ParseFields(q).value);
    assert BytesOf(1, ParseFields(p).value) == BytesOf(1, ParseFields(q).value);
    assert BytesOf(2, ParseFields(p).value) == BytesOf(2, ParseFields(q).value);
    assert BytesOf(3, ParseFields(p).value) == BytesOf(3, ParseFields(q).value);
  }

  /** No field of `fs` is one the aggregate decoder looks at. */
  ghost predicate UnknownToAggregate(fs: seq<Field>) {
    BytesOf(1, fs) == [] && BytesOf(2, fs) == [] && BytesOf(3, fs) == []
  }

  lemma InsertUnknown(fa: seq<Field>, fu: seq<Field>, fb: seq<Field>)
    requires UnknownToAggregate(fu)
    ensures SameAggregate(fa + (fu + fb), fa + fb)
  {
    forall n | n == 1 || n == 2 || n == 3
      ensures BytesOf(n, fa + (fu + fb)) == BytesOf(n, fa + fb)
    {
      BytesAround(n, fa, fu, fb);
    }
  }

  /** Unknown fields inserted at any field boundary change nothing, also when
      what follows the boundary is malformed. */
  lemma UnknownFieldsIgnored(c: Codec, a: seq<byte>, u: seq<byte>, b: seq<byte>)
    requires Lawful(c) && ParseFields(a).Ok? && ParseFields(u).Ok?
    requires UnknownToAggregate(ParseFields(u).value)
    ensures Decode(c, Frame(c, a + (u + b))) == Decode(c, Frame(c, a + b))
  {
    ParseConcat(a, b);
    ParseConcat(a, u + b);
    ParseConcat(u, b);
    if ParseFields(b).Ok? {
      InsertUnknown(ParseFields(a).value, ParseFields(u).value, ParseFields(b).value);
      DecodeDependsOnKnownFields(c, a + (u + b), a + b);
    } else {
      FrameDecodes(c, a + (u + b));
      FrameDecodes(c, a + b);
    }
  }

  /** Inside a record message: the last index and data fields win, tags keep
      their order, everything else is ignored. */
  lemma RecordDependsOnKnownFields(c: Codec, p: seq<byte>, q: seq<byte>, pks: seq<string>, ehks: seq<string>)
    requires ParseFields(p).Ok? && ParseFields(q).Ok?
    requires var (fs, gs) := (ParseFields(p).value, ParseFields(q).value);
             && LastOr(None, VarintsOf(1, fs)) == LastOr(None, VarintsOf(1, gs))
             && LastOr(None, VarintsOf(2, fs)) == LastOr(None, VarintsOf(2, gs))
             && LastOr(None, BytesOf(3, fs)) == LastOr(None, BytesOf(3, gs))
             && BytesOf(4, fs) == BytesOf(4, gs)
    ensures DecodeRecord(c, p, pks, ehks) == DecodeRecord(c, q, pks, ehks)
  {
    var init := RecordState(None, None, None, []);
    RecordFold(c, init, ParseFields(p).value);
    RecordFold(c, init, ParseFields(q).value);
  }

  /** Inside a tag message: the last key and the last value win, provided every
      key and value is valid text. */
  lemma TagDependsOnKnownFields(c: Codec, p: seq<byte>, q: seq<byte>)
    requires ParseFields(p).Ok? && ParseFields(q).Ok?
    requires forall n :: n == 1 || n == 2 ==> BytesOf(n, ParseFields(p).value) == BytesOf(n, ParseFields(q).value)
    ensures DecodeTag(c, p) == DecodeTag(c, q)
  {
    var init := TagState(None, None);
    TagFold(c, init, ParseFields(p).value);
    TagFold(c, init, ParseFields(q).value);
    assert BytesOf(1, ParseFields(p).value) == BytesOf(1, ParseFields(q).value);
    assert BytesOf(2, ParseFields(p).value) == BytesOf(2, ParseFields(q).value);
  }

  // ---- Unknown fields at every depth ----

  /** Two record messages that mean the same against any tables. */
  ghost predicate SameRecord(c: Codec, p: seq<byte>, q: seq<byte>) {
    forall pks, ehks :: DecodeRecord(c, p, pks, ehks) == DecodeRecord(c, q, pks, ehks)
  }

  /** Unknown fields at any boundary inside a tag message. */
  lemma UnknownInTag(c: Codec, a: seq<byte>, u: seq<byte>, b: seq<byte>)
    requires ParseFields(a).Ok? && ParseFields(u).Ok?
    requires BytesOf(1, ParseFields(u).value) == [] && BytesOf(2, ParseFields(u).value) == []
    ensures DecodeTag(c, a + (u + b)) == DecodeTag(c, a + b)
  {
    hide ParseFields, BytesOf, Fold;
    ParseAround(a, u, b);
    if ParseFields(b).Ok? {
      var fa, fu, fb := ParseFields(a).value, ParseFields(u).value, ParseFields(b).value;
      BytesAround(1, fa, fu, fb);
      BytesAround(2, fa, fu, fb);
      TagDependsOnKnownFields(c, a + (u + b), a + b);
    }
  }

  /** Unknown fields at any boundary inside a record message. */
  lemma UnknownInRecord(c: Codec, a: seq<byte>, u: seq<byte>, b: seq<byte>)
    requires ParseFields(a).Ok? && ParseFields(u).Ok?
    requires var fu := ParseFields(u).value;
             VarintsOf(1, fu) == VarintsOf(2, fu) == [] && BytesOf(3, fu) == BytesOf(4, fu) == []
    ensures SameRecord(c, a + (u + b), a + b)
  {
    hide ParseFields, BytesOf, VarintsOf, Fold;
    ParseAround(a, u, b);
    forall pks, ehks
      ensures DecodeRecord(c, a + (u + b), pks, ehks) == DecodeRecord(c, a + b, pks, ehks)
    {
      if ParseFields(b).Ok? {
        var fa, fu, fb := ParseFields(a).value, ParseFields(u).value, ParseFields(b).value;
        VarintsAround(1, fa, fu, fb);
        VarintsAround(2, fa, fu, fb);
        BytesAround(3, fa, fu, fb);
        BytesAround(4, fa, fu, fb);
        RecordDependsOnKnownFields(c, a + (u + b), a + b, pks, ehks);
      }
    }
  }

  lemma {:induction false} SameTags(c: Codec, bs: seq<seq<byte>>, ds: seq<seq<byte>>)
    requires |bs| == |ds| && forall i :: 0 <= i < |bs| ==> DecodeTag(c, bs[i]) == DecodeTag(c, ds[i])
    ensures Tags(c, bs) == Tags(c, ds)
  {
    hide DecodeTag;
    if bs != [] {
      assert forall i :: 0 <= i < |bs[1..]| ==> bs[1..][i] == bs[i + 1] && ds[1..][i] == ds[i + 1];
      SameTags(c, bs[1..], ds[1..]);
    }
  }

  /** Two record messages with the same indices and data, and tag messages that
      mean the same one by one. */
  lemma TagsInRecord(c: Codec, p: seq<byte>, q: seq<byte>)
    requires ParseFields(p).Ok? && ParseFields(q).Ok?
    requires var fs, gs := ParseFields(p).value, ParseFields(q).value;
             && LastOr(None, VarintsOf(1, fs)) == LastOr(None, VarintsOf(1, gs))
             && LastOr(None, VarintsOf(2, fs)) == LastOr(None, VarintsOf(2, gs))
             && LastOr(None, BytesOf(3, fs)) == LastOr(None, BytesOf(3, gs))
             && |BytesOf(4, fs)| == |BytesOf(4, gs)|
             && forall i :: 0 <= i < |BytesOf(4, fs)| ==>
                  DecodeTag(c, BytesOf(4, fs)[i]) == DecodeTag(c, BytesOf(4, gs)[i])
    ensures SameRecord(c, p, q)
  {
    hide DecodeTag, Tags, BytesOf, VarintsOf, ParseFields, FinishRecord, LastOr;
    var init, fs, gs := RecordState(None, None, None, []), ParseFields(p).value, ParseFields(q).value;
    RecordFold(c, init, fs);
    RecordFold(c, init, gs);
    SameTags(c, BytesOf(4, fs), BytesOf(4, gs));
  }

  lemma {:induction false} SameRecords(c: Codec, bs: seq<seq<byte>>, ds: seq<seq<byte>>,
                                       pks: seq<string>, ehks: seq<string>)
    requires |bs| == |ds| && forall i :: 0 <= i < |bs| ==> SameRecord(c, bs[i], ds[i])
    ensures DecodeRecords(c, bs, pks, ehks) == DecodeRecords(c, ds, pks, ehks)
  {
    hide DecodeRecord;
    if bs != [] {
      assert SameRecord(c, bs[|bs| - 1], ds[|ds| - 1]);
      SameRecords(c, Front(bs), Front(ds), pks, ehks);
    }
  }

  /** Two payloads with the same tables, and record messages that mean the same
      one by one, decode alike. With the lemmas above: fields unknown to the
      message they are in change nothing, at any depth. */
  lemma DecodeDependsOnMeanings(c: Codec, p: seq<byte>, q: seq<byte>)
    requires Lawful(c) && ParseFields(p).Ok? && ParseFields(q).Ok?
    requires var fs, gs := ParseFields(p).value, ParseFields(q).value;
             && BytesOf(1, fs) == BytesOf(1, gs) && BytesOf(2, fs) == BytesOf(2, gs)
             && |BytesOf(3, fs)| == |BytesOf(3, gs)|
             && forall i :: 0 <= i < |BytesOf(3, fs)| ==> SameRecord(c, BytesOf(3, fs)[i], BytesOf(3, gs)[i])
    ensures Decode(c, Frame(c, p)) == Decode(c, Frame(c, q))
  {
    hide SameRecord, BytesOf, ParseFields, Texts, DecodeRecords, Decode, Frame, Lawful;
    FrameDecodes(c, p);
    FrameDecodes(c, q);
    var init, fs, gs := AggregateState([], [], []), ParseFields(p).value, ParseFields(q).value;
    AggregateFold(c, init, fs);
    AggregateFold(c, init, gs);
    var texts := (Texts(c, BytesOf(1, fs)), Texts(c, BytesOf(2, fs)));
    if texts.0.Ok? && texts.1.Ok? {
      assert [] + BytesOf(3, fs) == BytesOf(3, fs) && [] + BytesOf(3, gs) == BytesOf(3, gs);
      SameRecords(c, BytesOf(3, fs), BytesOf(3, gs), [] + texts.0.value, [] + texts.1.value);
    }
  }

  /** A message `m` as field `num`, between `a` and `b`. */
  function Around(a: seq<byte>, num: nat, m: seq<byte>, b: seq<byte>): seq<byte> {
    a + (EncodeField(Bytes(num, m)) + b)
  }

  /** The payload with one record message replaced, framed anew. */
  lemma ReplaceRecord(c: Codec, a: seq<byte>, m: seq<byte>, m': seq<byte>, b: seq<byte>)
    requires Lawful(c) && ParseFields(a).Ok? && SameRecord(c, m, m')
    requires |m| < VARINT_LIMIT && |m'| < VARINT_LIMIT
    ensures Decode(c, Frame(c, Around(a, 3, m, b))) == Decode(c, Frame(c, Around(a, 3, m', b)))
  {
    hide ParseFields, BytesOf, SameRecord, EncodeField, Decode, Frame, Lawful;
    OneMessage(3, m);
    OneMessage(3, m');
    ParseAround(a, EncodeField(Bytes(3, m)), b);
    ParseAround(a, EncodeField(Bytes(3, m')), b);
    if ParseFields(b).Ok? {
      var fa, fb := ParseFields(a).value, ParseFields(b).value;
      BytesReplaced(1, 3, fa, m, m', fb);
      BytesReplaced(2, 3, fa, m, m', fb);
      BytesReplaced(3, 3, fa, m, m', fb);
      forall i | 0 <= i < |BytesOf(3, fa + ([Bytes(3, m)] + fb))|
        ensures SameRecord(c, BytesOf(3, fa + ([Bytes(3, m)] + fb))[i], BytesOf(3, fa + ([Bytes(3, m')] + fb))[i])
      {
        SameReflexive(c, BytesOf(3, fa + ([Bytes(3, m)] + fb))[i]);
      }
      DecodeDependsOnMeanings(c, Around(a, 3, m, b), Around(a, 3, m', b));
    } else {
      FrameDecodes(c, Around(a, 3, m, b));
      FrameDecodes(c, Around(a, 3, m', b));
    }
  }

  /** A record message with one tag message replaced. */
  lemma ReplaceTag(c: Codec, a: seq<byte>, t: seq<byte>, t': seq<byte>, b: seq<byte>)
    requires ParseFields(a).Ok? && DecodeTag(c, t) == DecodeTag(c, t')
    requires |t| < VARINT_LIMIT && |t'| < VARINT_LIMIT
    ensures SameRecord(c, Around(a, 4, t, b), Around(a, 4, t', b))
  {
    hide ParseFields, BytesOf, VarintsOf, DecodeTag, EncodeField, Fold;
    OneMessage(4, t);
    OneMessage(4, t');
    ParseAround(a, EncodeField(Bytes(4, t)), b);
    ParseAround(a, EncodeField(Bytes(4, t')), b);
    if ParseFields(b).Ok? {
      var fa, fb := ParseFields(a).value, ParseFields(b).value;
      BytesReplaced(3, 4, fa, t, t', fb);
      BytesReplaced(4, 4, fa, t, t', fb);
      VarintsReplaced(1, fa, t, fb);
      VarintsReplaced(1, fa, t', fb);
      VarintsReplaced(2, fa, t, fb);
      VarintsReplaced(2, fa, t', fb);
      TagsInRecord(c, Around(a, 4, t, b), Around(a, 4, t', b));
    }
  }

  /** Fields unknown to a record message, inserted at any boundary inside one,
      with every length and the footer written anew, change nothing. */
  lemma UnknownInsideRecord(c: Codec, a: seq<byte>, x: seq<byte>, u: seq<byte>, y: seq<byte>, b: seq<byte>)
    requires Lawful(c) && ParseFields(a).Ok? && ParseFields(x).Ok? && ParseFields(u).Ok?
    requires var fu := ParseFields(u).value;
             VarintsOf(1, fu) == VarintsOf(2, fu) == [] && BytesOf(3, fu) == BytesOf(4, fu) == []
    requires |x| + |u| + |y| < VARINT_LIMIT
    ensures Decode(c, Frame(c, Around(a, 3, x + (u + y), b))) == Decode(c, Frame(c, Around(a, 3, x + y, b)))
  {
    hide ParseFields, BytesOf, VarintsOf, SameRecord, Decode, Frame, Lawful, Around;
    UnknownInRecord(c, x, u, y);
    ReplaceRecord(c, a, x + (u + y), x + y, b);
  }

  /** The same for fields unknown to a tag message, inside a tag `s + t` of a
      record `x .. y` of the payload `a .. b`. */
  lemma UnknownInsideTag(c: Codec, a: seq<byte>, x: seq<byte>, s: seq<byte>, u: seq<byte>, t: seq<byte>,
                         y: seq<byte>, b: seq<byte>)
    requires Lawful(c) && ParseFields(a).Ok? && ParseFields(x).Ok? && ParseFields(s).Ok? && ParseFields(u).Ok?
    requires BytesOf(1, ParseFields(u).value) == [] && BytesOf(2, ParseFields(u).value) == []
    requires |s| + |u| + |t| < VARINT_LIMIT
    requires |Around(x, 4, s + (u + t), y)| < VARINT_LIMIT && |Around(x, 4, s + t, y)| < VARINT_LIMIT
    ensures Decode(c, Frame(c, Around(a, 3, Around(x, 4, s + (u + t), y), b)))
         == Decode(c, Frame(c, Around(a, 3, Around(x, 4, s + t, y), b)))
  {
    hide ParseFields, BytesOf, VarintsOf, SameRecord, Decode, Frame, Lawful, Around;
    UnknownInTag(c, s, u, t);
    ReplaceTag(c, x, s + (u + t), s + t, y);
    ReplaceRecord(c, a, Around(x, 4, s + (u + t), y), Around(x, 4, s + t, y), b);
  }

  lemma SameReflexive(c: Codec, p: seq<byte>)
    ensures SameRecord(c, p, p)
  {
  }

  lemma OneMessage(num: nat, m: seq<byte>)
    requires |m| < VARINT_LIMIT && num <= 4
    ensures ParseFields(EncodeField(Bytes(num, m))) == Ok([Bytes(num, m)])
  {
    hide ParseFields, EncodeField;
    FieldsRoundTrip([Bytes(num, m)]);
    OneField(Bytes(num, m));
  }

  lemma OneBytes(num: nat, k: nat, m: seq<byte>)
    ensures BytesOf(num, [Bytes(k, m)]) == if num == k then [m] else []
  {
    assert [Bytes(k, m)][1..] == [] && BytesOf(num, []) == [];
  }

  /** The payloads of field `num` after replacing one of field `k`. */
  lemma BytesReplaced(num: nat, k: nat, fa: seq<Field>, m: seq<byte>, m': seq<byte>, fb: seq<Field>)
    ensures var bs, bs' := BytesOf(num, fa + ([Bytes(k, m)] + fb)), BytesOf(num, fa + ([Bytes(k, m')] + fb));
            && |bs| == |bs'|
            && (forall i :: 0 <= i < |bs| ==> bs[i] == bs'[i] || (bs[i] == m && bs'[i] == m'))
            && (num != k ==> bs == bs')
  {
    OneBytes(num, k, m);
    OneBytes(num, k, m');
    BytesOfConcat(num, fa, [Bytes(k, m)] + fb);
    BytesOfConcat(num, [Bytes(k, m)], fb);
    BytesOfConcat(num, fa, [Bytes(k, m')] + fb);
    BytesOfConcat(num, [Bytes(k, m')], fb);
  }

  lemma VarintsReplaced(num: nat, fa: seq<Field>, m: seq<byte>, fb: seq<Field>)
    ensures VarintsOf(num, fa + ([Bytes(4, m)] + fb)) == VarintsOf(num, fa + fb)
  {
    assert [Bytes(4, m)][1..] == [] && VarintsOf(num, []) == [];
    VarintsAround(num, fa, [Bytes(4, m)], fb);
  }

  lemma BytesAround(num: nat, fa: seq<Field>, fu: seq<Field>, fb: seq<Field>)
    requires BytesOf(num, fu) == []
    ensures BytesOf(num, fa + (fu + fb)) == BytesOf(num, fa + fb)
  {
    BytesOfConcat(num, fa, fu + fb);
    BytesOfConcat(num, fu, fb);
    BytesOfConcat(num, fa, fb);
  }

  lemma VarintsAround(num: nat, fa: seq<Field>, fu: seq<Field>, fb: seq<Field>)
    requires VarintsOf(num, fu) == []
    ensures VarintsOf(num, fa + (fu + fb)) == VarintsOf(num, fa + fb)
  {
    VarintsOfConcat(num, fa, fu + fb);
    VarintsOfConcat(num, fu, fb);
    VarintsOfConcat(num, fa, fb);
  }

  lemma ParseAround(a: seq<byte>, u: seq<byte>, b: seq<byte>)
    requires ParseFields(a).Ok? && ParseFields(u).Ok?
    ensures ParseFields(b).Err? ==> ParseFields(a + (u + b)).Err? && ParseFields(a + b).Err?
    ensures ParseFields(b).Ok? ==>
              var fa, fu, fb := ParseFields(a).value, ParseFields(u).value, ParseFields(b).value;
              ParseFields(a + (u + b)) == Ok(fa + (fu + fb)) && ParseFields(a + b) == Ok(fa + fb)
  {
    hide ParseFields;
    ParseConcat(a, b);
    ParseConcat(u, b);
    ParseConcat(a, u + b);
  }
}
