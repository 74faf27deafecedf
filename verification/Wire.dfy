/** The protobuf wire primitives of aiokpl/aggregation.py: base-128 varints,
    field keys and the two wire types of the schema.

    A message is given two independent readings: the loops of the source, and
    `ParseFields`, the list of fields a byte string denotes. */
module Wire {
  import opened Common

  type byte = b: int | 0 <= b < 256

  const WIRE_VARINT := 0
  const WIRE_LENGTH_DELIMITED := 2

  datatype Field =
    | Varint(num: nat, value: nat)
    | Bytes(num: nat, payload: seq<byte>)

  function Pow128(k: nat): (p: nat)
    ensures p >= 1
  {
    if k == 0 then 1 else 128 * Pow128(k - 1)
  }

  /** Ten varint bytes carry 70 bits, the most the decoder accepts. */
  ghost const VARINT_LIMIT: nat := Pow128(10)

  // ---- Specification of the encoding ----

  function EncodeVarint(v: nat): (r: seq<byte>)
    ensures |r| >= 1
  {
    if v > 0x7F then [v % 128 + 128] + EncodeVarint(v / 128) else [v]
  }

  /** Reads a varint at the head of `s`, of which `k` bytes were read before;
      the result is the value and the number of bytes used. */
  function ParseVarint(s: seq<byte>, k: nat): (r: Result<(nat, nat)>)
    ensures r.Ok? ==> 1 <= r.value.1 <= |s|
  {
    if s == [] then Err
    else if s[0] < 128 then Ok((s[0], 1))
    else if k >= 9 then Err
    else Digit(s[0] - 128, ParseVarint(s[1..], k + 1))
  }

  /** One more base-128 digit below the value `tail`. */
  function Digit(digit: nat, tail: Result<(nat, nat)>): Result<(nat, nat)> {
    match tail
    case Err => Err
    case Ok((v, n)) => Ok((digit + 128 * v, n + 1))
  }

  function FieldKey(f: Field): nat {
    match f
    case Varint(num, _) => 8 * num + WIRE_VARINT
    case Bytes(num, _) => 8 * num + WIRE_LENGTH_DELIMITED
  }

  function EncodeBody(f: Field): seq<byte> {
    match f
    case Varint(_, v) => EncodeVarint(v)
    case Bytes(_, p) => EncodeVarint(|p|) + p
  }

  function EncodeField(f: Field): seq<byte> {
    EncodeVarint(FieldKey(f)) + EncodeBody(f)
  }

  function EncodeFields(fs: seq<Field>): seq<byte> {
    if fs == [] then [] else EncodeField(fs[0]) + EncodeFields(fs[1..])
  }

  /** The field with the given key whose contents start at the head of `s`. */
  function FieldBody(key: nat, s: seq<byte>): (r: Result<(Field, nat)>)
    ensures r.Ok? ==> 1 <= r.value.1 <= |s|
  {
    match ParseVarint(s, 0)
    case Err => Err
    case Ok((v, m)) =>
      if key % 8 == WIRE_VARINT then Ok((Varint(key / 8, v), m))
      else if key % 8 == WIRE_LENGTH_DELIMITED && m + v <= |s| then Ok((Bytes(key / 8, s[m..m + v]), m + v))
      else Err
  }

  /** The field at the head of `s` and the number of bytes it occupies. */
  function NextField(s: seq<byte>): (r: Result<(Field, nat)>)
    ensures r.Ok? ==> 1 <= r.value.1 <= |s|
  {
    match ParseVarint(s, 0)
    case Err => Err
    case Ok((key, n)) =>
      match FieldBody(key, s[n..])
      case Err => Err
      case Ok((f, m)) => Ok((f, n + m))
  }

  function ParseFields(s: seq<byte>): Result<seq<Field>>
    decreases |s|
  {
    if s == [] then Ok([])
    else match NextField(s)
         case Err => Err
         case Ok((f, n)) =>
           Prepend(f, ParseFields(s[n..]))
  }

  /** Applies `step` to the fields from left to right, stopping at an error. */
  function Fold<S>(step: (S, Field) -> Result<S>, st: S, fs: seq<Field>): Result<S> {
    if fs == [] then Ok(st)
    else match step(st, fs[0])
         case Err => Err
         case Ok(next) => Fold(step, next, fs[1..])
  }

  function FoldBytes<S>(step: (S, Field) -> Result<S>, st: S, s: seq<byte>): Result<S> {
    match ParseFields(s)
    case Err => Err
    case Ok(fs) => Fold(step, st, fs)
  }

  // ---- Facts about the encoding ----

  ghost predicate FieldFits(f: Field) {
    && FieldKey(f) < VARINT_LIMIT
    && match f
       case Varint(_, v) => v < VARINT_LIMIT
       case Bytes(_, p) => |p| < VARINT_LIMIT
  }

  /** Decoding undoes encoding exactly for the values that fit the bytes still
      allowed, and rejects every other value. */
  lemma {:induction false} VarintRoundTrip(v: nat, rest: seq<byte>, k: nat)
    requires k <= 9
    ensures ParseVarint(EncodeVarint(v) + rest, k)
         == if v < Pow128(10 - k) then Ok((v, |EncodeVarint(v)|)) else Err
    decreases v
  {
    var s := EncodeVarint(v) + rest;
    if v > 0x7F {
      assert s[1..] == EncodeVarint(v / 128) + rest;
      assert v < Pow128(10 - k) <==> v / 128 < Pow128(9 - k);
      if k < 9 {
        VarintRoundTrip(v / 128, rest, k + 1);
      } else {
        assert Pow128(1) == 128 * Pow128(0);
      }
    } else {
      assert Pow128(10 - k) >= 128;
    }
  }

  lemma {:induction false} VarintLocal(a: seq<byte>, b: seq<byte>, k: nat)
    requires ParseVarint(a, k).Ok?
    ensures ParseVarint(a + b, k) == ParseVarint(a, k)
  {
    if a[0] >= 128 && k < 9 {
      VarintLocal(a[1..], b, k + 1);
      TailConcat(a, b);
    }
  }

  lemma BodyRoundTrip(f: Field, rest: seq<byte>)
    requires FieldKey(f) < VARINT_LIMIT
    ensures FieldBody(FieldKey(f), EncodeBody(f) + rest)
         == if FieldFits(f) then Ok((f, |EncodeBody(f)|)) else Err
  {
    hide ParseVarint, EncodeVarint;
    match f
    case Varint(_, v) =>
      VarintRoundTrip(v, rest, 0);
    case Bytes(_, p) =>
      var len := EncodeVarint(|p|);
      assert EncodeBody(f) + rest == len + (p + rest);
      VarintRoundTrip(|p|, p + rest, 0);
      assert (len + (p + rest))[|len|..|len| + |p|] == p;
  }

  lemma FieldRoundTrip(f: Field, rest: seq<byte>)
    requires FieldKey(f) < VARINT_LIMIT
    ensures NextField(EncodeField(f) + rest)
         == if FieldFits(f) then Ok((f, |EncodeField(f)|)) else Err
  {
    hide ParseVarint, EncodeVarint, EncodeBody, FieldBody;
    var key, body := EncodeVarint(FieldKey(f)), EncodeBody(f) + rest;
    assert EncodeField(f) + rest == key + body && (key + body)[|key|..] == body;
    VarintRoundTrip(FieldKey(f), body, 0);
    BodyRoundTrip(f, rest);
  }

  /** A list of fields survives encoding exactly when each of them fits. */
  lemma {:induction false} FieldsRoundTrip(fs: seq<Field>)
    requires forall f :: f in fs ==> FieldKey(f) < VARINT_LIMIT
    ensures ParseFields(EncodeFields(fs))
         == if forall f :: f in fs ==> FieldFits(f) then Ok(fs) else Err
  {
    if fs != [] {
      var rest := EncodeFields(fs[1..]);
      FieldRoundTrip(fs[0], rest);
      FieldsRoundTrip(fs[1..]);
      assert fs == [fs[0]] + fs[1..];
      assert (EncodeField(fs[0]) + rest)[|EncodeField(fs[0])|..] == rest;
    }
  }

  lemma NextFieldLocal(a: seq<byte>, b: seq<byte>)
    requires NextField(a).Ok?
    ensures NextField(a + b) == NextField(a)
  {
    VarintLocal(a, b, 0);
    var n := ParseVarint(a, 0).value.1;
    var body := a[n..];
    assert (a + b)[n..] == body + b;
    VarintLocal(body, b, 0);
    var (v, m) := ParseVarint(body, 0).value;
    if m + v <= |body| {
      assert (body + b)[m..m + v] == body[m..m + v];
    }
  }

  function Prepend(f: Field, tail: Result<seq<Field>>): Result<seq<Field>> {
    match tail
    case Err => Err
    case Ok(fs) => Ok([f] + fs)
  }

  function Append(fs: seq<Field>, tail: Result<seq<Field>>): Result<seq<Field>> {
    match tail
    case Err => Err
    case Ok(gs) => Ok(fs + gs)
  }

  lemma PrependAppend(f: Field, fs: seq<Field>, tail: Result<seq<Field>>)
    ensures Prepend(f, Append(fs, tail)) == Append([f] + fs, tail)
  {
    if tail.Ok? {
      Assoc([f], fs, tail.value);
    }
  }

  /** The fields of a well-formed message followed by `b`. */
  lemma {:induction false} ParseConcat(a: seq<byte>, b: seq<byte>)
    requires ParseFields(a).Ok?
    ensures ParseFields(a + b) == Append(ParseFields(a).value, ParseFields(b))
    decreases |a|
  {
    if a == [] {
      assert a + b == b;
      assert ParseFields(b).Ok? ==> [] + ParseFields(b).value == ParseFields(b).value;
    } else {
      NextFieldLocal(a, b);
      var (f, n) := NextField(a).value;
      assert ParseFields(a[n..]).Ok? by {
        assert ParseFields(a).Ok?;
      }
      var fs := ParseFields(a[n..]).value;
      ParseConcat(a[n..], b);
      assert (a + b)[n..] == a[n..] + b;
      PrependAppend(f, fs, ParseFields(b));
    }
  }

  lemma EncodeNothing()
    ensures EncodeFields([]) == []
  {
  }

  lemma OneField(f: Field)
    ensures EncodeFields([f]) == EncodeField(f)
  {
    assert [f][1..] == [];
  }

  lemma {:induction false} EncodeFieldsConcat(fs: seq<Field>, gs: seq<Field>)
    ensures EncodeFields(fs + gs) == EncodeFields(fs) + EncodeFields(gs)
  {
    if fs == [] {
      assert fs + gs == gs;
    } else {
      EncodeFieldsConcat(fs[1..], gs);
      TailConcat(fs, gs);
      Assoc(EncodeField(fs[0]), EncodeFields(fs[1..]), EncodeFields(gs));
    }
  }

  lemma {:induction false} FoldConcat<S>(step: (S, Field) -> Result<S>, st: S, fs: seq<Field>, gs: seq<Field>)
    ensures Fold(step, st, fs + gs)
         == match Fold(step, st, fs) case Err => Err case Ok(mid) => Fold(step, mid, gs)
    decreases fs
  {
    if fs == [] {
      assert fs + gs == gs;
    } else if step(st, fs[0]).Ok? {
      FoldConcat(step, step(st, fs[0]).value, fs[1..], gs);
      TailConcat(fs, gs);
    }
  }

  // ---- The loops of the source ----

  /** `_encode_varint`: appends `value` to `out`. */
  method AppendVarint(value: nat, out: seq<byte>) returns (r: seq<byte>)
    ensures r == out + EncodeVarint(value)
  {
    var v := value;
    r := out;
    while v > 0x7F
      invariant r + EncodeVarint(v) == out + EncodeVarint(value)
    {
      Assoc(r, [v % 128 + 128], EncodeVarint(v / 128));
      r := r + [v % 128 + 128];
      v := v / 128;
    }
    r := r + [v];
  }

  /** What is left of `buf` at `pos`; nothing past the end. */
  function Rest(buf: seq<byte>, pos: nat): seq<byte> {
    if pos <= |buf| then buf[pos..] else []
  }

  lemma RestStep(buf: seq<byte>, pos: nat)
    requires pos < |buf|
    ensures Rest(buf, pos) != [] && Rest(buf, pos)[0] == buf[pos] && Rest(buf, pos)[1..] == Rest(buf, pos + 1)
  {
  }

  /** The value parsed at `pos` and the position after it. */
  function Located(pos: nat, parsed: Result<(nat, nat)>): Result<(nat, nat)> {
    match parsed
    case Err => Err
    case Ok((v, n)) => Ok((v, pos + n))
  }

  /** `_decode_varint`: the value at `pos` and the position after it. */
  method ReadVarint(buf: seq<byte>, pos: nat) returns (r: Result<(nat, nat)>)
    ensures r == Located(pos, ParseVarint(Rest(buf, pos), 0))
  {
    hide ParseVarint, Join, Scaled;
    ghost var whole := Located(pos, ParseVarint(Rest(buf, pos), 0));
    var result: nat, k: nat, weight: nat, p: nat := 0, 0, 1, pos;
    JoinNothing(pos, ParseVarint(Rest(buf, pos), 0));
    while true
      invariant k <= 9 && p == pos + k
      invariant whole == Join(result, weight, p, ParseVarint(Rest(buf, p), k))
      decreases 10 - k
    {
      ReadStep(buf, p, k, result, weight);
      if p >= |buf| {
        return Err;
      }
      var b := buf[p];
      if b < 128 {
        return Ok((result + Scaled(weight, b), p + 1));
      }
      if k >= 9 {
        return Err;
      }
      result, weight := result + Scaled(weight, b - 128), weight * 128;
      p, k := p + 1, k + 1;
    }
  }

  /** A digit at its place: the shift of the source. */
  function Scaled(weight: nat, digit: nat): nat {
    weight * digit
  }

  /** A partially read varint: `low` so far, and `tail` above it. */
  function Join(low: nat, weight: nat, pos: nat, tail: Result<(nat, nat)>): Result<(nat, nat)> {
    match tail
    case Err => Err
    case Ok((v, n)) => Ok((low + Scaled(weight, v), pos + n))
  }

  lemma JoinNothing(pos: nat, tail: Result<(nat, nat)>)
    ensures Join(0, 1, pos, tail) == Located(pos, tail)
  {
  }

  lemma JoinStep(low: nat, weight: nat, pos: nat, digit: nat, tail: Result<(nat, nat)>)
    ensures Join(low, weight, pos, Digit(digit, tail)) == Join(low + Scaled(weight, digit), weight * 128, pos + 1, tail)
  {
    if tail.Ok? {
      var v := tail.value.0;
      assert weight * (digit + 128 * v) == weight * digit + weight * 128 * v;
    }
  }

  /** What one iteration of the varint loop does. */
  lemma ReadStep(buf: seq<byte>, p: nat, k: nat, low: nat, weight: nat)
    requires k <= 9
    ensures var whole := Join(low, weight, p, ParseVarint(Rest(buf, p), k));
            if p >= |buf| then whole == Err
            else if buf[p] < 128 then whole == Ok((low + Scaled(weight, buf[p]), p + 1))
            else if k == 9 then whole == Err
            else whole == Join(low + Scaled(weight, buf[p] - 128), weight * 128, p + 1,
                               ParseVarint(Rest(buf, p + 1), k + 1))
  {
    hide Scaled;
    if p < |buf| {
      RestStep(buf, p);
    }
    if p < |buf| && buf[p] >= 128 && k < 9 {
      JoinStep(low, weight, p, buf[p] - 128, ParseVarint(Rest(buf, p + 1), k + 1));
    }
  }

  /** `_encode_length_delimited`. */
  method AppendLengthDelimited(num: nat, payload: seq<byte>, out: seq<byte>) returns (r: seq<byte>)
    ensures r == out + EncodeField(Bytes(num, payload))
  {
    var key := AppendVarint(8 * num + WIRE_LENGTH_DELIMITED, out);
    var len := AppendVarint(|payload|, key);
    r := len + payload;
    Assoc(key, EncodeVarint(|payload|), payload);
    Assoc(out, EncodeVarint(FieldKey(Bytes(num, payload))), EncodeVarint(|payload|) + payload);
  }

  /** `_encode_uint64_field`. */
  method AppendUint64(num: nat, value: nat, out: seq<byte>) returns (r: seq<byte>)
    ensures r == out + EncodeField(Varint(num, value))
  {
    var key := AppendVarint(8 * num + WIRE_VARINT, out);
    r := AppendVarint(value, key);
    Assoc(out, EncodeVarint(FieldKey(Varint(num, value))), EncodeVarint(value));
  }

  /** The length prefix and payload that the decoders read at `pos`. */
  method ReadDelimited(buf: seq<byte>, pos: nat) returns (r: Result<(seq<byte>, nat)>)
    ensures r == match ParseVarint(Rest(buf, pos), 0)
                 case Err => Err
                 case Ok((v, n)) => if pos + n + v > |buf| then Err
                                    else Ok((buf[pos + n..pos + n + v], pos + n + v))
  {
    var len := ReadVarint(buf, pos);
    if len.Err? {
      return Err;
    }
    var (length, start) := len.value;
    if start + length > |buf| {
      return Err;
    }
    return Ok((buf[start..start + length], start + length));
  }

  /** `_skip_unknown`: the position after an unknown field's contents. */
  method SkipUnknown(buf: seq<byte>, pos: nat, wire: nat) returns (r: Result<nat>)
    ensures r == match ParseVarint(Rest(buf, pos), 0)
                 case Err => Err
                 case Ok((v, n)) => if wire == WIRE_VARINT then Ok(pos + n)
                                    else if wire == WIRE_LENGTH_DELIMITED && pos + n + v <= |buf| then Ok(pos + n + v)
                                    else Err
  {
    if wire == WIRE_VARINT {
      var x := ReadVarint(buf, pos);
      r := if x.Err? then Err else Ok(x.value.1);
    } else if wire == WIRE_LENGTH_DELIMITED {
      var d := ReadDelimited(buf, pos);
      r := if d.Err? then Err else Ok(d.value.1);
    } else {
      r := Err;
    }
  }

  /** Folding on after field `f`, whose bytes end at `pos`. */
  ghost function Continue<S>(step: (S, Field) -> Result<S>, st: S, f: Field, buf: seq<byte>, pos: nat): Result<S> {
    match step(st, f)
    case Err => Err
    case Ok(next) => FoldBytes(step, next, Rest(buf, pos))
  }

  /** The field that a decoder loop finds at `pos`. */
  lemma FieldAt(buf: seq<byte>, pos: nat)
    requires pos < |buf|
    ensures NextField(Rest(buf, pos)) ==
            match ParseVarint(Rest(buf, pos), 0)
            case Err => Err
            case Ok((key, n)) =>
              match ParseVarint(Rest(buf, pos + n), 0)
              case Err => Err
              case Ok((v, m)) =>
                var start := pos + n + m;
                if key % 8 == WIRE_VARINT then Ok((Varint(key / 8, v), n + m))
                else if key % 8 == WIRE_LENGTH_DELIMITED && start + v <= |buf| then
                  Ok((Bytes(key / 8, buf[start..start + v]), n + m + v))
                else Err
  {
    hide ParseVarint;
    var s := Rest(buf, pos);
    if ParseVarint(s, 0).Ok? {
      var n := ParseVarint(s, 0).value.1;
      var body := Rest(buf, pos + n);
      assert s[n..] == body;
      if ParseVarint(body, 0).Ok? {
        var (v, m) := ParseVarint(body, 0).value;
        if m + v <= |body| {
          assert body[m..m + v] == buf[pos + n + m..pos + n + m + v];
        }
      }
    }
  }

  /** What one iteration of a decoder loop does to the message's meaning. */
  lemma DecoderStep<S>(step: (S, Field) -> Result<S>, st: S, buf: seq<byte>, pos: nat)
    requires pos < |buf|
    ensures FoldBytes(step, st, Rest(buf, pos)) ==
            match NextField(Rest(buf, pos))
            case Err => Err
            case Ok((f, n)) => Continue(step, st, f, buf, pos + n)
  {
    var s := Rest(buf, pos);
    if NextField(s).Ok? {
      var n := NextField(s).value.1;
      assert s[n..] == Rest(buf, pos + n);
      if ParseFields(s).Ok? {
        var fs := ParseFields(s).value;
        assert fs[1..] == ParseFields(s[n..]).value;
      }
    }
  }
}
