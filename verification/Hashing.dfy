/** Hash keys: aiokpl/hashing.py, the hash key the aggregator gives a record,
    and the one the service derives from a batch's routing keys. */
module Hashing {
  import opened Common
  import opened Wire
  import opened Aggregation
  import opened Records

  const UINT128_MAX: nat := 0xFFFF_FFFF_FFFF_FFFF_FFFF_FFFF_FFFF_FFFF

  predicate IsDigit(ch: char) {
    '0' <= ch <= '9'
  }

  function DigitValue(ch: char): nat
    requires IsDigit(ch)
  {
    ch as int - '0' as int
  }

  /** `int(s)` for a string of decimal digits. */
  function DecimalValue(s: string): nat
    requires forall i :: 0 <= i < |s| ==> IsDigit(s[i])
  {
    if s == [] then 0 else 10 * DecimalValue(Front(s)) + DigitValue(s[|s| - 1])
  }

  /** `str(n)`. */
  function ToDecimal(n: nat): (s: string)
    ensures s != [] && forall i :: 0 <= i < |s| ==> IsDigit(s[i])
  {
    var digit := [('0' as int + n % 10) as char];
    if n < 10 then digit else ToDecimal(n / 10) + digit
  }

  /** `parse_explicit_hash_key`: canonical decimal digits, at most 2^128 - 1. */
  function ParseHashKey(s: string): (r: Result<nat>)
    ensures r.Ok? ==> r.value <= UINT128_MAX
  {
    if s == [] || exists i :: 0 <= i < |s| && !IsDigit(s[i]) then Err
    else if DecimalValue(s) > UINT128_MAX then Err
    else Ok(DecimalValue(s))
  }

  lemma {:induction false} DecimalRoundTrip(n: nat)
    ensures DecimalValue(ToDecimal(n)) == n
    decreases n
  {
    var digit := [('0' as int + n % 10) as char];
    if n < 10 {
      assert ToDecimal(n) == digit && Front(digit) == [];
    } else {
      DecimalRoundTrip(n / 10);
      assert Front(ToDecimal(n / 10) + digit) == ToDecimal(n / 10);
    }
  }

  function Pow10(k: nat): (p: nat)
    ensures p >= 1
  {
    if k == 0 then 1 else 10 * Pow10(k - 1)
  }

  /** Every digit stands at its place: the i-th counts the i-th power of ten from
      the most significant. */
  lemma {:induction false} DecimalDigits(s: string, i: nat)
    requires (forall j :: 0 <= j < |s| ==> IsDigit(s[j])) && i < |s|
    ensures (DecimalValue(s) / Pow10(|s| - 1 - i)) % 10 == s[i] as int - '0' as int
  {
    var f, d := Front(s), DigitValue(s[|s| - 1]);
    if i < |s| - 1 {
      DecimalDigits(f, i);
      ShiftDivide(DecimalValue(f), d, 10, Pow10(|f| - 1 - i));
    }
  }

  /** Dividing away the last digit of base `b` first. */
  lemma ShiftDivide(v: nat, d: nat, b: nat, p: nat)
    requires d < b && p >= 1
    ensures b * p >= 1 && (b * v + d) / (b * p) == v / p
  {
    var q, r := v / p, v % p;
    assert v == q * p + r;
    assert b * v + d == q * (b * p) + (b * r + d) by {
      assert b * (q * p + r) == q * (b * p) + b * r;
    }
    assert b * r + d < b * p by {
      assert b * (r + 1) <= b * p by {
        MulMono(r + 1, p, b);
      }
    }
    QuotientIs(b * v + d, b * p, q, b * r + d);
  }

  lemma MulMono(x: nat, y: nat, k: nat)
    requires x <= y
    ensures k * x <= k * y
  {
  }

  lemma QuotientIs(n: nat, m: nat, q: nat, r: nat)
    requires m >= 1 && r < m && n == q * m + r
    ensures n / m == q
  {
    Earlier(n / m, q, m, n % m);
    Earlier(q, n / m, m, r);
  }

  lemma Earlier(q: nat, p: nat, m: nat, r: nat)
    requires r < m
    ensures q < p ==> q * m + r < p * m
  {
    if q < p {
      MulMono(q + 1, p, m);
      assert m * (q + 1) == q * m + m;
    }
  }

  function Zeros(k: nat): (z: string)
    ensures |z| == k && forall i :: 0 <= i < k ==> z[i] == '0'
  {
    seq(k, i => '0')
  }

  /** A string of digits is its value as it is printed, after leading zeros. */
  lemma {:induction false} DigitsArePrinted(s: string) returns (k: nat)
    requires s != [] && forall j :: 0 <= j < |s| ==> IsDigit(s[j])
    ensures s == Zeros(k) + ToDecimal(DecimalValue(s))
  {
    var f, last := Front(s), s[|s| - 1];
    assert s == f + [last];
    var v := DecimalValue(s);
    assert [('0' as int + v % 10) as char] == [last] by {
      assert v % 10 == DigitValue(last);
    }
    if f == [] {
      k := 0;
    } else {
      k := DigitsArePrinted(f);
      if v < 10 {
        assert DecimalValue(f) == 0 && ToDecimal(0) == ['0'];
        k := k + 1;
      } else {
        assert DecimalValue(f) == v / 10;
        Assoc(Zeros(k), ToDecimal(v / 10), [last]);
      }
    }
  }

  lemma {:induction false} ZerosAreNothing(k: nat, s: string)
    requires s != [] && forall j :: 0 <= j < |s| ==> IsDigit(s[j])
    ensures DecimalValue(Zeros(k) + s) == DecimalValue(s)
    decreases |s|
  {
    var t := Zeros(k) + s;
    assert Front(t) == Zeros(k) + Front(s) && t[|t| - 1] == s[|s| - 1];
    if |s| == 1 {
      assert Front(t) == Zeros(k) && Front(s) == [];
      ZerosAreZero(k);
    } else {
      ZerosAreNothing(k, Front(s));
    }
  }

  lemma {:induction false} ZerosAreZero(k: nat)
    ensures DecimalValue(Zeros(k)) == 0
  {
    if k > 0 {
      assert Front(Zeros(k)) == Zeros(k - 1);
      ZerosAreZero(k - 1);
    }
  }

  /** An explicit hash key is accepted with value `n` exactly if it is `n` in
      decimal, perhaps after zeros, and `n` is below 2^128. */
  lemma ParseHashKeyIff(s: string, n: nat)
    ensures ParseHashKey(s) == Ok(n) <==> n <= UINT128_MAX && exists k :: s == Zeros(k) + ToDecimal(n)
  {
    if ParseHashKey(s) == Ok(n) {
      var k := DigitsArePrinted(s);
    }
    if n <= UINT128_MAX && exists k :: s == Zeros(k) + ToDecimal(n) {
      var k :| s == Zeros(k) + ToDecimal(n);
      ZerosAreNothing(k, ToDecimal(n));
      DecimalRoundTrip(n);
    }
  }

  /** A hash key printed by the aggregator reads back as itself. */
  lemma ParsePrintedHashKey(n: nat)
    requires n <= UINT128_MAX
    ensures ParseHashKey(ToDecimal(n)) == Ok(n)
  {
    DecimalRoundTrip(n);
  }

  function Pow256(k: nat): nat {
    if k == 0 then 1 else 256 * Pow256(k - 1)
  }

  /** `int.from_bytes(b, "big")`. */
  function BigEndian(b: seq<byte>): (v: nat)
    ensures v < Pow256(|b|)
  {
    if b == [] then 0 else 256 * BigEndian(Front(b)) + Last(b)
  }

  /** The i-th byte is the i-th digit of base 256, from the most significant. */
  lemma {:induction false} BigEndianDigits(b: seq<byte>, i: nat)
    requires i < |b|
    ensures Pow256(|b| - 1 - i) >= 1 && (BigEndian(b) / Pow256(|b| - 1 - i)) % 256 == b[i]
  {
    hide BigEndian, Pow256;
    var f := Front(b);
    Pow256Positive(|b| - 1 - i);
    BigEndianUnfold(b);
    if i < |b| - 1 {
      BigEndianDigits(f, i);
      ShiftDivide(BigEndian(f), Last(b), 256, Pow256(|f| - 1 - i));
      Pow256Next(|f| - 1 - i);
    } else {
      LastDigit(BigEndian(f), Last(b));
    }
  }

  lemma BigEndianUnfold(b: seq<byte>)
    requires b != []
    ensures BigEndian(b) == 256 * BigEndian(Front(b)) + Last(b)
  {
  }

  lemma Pow256Next(k: nat)
    ensures Pow256(k + 1) == 256 * Pow256(k)
  {
  }

  lemma LastDigit(v: nat, d: nat)
    requires d < 256
    ensures Pow256(0) == 1 && ((256 * v + d) / 1) % 256 == d
  {
  }

  lemma {:induction false} Pow256Positive(k: nat)
    ensures Pow256(k) >= 1
  {
    if k > 0 {
      Pow256Positive(k - 1);
    }
  }

  /** `md5_hash_key`. */
  function Md5HashKey(c: Codec, partitionKey: string): nat {
    BigEndian(c.md5(c.utf8(partitionKey)))
  }

  lemma Md5HashKeyInRange(c: Codec, partitionKey: string)
    requires Lawful(c)
    ensures Md5HashKey(c, partitionKey) <= UINT128_MAX
  {
    assert |c.md5(c.utf8(partitionKey))| == 16;
    assert Pow256(4) == 0x1_0000_0000;
    assert Pow256(8) == 0x1_0000_0000_0000_0000;
    assert Pow256(12) == 0x1_0000_0000_0000_0000_0000_0000;
    assert Pow256(16) == UINT128_MAX + 1;
  }

  /** The hash of a partition key is its digest read most significant byte first. */
  lemma Md5HashKeyDigits(c: Codec, partitionKey: string, i: nat)
    requires Lawful(c) && i < 16
    ensures Pow256(15 - i) >= 1
    ensures (Md5HashKey(c, partitionKey) / Pow256(15 - i)) % 256 == c.md5(c.utf8(partitionKey))[i]
  {
    hide BigEndian, Pow256;
    BigEndianDigits(c.md5(c.utf8(partitionKey)), i);
  }

  /** The hash of a partition key and an optional explicit hash key: the rule
      of `build_buffered`, and of the service. */
  function HashKey(c: Codec, partitionKey: string, explicitHashKey: Option<string>): Result<nat> {
    match explicitHashKey
    case Some(s) => ParseHashKey(s)
    case None => Ok(Md5HashKey(c, partitionKey))
  }

  /** `build_buffered`: malformed explicit hash keys are refused. */
  function BuildBuffered(c: Codec, id: nat, r: UserRecord, now: real, bufferedTime: real): Result<Buffered> {
    match HashKey(c, r.partitionKey, r.explicitHashKey)
    case Err => Err
    case Ok(h) => Ok(Buffered(id, r, now + bufferedTime, h, now, []))
  }

  /** The record's hash key is the one its own keys hash to. */
  ghost predicate WellHashed(c: Codec, b: Buffered) {
    HashKey(c, b.userRecord.partitionKey, b.userRecord.explicitHashKey) == Ok(b.hashKey)
  }

  // ---- Routing keys of a batch ----

  function RoutingPartitionKey(b: Batch<Buffered>): string
    requires b.items != []
  {
    if |b.items| > 1 then "a" else b.items[0].userRecord.partitionKey
  }

  function RoutingExplicitHashKey(b: Batch<Buffered>): Option<string>
    requires b.items != []
  {
    if |b.items| > 1 then Some(ToDecimal(b.items[0].hashKey)) else b.items[0].userRecord.explicitHashKey
  }

  /** The service hashes the routing keys of any batch, aggregated or single,
      to the hash key of its first record. */
  lemma RoutingHash(c: Codec, b: Batch<Buffered>)
    requires Lawful(c) && b.items != [] && WellHashed(c, b.items[0])
    ensures HashKey(c, RoutingPartitionKey(b), RoutingExplicitHashKey(b)) == Ok(b.items[0].hashKey)
  {
    var first := b.items[0];
    if |b.items| > 1 {
      if first.userRecord.explicitHashKey.None? {
        Md5HashKeyInRange(c, first.userRecord.partitionKey);
      }
      ParsePrintedHashKey(first.hashKey);
    }
  }
}
