/** The PutRecords request that `Sender.send` (aiokpl/sender.py) builds. */
module Requests {
  import opened Common
  import opened Wire
  import opened Aggregation
  import opened AggregationCode
  import opened RoundTrip
  import opened Records
  import opened Hashing

  datatype Entry = Entry(data: seq<byte>, partitionKey: string, explicitHashKey: Option<string>)

  /** The entry of one batch as the service reads it: its keys hash to the first
      record's hash key, and its data is one record's bytes or a blob that
      decodes to the records, in order. */
  ghost predicate EntryFor(c: Codec, b: Batch<Buffered>, e: Entry) {
    && b.items != []
    && (WellHashed(c, b.items[0]) ==> HashKey(c, e.partitionKey, e.explicitHashKey) == Ok(b.items[0].hashKey))
    && (|b.items| == 1 ==> e.data == b.items[0].userRecord.data && e.partitionKey == b.items[0].userRecord.partitionKey)
    && (|b.items| > 1 ==> Decode(c, e.data) == if Fits(c, UserRecords(b.items)) then Ok(UserRecords(b.items)) else Err)
  }

  lemma EntryMeaning(c: Codec, b: Batch<Buffered>, e: Entry)
    requires Lawful(c) && b.items != []
    requires Encode(c, UserRecords(b.items)) == Ok(e.data)
    requires e.partitionKey == RoutingPartitionKey(b) && e.explicitHashKey == RoutingExplicitHashKey(b)
    ensures EntryFor(c, b, e)
  {
    hide HashKey, Fits, Decode;
    if WellHashed(c, b.items[0]) {
      RoutingHash(c, b);
    }
    if |b.items| > 1 {
      CodecRoundTrip(c, UserRecords(b.items));
    }
  }

  /** The request loop: one entry per batch, in order; an empty request or an
      empty batch is an error. */
  method BuildEntries(c: Codec, batches: seq<Batch<Buffered>>) returns (r: Result<seq<Entry>>)
    requires Lawful(c)
    ensures r.Ok? <==> batches != [] && forall i :: 0 <= i < |batches| ==> batches[i].items != []
    ensures r.Ok? ==> |r.value| == |batches| && forall i :: 0 <= i < |batches| ==> EntryFor(c, batches[i], r.value[i])
  {
    hide EntryFor, Lawful, RoutingPartitionKey, RoutingExplicitHashKey, Frame, FieldsOfBatch, EncodeFields;
    if batches == [] {
      return Err;
    }
    var entries := [];
    for i := 0 to |batches|
      invariant |entries| == i && forall j :: 0 <= j < i ==>
                batches[j].items != [] && EntryFor(c, batches[j], entries[j])
    {
      var b := batches[i];
      var blob := EncodeAggregated(c, UserRecords(b.items));
      if blob.Err? {
        return Err;
      }
      var e := Entry(blob.value, RoutingPartitionKey(b), RoutingExplicitHashKey(b));
      EntryMeaning(c, b, e);
      entries := entries + [e];
    }
    r := Ok(entries);
  }
}
