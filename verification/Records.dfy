/** The values that travel through the pipeline: records with their history,
    and the batches that hold them. */
module Records {
  import opened Common
  import opened Aggregation

  datatype Attempt = Attempt(
    startedAt: real,
    endedAt: real,
    success: bool,
    shardId: Option<string>,
    sequenceNumber: Option<string>,
    errorCode: Option<string>,
    errorMessage: Option<string>)

  /** The terminal outcome of a record. */
  datatype RecordResult = RecordResult(
    success: bool,
    shardId: Option<string>,
    sequenceNumber: Option<string>,
    attempts: seq<Attempt>)

  /** `_BufferedRecord`; `id` stands for the identity of the object. */
  datatype Buffered = Buffered(
    id: nat,
    userRecord: UserRecord,
    deadline: real,
    hashKey: nat,
    arrivalTime: real,
    attempts: seq<Attempt>)

  /** An entry of the dictionary of pending outcomes of one stream. */
  datatype Ticket = Ticket(stream: string, id: nat)

  /** The user's records, without what the producer added. */
  function UserRecords(items: seq<Buffered>): (r: seq<UserRecord>)
    ensures |r| == |items| && forall i :: 0 <= i < |r| ==> r[i] == items[i].userRecord
  {
    seq(|items|, i requires 0 <= i < |items| => items[i].userRecord)
  }

  /** What an `AggregatedBatch` holds: records for one predicted shard. */
  datatype Batch<R> = Batch(shard: Option<int>, items: seq<R>)

  /** The records of a list of batches, in order. */
  function Flatten<R>(bs: seq<Batch<R>>): seq<R> {
    if bs == [] then [] else Flatten(Front(bs)) + Last(bs).items
  }

  lemma {:induction false} FlattenConcat<R>(as_: seq<Batch<R>>, bs: seq<Batch<R>>)
    ensures Flatten(as_ + bs) == Flatten(as_) + Flatten(bs)
  {
    if bs == [] {
      assert as_ + bs == as_;
    } else {
      assert Front(as_ + bs) == as_ + Front(bs) && Last(as_ + bs) == Last(bs);
      FlattenConcat(as_, Front(bs));
      Assoc(Flatten(as_), Flatten(Front(bs)), Last(bs).items);
    }
  }
}
